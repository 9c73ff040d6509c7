/**
 * The order in which the document store sorts on one key, and a sort that
 * produces it. Values of different kinds compare by kind first (missing, then
 * numbers, then strings, then booleans, then dates), as BSON comparison does;
 * strings compare code point by code point.
 */
module Ordering {

  datatype SortValue = Missing | Num(n: real) | Str(s: string) | Flag(b: bool) | Date(t: int)

  function Rank(v: SortValue): nat {
    match v
    case Missing => 0
    case Num(_) => 1
    case Str(_) => 2
    case Flag(_) => 3
    case Date(_) => 4
  }

  /** Lexicographic order on strings. */
  predicate StrLeq(a: string, b: string) {
    if a == [] then true
    else if b == [] then false
    else if a[0] < b[0] then true
    else if a[0] == b[0] then StrLeq(a[1..], b[1..])
    else false
  }

  lemma {:induction false} StrLeqTotal(a: string, b: string)
    ensures StrLeq(a, b) || StrLeq(b, a)
  {
    if a != [] && b != [] && a[0] == b[0] {
      StrLeqTotal(a[1..], b[1..]);
    }
  }

  lemma {:induction false} StrLeqTrans(a: string, b: string, c: string)
    requires StrLeq(a, b) && StrLeq(b, c)
    ensures StrLeq(a, c)
  {
    if a != [] && b != [] && c != [] && a[0] == b[0] && b[0] == c[0] {
      StrLeqTrans(a[1..], b[1..], c[1..]);
    }
  }

  predicate ValueLeq(x: SortValue, y: SortValue) {
    if Rank(x) != Rank(y) then Rank(x) < Rank(y)
    else match x
      case Missing => true
      case Num(n) => n <= y.n
      case Str(s) => StrLeq(s, y.s)
      case Flag(b) => !b || y.b
      case Date(t) => t <= y.t
  }

  lemma ValueLeqTotal(x: SortValue, y: SortValue)
    ensures ValueLeq(x, y) || ValueLeq(y, x)
  {
    if x.Str? && y.Str? {
      StrLeqTotal(x.s, y.s);
    }
  }

  lemma ValueLeqTrans(x: SortValue, y: SortValue, z: SortValue)
    requires ValueLeq(x, y) && ValueLeq(y, z)
    ensures ValueLeq(x, z)
  {
    if x.Str? && y.Str? && z.Str? {
      StrLeqTrans(x.s, y.s, z.s);
    }
  }

  /** `x` may come before `y` in a sort with direction +1 (ascending) or -1 (descending). */
  predicate InOrder(x: SortValue, y: SortValue, ascending: bool) {
    if ascending then ValueLeq(x, y) else ValueLeq(y, x)
  }

  predicate SortedBy<T>(s: seq<T>, key: T -> SortValue, ascending: bool) {
    forall i, j :: 0 <= i < j < |s| ==> InOrder(key(s[i]), key(s[j]), ascending)
  }

  function Insert<T>(x: T, s: seq<T>, key: T -> SortValue, ascending: bool): seq<T> {
    if s == [] then [x]
    else if InOrder(key(x), key(s[0]), ascending) then [x] + s
    else [s[0]] + Insert(x, s[1..], key, ascending)
  }

  /** Insertion sort on one key; ties keep their input order. */
  function SortBy<T>(s: seq<T>, key: T -> SortValue, ascending: bool): seq<T> {
    if s == [] then [] else Insert(s[0], SortBy(s[1..], key, ascending), key, ascending)
  }

  lemma {:induction false} InsertPermutes<T>(x: T, s: seq<T>, key: T -> SortValue, ascending: bool)
    ensures multiset(Insert(x, s, key, ascending)) == multiset(s) + multiset{x}
  {
    if s != [] && !InOrder(key(x), key(s[0]), ascending) {
      InsertPermutes(x, s[1..], key, ascending);
      assert s == [s[0]] + s[1..];
    }
  }

  lemma {:induction false} InsertSorted<T>(x: T, s: seq<T>, key: T -> SortValue, ascending: bool)
    requires SortedBy(s, key, ascending)
    ensures SortedBy(Insert(x, s, key, ascending), key, ascending)
  {
    if s == [] {
    } else if InOrder(key(x), key(s[0]), ascending) {
      var r := [x] + s;
      forall i, j | 0 <= i < j < |r| ensures InOrder(key(r[i]), key(r[j]), ascending) {
        if i == 0 && j > 1 {
          if ascending {
            ValueLeqTrans(key(x), key(s[0]), key(s[j - 1]));
          } else {
            ValueLeqTrans(key(s[j - 1]), key(s[0]), key(x));
          }
        }
      }
    } else {
      var rest := Insert(x, s[1..], key, ascending);
      InsertSorted(x, s[1..], key, ascending);
      InsertPermutes(x, s[1..], key, ascending);
      ValueLeqTotal(key(x), key(s[0]));
      var r := [s[0]] + rest;
      forall i, j | 0 <= i < j < |r| ensures InOrder(key(r[i]), key(r[j]), ascending) {
        if i == 0 {
          var y := r[j];
          assert y in multiset(rest);
          assert y == x || y in s[1..];
        }
      }
    }
  }

  /** The sort yields a permutation of its input in key order. */
  lemma {:induction false} SortBySortedPermutation<T>(s: seq<T>, key: T -> SortValue, ascending: bool)
    ensures SortedBy(SortBy(s, key, ascending), key, ascending)
    ensures multiset(SortBy(s, key, ascending)) == multiset(s)
  {
    if s != [] {
      SortBySortedPermutation(s[1..], key, ascending);
      InsertSorted(s[0], SortBy(s[1..], key, ascending), key, ascending);
      InsertPermutes(s[0], SortBy(s[1..], key, ascending), key, ascending);
      assert s == [s[0]] + s[1..];
    }
  }

  /** In a sorted sequence, everything past a prefix sorts no earlier than anything in it. */
  lemma PrefixComesFirst<T>(s: seq<T>, key: T -> SortValue, ascending: bool, k: nat)
    requires SortedBy(s, key, ascending) && k <= |s|
    ensures forall x, y :: x in s[..k] && y in s[k..] ==> InOrder(key(x), key(y), ascending)
  {
    forall x, y | x in s[..k] && y in s[k..] ensures InOrder(key(x), key(y), ascending) {
      var i :| 0 <= i < k && s[..k][i] == x;
      var j :| 0 <= j < |s| - k && s[k..][j] == y;
      assert s[i] == x && s[k + j] == y;
    }
  }

  /** A run of consecutive positions of a sorted sequence is sorted. */
  lemma SliceOfSorted<T>(s: seq<T>, r: seq<T>, skip: int, key: T -> SortValue, ascending: bool)
    requires SortedBy(s, key, ascending)
    requires skip >= 0
    requires forall i :: 0 <= i < |r| ==> skip + i < |s| && r[i] == s[skip + i]
    ensures SortedBy(r, key, ascending)
  {
    forall i, j | 0 <= i < j < |r| ensures InOrder(key(r[i]), key(r[j]), ascending) {
      var x, y := r[i], r[j];
      assert x == s[skip + i] && y == s[skip + j];
    }
  }
}
