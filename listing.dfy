/**
 * The steps of a listing query shared by the product listing and the subscriber
 * listing: keep the matching documents, then skip and limit an ordered result.
 */
module Listing {

  /** `find(filter)`: the documents that match, in store order. */
  function Where<T>(s: seq<T>, keep: T -> bool): (r: seq<T>)
    ensures |r| <= |s|
    ensures forall i :: 0 <= i < |r| ==> r[i] in s && keep(r[i])
    ensures forall i :: 0 <= i < |s| && keep(s[i]) ==> s[i] in r
  {
    if s == [] then []
    else if keep(s[0]) then [s[0]] + Where(s[1..], keep)
    else Where(s[1..], keep)
  }

  /** A filter that every document satisfies keeps the whole store, in order. */
  lemma {:induction false} WhereAll<T>(s: seq<T>, keep: T -> bool)
    requires forall i :: 0 <= i < |s| ==> keep(s[i])
    ensures Where(s, keep) == s
  {
    if s != [] {
      WhereAll(s[1..], keep);
    }
  }

  /** Filtering a longer sequence: the filtered prefix, then the new element if it is kept. */
  lemma {:induction false} WhereAppend<T>(s: seq<T>, x: T, keep: T -> bool)
    ensures Where(s + [x], keep) == Where(s, keep) + (if keep(x) then [x] else [])
  {
    if s == [] {
      assert [x][1..] == [];
    } else {
      assert (s + [x])[0] == s[0];
      assert (s + [x])[1..] == s[1..] + [x];
      WhereAppend(s[1..], x, keep);
    }
  }

  /** The `pagination` block of a listing response. */
  datatype PageInfo = PageInfo(page: int, limit: int, total: nat, pages: nat)

  /** `(page - 1) * limit`: how many matches precede the requested page. */
  function Skip(page: int, limit: int): int {
    (page - 1) * limit
  }

  /** `Math.ceil(total / limit)`: the fewest pages of `limit` items that hold `total` items. */
  function PageCount(total: nat, limit: int): (r: nat)
    requires limit >= 1
    ensures r * limit >= total
    ensures r == 0 || (r - 1) * limit < total
  {
    var q := (total + limit - 1) / limit;
    assert q * limit <= total + limit - 1 < q * limit + limit;
    q
  }

  function Min(a: int, b: int): int {
    if a <= b then a else b
  }

  /** `.skip(skip).limit(limit)` on an ordered result. */
  function Window<T>(s: seq<T>, skip: nat, limit: nat): (r: seq<T>)
    ensures |r| == if skip >= |s| then 0 else Min(limit, |s| - skip)
    ensures forall i :: 0 <= i < |r| ==> r[i] == s[skip + i]
  {
    if skip >= |s| then []
    else
      var rest := s[skip..];
      if |rest| <= limit then rest else rest[..limit]
  }

  /** With a positive limit the skip is negative exactly for pages below 1. */
  lemma SkipSign(page: int, limit: int)
    requires limit >= 1
    ensures Skip(page, limit) >= 0 <==> page >= 1
  {
    if page < 1 {
      assert (page - 1) * limit <= -1 * limit;
    }
  }

  /** A page starts at or past the end exactly when its number exceeds the page count. */
  lemma PastTheLastPage(page: int, limit: int, total: nat)
    requires page >= 1 && limit >= 1
    ensures Skip(page, limit) >= total <==> page > PageCount(total, limit)
  {
    var pages := PageCount(total, limit);
    if page > pages {
      assert pages * limit <= (page - 1) * limit;
    } else {
      assert (page - 1) * limit <= (pages - 1) * limit;
    }
  }
}
