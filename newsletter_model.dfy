/**
 * The Newsletter schema (backend/src/models/Newsletter.ts): the email is
 * required, unique, lower-cased and trimmed by setters, and must match
 * `^\S+@\S+\.\S+$`; a new subscription is active and stamped with the time of
 * its creation.
 */
module NewsletterModel {
  import opened Wrappers
  import opened Text

  datatype Subscriber = Subscriber(email: string, subscribedAt: int, isActive: bool)

  /** The `lowercase` and `trim` setters, as applied to saved values and to query values alike. */
  function NormalizeEmail(s: string): (r: string)
    ensures |r| <= |s|
    ensures r == [] || (!IsSpace(r[0]) && !IsSpace(r[|r| - 1]))
  {
    Trim(ToLower(s))
  }

  /** Normalising a normalised address changes nothing. */
  lemma NormalizeIdempotent(s: string)
    ensures NormalizeEmail(NormalizeEmail(s)) == NormalizeEmail(s)
  {
    var t := Trim(ToLower(s));
    LowerTrimCommute(ToLower(s));
    ToLowerIdempotent(s);
    assert ToLower(t) == Trim(ToLower(s));
    TrimIdempotent(ToLower(s));
  }

  /** Trimming first and lower-casing second gives the same address. */
  lemma NormalizeEitherOrder(s: string)
    ensures NormalizeEmail(s) == ToLower(Trim(s))
  {
    LowerTrimCommute(s);
  }

  /** `@` at position `i` and `.` at position `j` split `s` into three non-empty parts. */
  predicate SplitsAt(s: string, i: int, j: int) {
    0 < i && i + 1 < j && j + 1 < |s| && s[i] == '@' && s[j] == '.'
  }

  /** The language of `^\S+@\S+\.\S+$`: no whitespace, and some `@` and later `.` leave three non-empty parts. */
  ghost predicate EmailShape(s: string) {
    NoSpace(s) && exists i, j :: SplitsAt(s, i, j)
  }

  /** The first position at or after `from` holding `c`, or -1. */
  function FirstFrom(s: string, c: char, from: nat): (r: int)
    ensures r == -1 || (from <= r < |s| && s[r] == c)
    ensures forall k :: from <= k < |s| && (r == -1 || k < r) ==> s[k] != c
    decreases |s| - from
  {
    if from >= |s| then -1
    else if s[from] == c then from
    else FirstFrom(s, c, from + 1)
  }

  /** The last position before `upto` holding `c`, or -1. */
  function LastBefore(s: string, c: char, upto: int): (r: int)
    requires upto <= |s|
    ensures r == -1 || (0 <= r < upto && s[r] == c)
    ensures forall k :: 0 <= k < upto && k > r ==> s[k] != c
    decreases upto
  {
    if upto <= 0 then -1
    else if s[upto - 1] == c then upto - 1
    else LastBefore(s, c, upto - 1)
  }

  function HasNoSpace(s: string): (b: bool)
    ensures b <==> NoSpace(s)
  {
    if s == [] then true else !IsSpace(s[0]) && HasNoSpace(s[1..])
  }

  /**
   * The `match` validator: the earliest usable `@` and the latest usable `.`
   * decide whether any split exists.
   */
  function MatchesPattern(s: string): (b: bool)
    ensures b <==> EmailShape(s)
  {
    var at := FirstFrom(s, '@', 1);
    var dot := LastBefore(s, '.', |s| - 1);
    var b := HasNoSpace(s) && at != -1 && dot != -1 && at + 1 < dot;
    if b then
      assert SplitsAt(s, at, dot);
      b
    else
      assert forall i, j :: SplitsAt(s, i, j) ==> at != -1 && at <= i && dot >= j;
      b
  }

  /** An address the pattern accepts. */
  lemma PatternAccepts()
    ensures MatchesPattern("a@b.io")
  {
    assert SplitsAt("a@b.io", 1, 3);
  }

  /** Addresses the pattern rejects: a missing user, a missing domain, a missing suffix, a space. */
  lemma PatternRejects()
    ensures !MatchesPattern("@b.io")
    ensures !MatchesPattern("a@.io")
    ensures !MatchesPattern("a@b.")
    ensures !MatchesPattern("a b@c.io")
  {
    assert IsSpace("a b@c.io"[1]);
  }

  predicate IsUpper(c: char) {
    'A' <= c <= 'Z'
  }

  /** The form the setters leave: no capital letter, no whitespace at either end. */
  predicate LowerTrimmed(e: string) {
    && (e == [] || (!IsSpace(e[0]) && !IsSpace(e[|e| - 1])))
    && forall i :: 0 <= i < |e| ==> !IsUpper(e[i])
  }

  /** The setters always produce that form ... */
  lemma NormalizedIsLowerTrimmed(s: string)
    ensures LowerTrimmed(NormalizeEmail(s))
  {
    LowerTrimCommute(s);
  }

  /** ... and leave a string in that form as it is. */
  lemma LowerTrimmedIsNormalized(e: string)
    requires LowerTrimmed(e)
    ensures NormalizeEmail(e) == e
  {
    assert ToLower(e) == e;
    TrimOfTrimmed(e);
  }

  /** What every stored record satisfies. */
  predicate StoredEmail(e: string) {
    LowerTrimmed(e) && MatchesPattern(e)
  }

  /**
   * `new Newsletter({ email })` and its validation on save: None when the
   * normalised address is empty or does not match the pattern.
   */
  function NewSubscription(email: string, now: int): (r: Option<Subscriber>)
    ensures r.Some? <==> MatchesPattern(NormalizeEmail(email))
    ensures r.Some? ==> r.value == Subscriber(NormalizeEmail(email), now, true) && StoredEmail(r.value.email)
  {
    var e := NormalizeEmail(email);
    NormalizedIsLowerTrimmed(email);
    if MatchesPattern(e) then Some(Subscriber(e, now, true)) else None
  }

  /** The required validator never fires on its own: an empty address already fails the pattern. */
  lemma EmptyAddressRejected(email: string, now: int)
    requires NormalizeEmail(email) == ""
    ensures NewSubscription(email, now).None?
  {
  }
}
