/**
 * The newsletter handlers of backend/src/controllers/newsletterController.ts
 * over the registry of subscription records. Records are looked up by the
 * normalised address, reactivated or deactivated in place, and never deleted.
 */
module NewsletterController {
  import opened Wrappers
  import opened Http
  import opened Ordering
  import opened Listing
  import opened NewsletterModel

  /** The position of the record with address `e`, or -1. */
  function IndexOfEmail(records: seq<Subscriber>, e: string): (r: int)
    ensures -1 <= r < |records|
    ensures r >= 0 ==> records[r].email == e
    ensures forall j :: 0 <= j < |records| && (r < 0 || j < r) ==> records[j].email != e
  {
    if records == [] then -1
    else if records[0].email == e then 0
    else
      var k := IndexOfEmail(records[1..], e);
      if k < 0 then -1 else k + 1
  }

  predicate EmailsUnique(records: seq<Subscriber>) {
    forall i, j :: 0 <= i < j < |records| ==> records[i].email != records[j].email
  }

  /** The `unique` index together with what the schema let through on creation. */
  predicate RegistryValid(records: seq<Subscriber>) {
    EmailsUnique(records) && forall i :: 0 <= i < |records| ==> StoredEmail(records[i].email)
  }

  predicate IsSubscribed(records: seq<Subscriber>, e: string) {
    var i := IndexOfEmail(records, e);
    i >= 0 && records[i].isActive
  }

  /** Same addresses, in the same places, as before. */
  predicate SameAddresses(before: seq<Subscriber>, after: seq<Subscriber>) {
    |before| <= |after| && forall k :: 0 <= k < |before| ==> after[k].email == before[k].email
  }

  /** A handler's answer together with the registry it leaves behind. */
  datatype Transition = Transition(status: Status, records: seq<Subscriber>)

  /**
   * `subscribe`. `key` is the address as the registry sees it: the body's
   * address after the route's sanitiser and the schema's setters. The
   * pattern is checked only when a new record is saved.
   */
  function SubscribeOutcome(records: seq<Subscriber>, validationPassed: bool, key: string, now: int): (t: Transition)
    ensures SameAddresses(records, t.records)
    ensures |t.records| == |records| + (if t.status == Created then 1 else 0)
    ensures t.status in {BadRequest, Conflict, Ok, Created, ServerError}
    ensures t.status == BadRequest <==> !validationPassed
    ensures t.status == Conflict <==> validationPassed && IsSubscribed(records, key)
    ensures t.status == Created ==> IndexOfEmail(records, key) < 0
    ensures t.status == Ok ==> IndexOfEmail(records, key) >= 0
    ensures var i := IndexOfEmail(records, key);
      validationPassed && i >= 0 && !records[i].isActive ==>
        t == Transition(Ok, records[i := records[i].(isActive := true, subscribedAt := now)])
    ensures validationPassed && IndexOfEmail(records, key) < 0 ==> (t.status == Created <==> MatchesPattern(key))
    ensures t.status == Created ==> t.records == records + [Subscriber(key, now, true)]
    ensures t.status == ServerError <==> validationPassed && IndexOfEmail(records, key) < 0 && !MatchesPattern(key)
    ensures !t.status.Success() ==> t.records == records
    ensures t.status.Success() ==>
      var i := IndexOfEmail(t.records, key);
      i >= 0 && t.records[i].isActive && t.records[i].subscribedAt == now
  {
    if !validationPassed then Transition(BadRequest, records)
    else
      var i := IndexOfEmail(records, key);
      if i >= 0 then
        if records[i].isActive then Transition(Conflict, records)
        else Transition(Ok, records[i := records[i].(isActive := true, subscribedAt := now)])
      else if !MatchesPattern(key) then Transition(ServerError, records)
      else
        var r := records + [Subscriber(key, now, true)];
        assert IndexOfEmail(r, key) == |records| by { AppendedIsFound(records, Subscriber(key, now, true)); }
        Transition(Created, r)
  }

  lemma AppendedIsFound(records: seq<Subscriber>, s: Subscriber)
    requires IndexOfEmail(records, s.email) < 0
    ensures IndexOfEmail(records + [s], s.email) == |records|
  {
    var r := records + [s];
    var k := IndexOfEmail(r, s.email);
    assert r[|records|].email == s.email;
    assert k >= 0 && k <= |records|;
  }

  /**
   * `unsubscribe`. It ignores the validators' verdict, and deactivates the
   * record whatever its state.
   */
  function UnsubscribeOutcome(records: seq<Subscriber>, key: string): (t: Transition)
    ensures SameAddresses(records, t.records) && |t.records| == |records|
    ensures t.status in {Ok, NotFound}
    ensures t.status == NotFound <==> IndexOfEmail(records, key) < 0
    ensures t.status == NotFound ==> t.records == records
    ensures t.status == Ok ==> !IsSubscribed(t.records, key)
    ensures var i := IndexOfEmail(records, key);
      t.status == Ok ==> t.records == records[i := records[i].(isActive := false)]
    ensures forall k :: 0 <= k < |records| && records[k].email != key ==> t.records[k] == records[k]
  {
    var i := IndexOfEmail(records, key);
    if i < 0 then Transition(NotFound, records)
    else Transition(Ok, records[i := records[i].(isActive := false)])
  }

  /** Subscribing an address that was just subscribed answers 409. */
  lemma SubscribeTwiceConflicts(records: seq<Subscriber>, key: string, now: int, later: int)
    requires SubscribeOutcome(records, true, key, now).status.Success()
    ensures var t := SubscribeOutcome(records, true, key, now);
      SubscribeOutcome(t.records, true, key, later) == Transition(Conflict, t.records)
  {
  }

  /** Unsubscribing twice is unsubscribing once. */
  lemma UnsubscribeIdempotent(records: seq<Subscriber>, key: string)
    ensures var t := UnsubscribeOutcome(records, key);
      UnsubscribeOutcome(t.records, key) == Transition(t.status, t.records)
  {
    var i := IndexOfEmail(records, key);
    if i >= 0 {
      assert IndexOfEmail(UnsubscribeOutcome(records, key).records, key) == i;
    }
  }

  /** A known address that unsubscribes and comes back is reactivated, not created anew. */
  lemma ComeBackAfterUnsubscribe(records: seq<Subscriber>, key: string, now: int)
    requires IndexOfEmail(records, key) >= 0
    ensures var t := UnsubscribeOutcome(records, key);
      var u := SubscribeOutcome(t.records, true, key, now);
      u.status == Ok && |u.records| == |records|
  {
    var i := IndexOfEmail(records, key);
    assert IndexOfEmail(UnsubscribeOutcome(records, key).records, key) == i;
  }

  /** Subscribing keeps one record per stored address and every stored address valid. */
  lemma SubscribePreservesValid(records: seq<Subscriber>, validationPassed: bool, key: string, now: int)
    requires RegistryValid(records) && LowerTrimmed(key)
    ensures RegistryValid(SubscribeOutcome(records, validationPassed, key, now).records)
  {
    var t := SubscribeOutcome(records, validationPassed, key, now);
    if t.status == Created {
      var s := Subscriber(key, now, true);
      assert t.records == records + [s];
      assert StoredEmail(key);
      forall i, j | 0 <= i < j < |t.records| ensures t.records[i].email != t.records[j].email {
        if j == |records| {
          assert records[i].email != key;
        }
      }
    } else if t.status == Ok {
      var i := IndexOfEmail(records, key);
      assert t.records == records[i := records[i].(isActive := true, subscribedAt := now)];
    }
  }

  lemma UnsubscribePreservesValid(records: seq<Subscriber>, key: string)
    requires RegistryValid(records)
    ensures RegistryValid(UnsubscribeOutcome(records, key).records)
  {
  }

  /** The registry as the two public handlers change it. */
  class NewsletterRegistry {
    var records: seq<Subscriber>

    ghost predicate Valid()
      reads this
    {
      RegistryValid(records)
    }

    constructor()
      ensures Valid()
      ensures records == []
    {
      records := [];
    }

    /** `email` is the address after the route's sanitiser; the schema's setters give the key. */
    method Subscribe(validationPassed: bool, email: string, now: int) returns (status: Status)
      requires Valid()
      modifies this
      ensures Valid()
      ensures Transition(status, records) == SubscribeOutcome(old(records), validationPassed, NormalizeEmail(email), now)
    {
      var key := NormalizeEmail(email);
      NormalizedIsLowerTrimmed(email);
      SubscribePreservesValid(records, validationPassed, key, now);
      if !validationPassed {
        return BadRequest;
      }
      var i := IndexOfEmail(records, key);
      if i >= 0 {
        if records[i].isActive {
          return Conflict;
        }
        records := records[i := records[i].(isActive := true, subscribedAt := now)];
        return Ok;
      }
      var doc := NewSubscription(email, now);
      if doc.None? {
        return ServerError;
      }
      records := records + [doc.value];
      status := Created;
    }

    method Unsubscribe(email: string) returns (status: Status)
      requires Valid()
      modifies this
      ensures Valid()
      ensures Transition(status, records) == UnsubscribeOutcome(old(records), NormalizeEmail(email))
    {
      var key := NormalizeEmail(email);
      UnsubscribePreservesValid(records, key);
      var i := IndexOfEmail(records, key);
      if i < 0 {
        return NotFound;
      }
      records := records[i := records[i].(isActive := false)];
      status := Ok;
    }
  }

  /** The query string of the subscriber listing, `page` and `limit` already through `parseInt`. */
  datatype SubscriberQuery = SubscriberQuery(active: Option<string>, page: Option<int>, limit: Option<int>)

  datatype SubscriberList = SubscribersListed(subscribers: seq<Subscriber>, info: PageInfo) | SubscribersFailed(status: Status)

  /** The `isActive` filter: present only when `active` is, true exactly when it reads "true". */
  function ActiveFilter(q: SubscriberQuery): (f: Option<bool>)
    ensures f.Some? <==> q.active.Some?
    ensures f.Some? ==> (f.value <==> q.active.value == "true")
  {
    if q.active.Some? then Some(q.active.value == "true") else None
  }

  predicate Selected(s: Subscriber, f: Option<bool>) {
    f.None? || s.isActive == f.value
  }

  function Selection(records: seq<Subscriber>, q: SubscriberQuery): seq<Subscriber> {
    Where(records, (s: Subscriber) => Selected(s, ActiveFilter(q)))
  }

  function Newest(s: Subscriber): SortValue {
    Date(s.subscribedAt)
  }

  function SubscriberPage(q: SubscriberQuery): int {
    q.page.GetOr(1)
  }

  function SubscriberLimit(q: SubscriberQuery): int {
    q.limit.GetOr(50)
  }

  /** `getSubscribers`: newest first, 50 to a page by default. */
  function GetSubscribers(records: seq<Subscriber>, q: SubscriberQuery): (r: SubscriberList)
    requires SubscriberLimit(q) >= 1
    ensures r.SubscribersFailed? <==> SubscriberPage(q) < 1
    ensures r.SubscribersFailed? ==> r.status == ServerError
    ensures r.SubscribersListed? ==>
      var total := |Selection(records, q)|;
      r.info == PageInfo(SubscriberPage(q), SubscriberLimit(q), total, PageCount(total, SubscriberLimit(q)))
  {
    var page, limit := SubscriberPage(q), SubscriberLimit(q);
    SkipSign(page, limit);
    if page < 1 then SubscribersFailed(ServerError)
    else
      var selected := Selection(records, q);
      SubscribersListed(Window(SortBy(selected, Newest, false), Skip(page, limit), limit),
                        PageInfo(page, limit, |selected|, PageCount(|selected|, limit)))
  }

  /** Listed subscribers come from the registry and satisfy the filter. */
  lemma SubscribersFromRegistry(records: seq<Subscriber>, q: SubscriberQuery)
    requires SubscriberLimit(q) >= 1
    ensures var r := GetSubscribers(records, q);
      r.SubscribersListed? ==>
        forall i :: 0 <= i < |r.subscribers| ==>
          r.subscribers[i] in records && Selected(r.subscribers[i], ActiveFilter(q))
  {
    var r := GetSubscribers(records, q);
    if r.SubscribersListed? {
      var selected := Selection(records, q);
      var sorted := SortBy(selected, Newest, false);
      var skip := Skip(SubscriberPage(q), SubscriberLimit(q));
      SkipSign(SubscriberPage(q), SubscriberLimit(q));
      SortBySortedPermutation(selected, Newest, false);
      forall i | 0 <= i < |r.subscribers|
        ensures r.subscribers[i] in records && Selected(r.subscribers[i], ActiveFilter(q))
      {
        assert r.subscribers[i] == sorted[skip + i];
        assert sorted[skip + i] in multiset(selected);
      }
    }
  }

  /** Listed subscribers are newest first. */
  lemma SubscribersNewestFirst(records: seq<Subscriber>, q: SubscriberQuery)
    requires SubscriberLimit(q) >= 1
    ensures var r := GetSubscribers(records, q);
      r.SubscribersListed? ==>
        forall i, j :: 0 <= i < j < |r.subscribers| ==>
          r.subscribers[i].subscribedAt >= r.subscribers[j].subscribedAt
  {
    var r := GetSubscribers(records, q);
    if r.SubscribersListed? {
      var selected := Selection(records, q);
      var sorted := SortBy(selected, Newest, false);
      var skip := Skip(SubscriberPage(q), SubscriberLimit(q));
      SkipSign(SubscriberPage(q), SubscriberLimit(q));
      SortBySortedPermutation(selected, Newest, false);
      SliceOfSorted(sorted, r.subscribers, skip, Newest, false);
      forall i, j | 0 <= i < j < |r.subscribers|
        ensures r.subscribers[i].subscribedAt >= r.subscribers[j].subscribedAt
      {
        assert InOrder(Newest(r.subscribers[i]), Newest(r.subscribers[j]), false);
      }
    }
  }

  /** Without a query: page 1 of 50, counting every record. */
  lemma SubscriberDefaults(records: seq<Subscriber>)
    ensures var r := GetSubscribers(records, SubscriberQuery(None, None, None));
      r.SubscribersListed? && r.info == PageInfo(1, 50, |records|, PageCount(|records|, 50))
  {
    WhereAll(records, (s: Subscriber) => Selected(s, ActiveFilter(SubscriberQuery(None, None, None))));
  }
}
