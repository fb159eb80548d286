/**
  The cache-read registry: listeners keyed by identifier, a synchronous
  all-or-nothing read against the store's in-memory cache, and the
  transform handler that re-reads and notifies only the affected ids.
 */
module CacheObserver {
  import opened Wrappers
  import opened Types
  import opened Merge
  import ParseQuery
  import ChangeManagement
  import Observable

  /** `cache.query(expression)`: the value on a hit, nothing on a miss (where the store throws). */
  function Lookup(cache: Cache, e: Expression): Option<Value> {
    if e in cache then Some(cache[e]) else None
  }

  /** The cache's answer to each term, in term order. */
  function CacheAnswers(cache: Cache, ts: seq<Term>): (r: seq<Option<Value>>)
    ensures |r| == |ts|
    ensures forall i :: 0 <= i < |ts| ==> r[i] == Lookup(cache, ts[i].expression)
  {
    seq(|ts|, i requires 0 <= i < |ts| => Lookup(cache, ts[i].expression))
  }

  /**
    `_query`: a bare expression yields its value, or null with `isError` on
    a miss; a term list yields the key -> value object only when every term
    hits (the `reduce` without a seed also throws on an empty list), and
    otherwise null with `isError`. `isLoading` is always false.
   */
  function Read(cache: Cache, t: TermsOrExpression): (d: Data)
    ensures !d.status.isLoading
    ensures d.status.isError <==> d.data == NoData
    ensures t.Single? ==>
      (d.status.isError <==> t.expression !in cache) &&
      (!d.status.isError ==> d.data == Found(cache[t.expression]))
    ensures t.Terms? ==>
      (!d.status.isError <==>
        t.terms != [] && forall i :: 0 <= i < |t.terms| ==> t.terms[i].expression in cache)
    ensures t.Terms? && !d.status.isError ==> d.data.Keyed? && d.data.values.Keys == KeysOf(t.terms)
    ensures t.Terms? && !d.status.isError ==>
      forall i :: 0 <= i < |t.terms| && LastWithKey(t.terms, i) ==>
        d.data.values[t.terms[i].key] == cache[t.terms[i].expression]
  {
    match t
    case Single(e) =>
      if e in cache then Data(Found(cache[e]), Status(false, false))
      else Data(NoData, Status(true, false))
    case Terms(ts) =>
      var answers := CacheAnswers(cache, ts);
      var merged := Combine(ts, answers);
      if ts == [] || merged.None? then Data(NoData, Status(true, false))
      else
        CombineKeys(ts, answers);
        forall i | 0 <= i < |ts| && LastWithKey(ts, i)
          ensures merged.value[ts[i].key] == cache[ts[i].expression]
        {
          CombineLast(ts, answers, i);
        }
        Data(Keyed(merged.value), Status(false, false))
  }

  /**
    The re-read `_compare` performs, as written: it passes `JSON.parse(id)`
    to `_query`, so for an id with options the cache is asked for the
    `{ termsOrExpression, options }` wrapper, which is no expression, and the
    read fails.
   */
  function ReadDecodedAsWritten(cache: Cache, id: Identifier): (d: Data)
    ensures id.WithOptions? ==> d == Data(NoData, Status(true, false))
    ensures id.Plain? ==> d == Read(cache, id.termsOrExpression)
  {
    match id
    case Plain(t) => Read(cache, t)
    case WithOptions(_, _) => Data(NoData, Status(true, false))
  }

  /** The re-read as intended: the identifier's own terms-or-expression, with or without options. */
  function ReadIdentifier(cache: Cache, id: Identifier): (d: Data)
    ensures d == Read(cache, ParseQuery.DecodeIdentifier(id).0)
    ensures d == ReadDecodedAsWritten(cache, Plain(id.termsOrExpression))
  {
    Read(cache, id.termsOrExpression)
  }

  /**
    The discrepancy: a subscription with options on an expression the cache
    holds is notified with null and `isError` as written, and with the
    cached value as intended.
   */
  lemma WrappedReadLosesHit(cache: Cache, e: Expression, o: Options)
    requires e in cache
    ensures ReadDecodedAsWritten(cache, WithOptions(Single(e), o)) == Data(NoData, Status(true, false))
    ensures ReadIdentifier(cache, WithOptions(Single(e), o)) == Data(Found(cache[e]), Status(false, false))
  {
  }

  /** The ids a transform affects among the subscribed ones. */
  function Affected(subs: Observable.Subscriptions, ops: seq<Operation>): set<Identifier> {
    set id | id in subs && ChangeManagement.Affects(id, ops)
  }

  /** One `notify(id, data)` call. */
  datatype Notice = Notice(id: Identifier, data: Data)

  /** The notices are one fresh read for each affected id, and nothing else. */
  predicate NotifiesExactly(ns: seq<Notice>, affected: set<Identifier>, cache: Cache) {
    && (forall i :: 0 <= i < |ns| ==> ns[i].id in affected && ns[i].data == ReadIdentifier(cache, ns[i].id))
    && (forall i, j :: 0 <= i < j < |ns| ==> ns[i].id != ns[j].id)
    && (forall id :: id in affected ==> exists i :: 0 <= i < |ns| && ns[i].id == id)
  }

  class CacheManager {
    /** Listeners by id (the inherited `_subscriptions`). */
    var subscriptions: Observable.Subscriptions
    /** Whether `_compare` is registered for the store's `transform` event. */
    var attached: bool
    /** Every `notify` call made so far, in order. */
    var notices: seq<Notice>

    /** The store handler is registered exactly while some id has listeners. */
    ghost predicate Valid()
      reads this
    {
      Observable.WellFormed(subscriptions) && (attached <==> subscriptions != map[])
    }

    constructor ()
      ensures Valid()
      ensures subscriptions == map[] && !attached && notices == []
    {
      subscriptions := map[];
      attached := false;
      notices := [];
    }

    /** `_hasNoSubscribers` */
    function HasNoSubscribers(): (r: bool)
      reads this
      ensures r <==> subscriptions == map[]
    {
      assert subscriptions != map[] ==> exists id :: id in subscriptions;
      |subscriptions.Keys| == 0
    }

    /**
      `subscribe`: registers the store handler first when nobody was
      subscribed, then adds the listener. `attachedNow` records whether the
      handler was registered by this call.
     */
    method Subscribe(id: Identifier, l: Listener) returns (attachedNow: bool)
      requires Valid()
      modifies this
      ensures Valid()
      ensures attachedNow <==> old(subscriptions) == map[]
      ensures subscriptions == Observable.Subscribe(old(subscriptions), id, l)
      ensures attached && notices == old(notices)
    {
      attachedNow := HasNoSubscribers();
      if attachedNow {
        attached := true;
      }
      subscriptions := Observable.Subscribe(subscriptions, id, l);
    }

    /**
      The closure `subscribe` returns: removes the listener, then
      unregisters the store handler when nobody is left. `detachedNow`
      records whether it called `off`.
     */
    method Unsubscribe(id: Identifier, l: Listener) returns (detachedNow: bool)
      requires Valid()
      modifies this
      ensures Valid()
      ensures subscriptions == Observable.Unsubscribe(old(subscriptions), id, l)
      ensures detachedNow <==> subscriptions == map[]
      ensures notices == old(notices)
    {
      subscriptions := Observable.Unsubscribe(subscriptions, id, l);
      detachedNow := HasNoSubscribers();
      if detachedNow {
        attached := false;
      }
    }

    /** `query`: the synchronous read of the normalised query; nothing changes. */
    method Query(input: ParseQuery.QueryInput, cache: Cache) returns (d: Data)
      ensures d == Read(cache, ParseQuery.GetTermsOrExpression(input))
    {
      var t := ParseQuery.GetTermsOrExpression(input);
      d := Read(cache, t);
    }

    /**
      `_compare`: computes the change set once, then for every subscribed id
      whose identifier `shouldUpdate` accepts, re-reads and notifies it once.
      The registry and the store handler are untouched.
     */
    method Compare(ops: seq<Operation>, cache: Cache)
      requires Valid()
      modifies this
      ensures Valid()
      ensures subscriptions == old(subscriptions) && attached == old(attached)
      ensures |notices| >= |old(notices)| && notices[..|old(notices)|] == old(notices)
      ensures NotifiesExactly(notices[|old(notices)|..], Affected(subscriptions, ops), cache)
    {
      var cs := ChangeManagement.GetUpdatedRecords(ops);
      var remaining := subscriptions.Keys;
      var sent: seq<Notice> := [];
      while remaining != {}
        invariant subscriptions == old(subscriptions) && attached == old(attached)
        invariant remaining <= subscriptions.Keys
        invariant notices == old(notices) + sent
        invariant NotifiesExactly(sent, Affected(subscriptions, ops) - remaining, cache)
        decreases remaining
      {
        var id :| id in remaining;
        assert id in Affected(subscriptions, ops) <==> ChangeManagement.ShouldUpdate(id, cs.records, cs.relatedRecords);
        ghost var done := sent;
        if ChangeManagement.ShouldUpdate(id, cs.records, cs.relatedRecords) {
          var data := ReadIdentifier(cache, id);
          sent := sent + [Notice(id, data)];
          notices := notices + [Notice(id, data)];
          assert forall k :: 0 <= k < |done| ==> sent[k] == done[k];
          assert sent[|sent| - 1].id == id;
        }
        assert Affected(subscriptions, ops) - (remaining - {id}) ==
          (Affected(subscriptions, ops) - remaining) +
          (if ChangeManagement.ShouldUpdate(id, cs.records, cs.relatedRecords) then {id} else {});
        remaining := remaining - {id};
      }
      assert Affected(subscriptions, ops) - remaining == Affected(subscriptions, ops);
      assert notices[|old(notices)|..] == sent;
    }
  }
}
