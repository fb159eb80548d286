/**
  The older unified manager: reference-counted subscriptions keyed by the
  serialised sorted term list, a status per subscription, and at most one
  ongoing request per subscription, whose after-request queue defers
  listener calls and unsubscriptions until the request finishes. Hooks
  (`beforeQuery`, `onQuery`, `onError`, listeners) are opaque tokens and
  their calls are logged.
 */
module UnifiedManager {
  import opened Wrappers
  import opened Types
  import opened Merge
  import Lists
  import ParseQuery
  import ChangeManagement
  import Helpers
  import CacheObserver

  /** `JSON.stringify(terms)`, an injective encoding of the term list. */
  type QueryRef = seq<Term>

  /** A hook function, identified by a token. */
  type Hook = nat

  /** `EventCallbacks`: each callback is optional. */
  datatype Callbacks = Callbacks(listener: Option<Hook>, beforeQuery: Option<Hook>, onQuery: Option<Hook>, onError: Option<Hook>)

  datatype Subscription = Subscription(
    terms: seq<Term>,
    listeners: seq<Hook>,
    beforeQueries: seq<Hook>,
    onQueries: seq<Hook>,
    onErrors: seq<Hook>,
    subscriberCount: nat)

  /** A status; `error` records whether an error object is held. */
  datatype QueryStatus = QueryStatus(error: bool, loading: bool, records: Option<map<string, Value>>)

  /** The closures an after-request queue holds: a listener, or a bound `_unsubscribe`. */
  datatype Deferred = CallListener(listener: Hook) | DeferredUnsubscribe(callbacks: Callbacks)

  datatype OngoingQuery = OngoingQuery(
    afterRequestQueue: seq<Deferred>,
    beforeQueries: seq<Hook>,
    onQueries: seq<Hook>,
    onErrors: seq<Hook>)

  /** One hook invocation with the arguments it received. */
  datatype Call =
    | BeforeQueryCall(hook: Hook, terms: seq<Term>)
    | OnQueryCall(hook: Hook, records: map<string, Value>)
    | OnErrorCall(hook: Hook)
    | ListenerCall(listener: Hook)

  /** The part of the manager's state the after-request queue can change. */
  datatype Registry = Registry(
    subscriptions: map<QueryRef, Subscription>,
    statuses: map<QueryRef, QueryStatus>,
    calls: seq<Call>)

  /** `addEventCallback`: appends a callback that was given. */
  function AddCallback(cb: Option<Hook>, hooks: seq<Hook>): seq<Hook> {
    if cb.Some? then hooks + [cb.value] else hooks
  }

  /** `removeEventCallback`: removes the first occurrence of a callback that was given. */
  function RemoveCallback(cb: Option<Hook>, hooks: seq<Hook>): seq<Hook> {
    if cb.Some? then Lists.RemoveFirst(hooks, cb.value) else hooks
  }

  /** One more subscriber, with its callbacks registered. */
  function Added(s: Subscription, cbs: Callbacks): Subscription {
    s.(subscriberCount := s.subscriberCount + 1,
       listeners := AddCallback(cbs.listener, s.listeners),
       beforeQueries := AddCallback(cbs.beforeQuery, s.beforeQueries),
       onQueries := AddCallback(cbs.onQuery, s.onQueries),
       onErrors := AddCallback(cbs.onError, s.onErrors))
  }

  /** One subscriber fewer, with its callbacks removed. */
  function Removed(s: Subscription, cbs: Callbacks): Subscription
    requires s.subscriberCount >= 1
  {
    s.(subscriberCount := s.subscriberCount - 1,
       listeners := RemoveCallback(cbs.listener, s.listeners),
       beforeQueries := RemoveCallback(cbs.beforeQuery, s.beforeQueries),
       onQueries := RemoveCallback(cbs.onQuery, s.onQueries),
       onErrors := RemoveCallback(cbs.onError, s.onErrors))
  }

  /** None of the given callbacks is registered yet. */
  predicate NotRegistered(s: Subscription, cbs: Callbacks) {
    && (cbs.listener.Some? ==> cbs.listener.value !in s.listeners)
    && (cbs.beforeQuery.Some? ==> cbs.beforeQuery.value !in s.beforeQueries)
    && (cbs.onQuery.Some? ==> cbs.onQuery.value !in s.onQueries)
    && (cbs.onError.Some? ==> cbs.onError.value !in s.onErrors)
  }

  /** Unsubscribing with the callbacks just subscribed restores the subscription. */
  lemma RemovedUndoesAdded(s: Subscription, cbs: Callbacks)
    requires NotRegistered(s, cbs)
    ensures Removed(Added(s, cbs), cbs) == s
  {
    if cbs.listener.Some? { Lists.RemoveFirstOfAppended(s.listeners, cbs.listener.value); }
    if cbs.beforeQuery.Some? { Lists.RemoveFirstOfAppended(s.beforeQueries, cbs.beforeQuery.value); }
    if cbs.onQuery.Some? { Lists.RemoveFirstOfAppended(s.onQueries, cbs.onQuery.value); }
    if cbs.onError.Some? { Lists.RemoveFirstOfAppended(s.onErrors, cbs.onError.value); }
  }

  /**
    The records `_queryCache` reads: the merged key -> value object when every
    term hits (the `reduce` has the seed `{}`, so no terms give `{}`), and
    null as soon as one misses.
   */
  function CacheRecords(cache: Cache, terms: seq<Term>): (r: Option<map<string, Value>>)
    ensures r.Some? <==> forall i :: 0 <= i < |terms| ==> terms[i].expression in cache
    ensures r.Some? ==> r.value.Keys == KeysOf(terms)
    ensures r.Some? ==>
      forall i :: 0 <= i < |terms| && LastWithKey(terms, i) ==> r.value[terms[i].key] == cache[terms[i].expression]
  {
    var answers := CacheObserver.CacheAnswers(cache, terms);
    var merged := Combine(terms, answers);
    if merged.None? then merged
    else
      CombineKeys(terms, answers);
      forall i | 0 <= i < |terms| && LastWithKey(terms, i)
        ensures merged.value[terms[i].key] == cache[terms[i].expression]
      {
        CombineLast(terms, answers, i);
      }
      merged
  }

  /**
    This read and the cache registry's `_query` agree on every non-empty term
    list; on the empty list this one yields `{}` where `_query` reports an error.
   */
  lemma CacheRecordsMatchesRead(cache: Cache, terms: seq<Term>)
    ensures terms != [] ==>
      (CacheRecords(cache, terms).Some? <==> !CacheObserver.Read(cache, Terms(terms)).status.isError)
    ensures terms != [] && CacheRecords(cache, terms).Some? ==>
      CacheObserver.Read(cache, Terms(terms)).data == Keyed(CacheRecords(cache, terms).value)
    ensures CacheRecords(cache, []) == Some(map[]) && CacheObserver.Read(cache, Terms([])).status.isError
  {
  }

  /** The answer to each term's `store.query(expression)`; a missing answer is a rejection. */
  function RemoteAnswers(remote: Remote, terms: seq<Term>): (r: seq<Option<Value>>)
    ensures |r| == |terms|
    ensures forall i :: 0 <= i < |terms| ==>
      r[i] == (if Request(terms[i].expression, None) in remote then Some(remote[Request(terms[i].expression, None)]) else None)
  {
    seq(|terms|, i requires 0 <= i < |terms| =>
      if Request(terms[i].expression, None) in remote then Some(remote[Request(terms[i].expression, None)]) else None)
  }

  /** What `Promise.all` and the seeded merge give: the merged records, or `None` when any request rejects. */
  function RemoteRecords(remote: Remote, terms: seq<Term>): (r: Option<map<string, Value>>)
    ensures r.Some? <==> forall i :: 0 <= i < |terms| ==> Request(terms[i].expression, None) in remote
    ensures r.Some? ==> r.value.Keys == KeysOf(terms)
    ensures r.Some? ==>
      forall i :: 0 <= i < |terms| && LastWithKey(terms, i) ==>
        r.value[terms[i].key] == remote[Request(terms[i].expression, None)]
  {
    var answers := RemoteAnswers(remote, terms);
    var merged := Combine(terms, answers);
    if merged.None? then merged
    else
      CombineKeys(terms, answers);
      forall i | 0 <= i < |terms| && LastWithKey(terms, i)
        ensures merged.value[terms[i].key] == remote[Request(terms[i].expression, None)]
      {
        CombineLast(terms, answers, i);
      }
      merged
  }

  function BeforeQueryCalls(hooks: seq<Hook>, terms: seq<Term>): seq<Call> {
    seq(|hooks|, i requires 0 <= i < |hooks| => BeforeQueryCall(hooks[i], terms))
  }

  function OnQueryCalls(hooks: seq<Hook>, records: map<string, Value>): seq<Call> {
    seq(|hooks|, i requires 0 <= i < |hooks| => OnQueryCall(hooks[i], records))
  }

  function OnErrorCalls(hooks: seq<Hook>): seq<Call> {
    seq(|hooks|, i requires 0 <= i < |hooks| => OnErrorCall(hooks[i]))
  }

  function ListenerCallsFor(hooks: seq<Hook>): seq<Call> {
    seq(|hooks|, i requires 0 <= i < |hooks| => ListenerCall(hooks[i]))
  }

  /** The hooks one `_queryCache` call invokes, in order. */
  function CacheCalls(s: Subscription, records: Option<map<string, Value>>): seq<Call> {
    BeforeQueryCalls(s.beforeQueries, s.terms) +
    (if records.Some? then OnQueryCalls(s.onQueries, records.value) else OnErrorCalls(s.onErrors))
  }

  /** The number of deferred unsubscriptions in a queue. */
  function CountDeferred(q: seq<Deferred>): nat {
    if q == [] then 0 else (if q[0].DeferredUnsubscribe? then 1 else 0) + CountDeferred(q[1..])
  }

  lemma {:induction false} CountDeferredAppend(a: seq<Deferred>, b: seq<Deferred>)
    ensures CountDeferred(a + b) == CountDeferred(a) + CountDeferred(b)
  {
    if a == [] {
      assert a + b == b;
    } else {
      assert (a + b)[0] == a[0];
      assert (a + b)[1..] == a[1..] + b;
      CountDeferredAppend(a[1..], b);
    }
  }

  /** The listener calls a queue makes, in order. */
  function ListenerCalls(q: seq<Deferred>): seq<Call> {
    if q == [] then []
    else (if q[0].CallListener? then [ListenerCall(q[0].listener)] else []) + ListenerCalls(q[1..])
  }

  /**
    `_unsubscribe`: one subscriber fewer with its callbacks removed; at zero
    the subscription and its status are deleted. Nothing else changes.
   */
  function Unsubscribed(r: Registry, ref: QueryRef, cbs: Callbacks): (u: Registry)
    requires ref in r.subscriptions && r.subscriptions[ref].subscriberCount >= 1
    ensures u.calls == r.calls
    ensures ref in u.subscriptions <==> r.subscriptions[ref].subscriberCount > 1
    ensures ref in u.subscriptions ==> u.subscriptions[ref] == Removed(r.subscriptions[ref], cbs) && u.statuses == r.statuses
    ensures ref !in u.subscriptions ==> ref !in u.statuses
    ensures u.subscriptions - {ref} == r.subscriptions - {ref} && u.statuses - {ref} == r.statuses - {ref}
  {
    var s := Removed(r.subscriptions[ref], cbs);
    if s.subscriberCount == 0 then r.(subscriptions := r.subscriptions - {ref}, statuses := r.statuses - {ref})
    else r.(subscriptions := r.subscriptions[ref := s])
  }

  /** Every deferred unsubscription in the queue has a subscriber to remove. */
  predicate Backed(r: Registry, ref: QueryRef, q: seq<Deferred>) {
    CountDeferred(q) <= if ref in r.subscriptions then r.subscriptions[ref].subscriberCount else 0
  }

  /** `afterRequestQueue.forEach(fn => fn())` for the queue of `ref`. */
  function RunQueue(r: Registry, ref: QueryRef, q: seq<Deferred>): (u: Registry)
    requires Backed(r, ref, q)
    ensures u.calls == r.calls + ListenerCalls(q)
    decreases |q|
  {
    if q == [] then r
    else
      match q[0]
      case CallListener(l) => RunQueue(r.(calls := r.calls + [ListenerCall(l)]), ref, q[1..])
      case DeferredUnsubscribe(cbs) => RunQueue(Unsubscribed(r, ref, cbs), ref, q[1..])
  }

  /**
    Running the queue removes one subscriber per deferred unsubscription;
    the subscription and its status disappear exactly when that uses up
    every subscriber, and no other subscription or status changes.
   */
  lemma {:induction false} RunQueueTeardown(r: Registry, ref: QueryRef, q: seq<Deferred>)
    requires Backed(r, ref, q) && ref in r.subscriptions && r.subscriptions[ref].subscriberCount >= 1
    ensures var u := RunQueue(r, ref, q);
      && (ref in u.subscriptions <==> CountDeferred(q) < r.subscriptions[ref].subscriberCount)
      && (ref in u.subscriptions ==>
            u.subscriptions[ref].subscriberCount == r.subscriptions[ref].subscriberCount - CountDeferred(q) &&
            u.subscriptions[ref].terms == r.subscriptions[ref].terms &&
            u.statuses == r.statuses)
      && (ref !in u.subscriptions ==> ref !in u.statuses)
      && u.subscriptions - {ref} == r.subscriptions - {ref}
      && u.statuses - {ref} == r.statuses - {ref}
    decreases |q|
  {
    if q != [] {
      assert CountDeferred(q) == (if q[0].DeferredUnsubscribe? then 1 else 0) + CountDeferred(q[1..]);
      match q[0]
      case CallListener(l) =>
        RunQueueTeardown(r.(calls := r.calls + [ListenerCall(l)]), ref, q[1..]);
      case DeferredUnsubscribe(cbs) =>
        var v := Unsubscribed(r, ref, cbs);
        if ref in v.subscriptions {
          RunQueueTeardown(v, ref, q[1..]);
        } else {
          assert CountDeferred(q[1..]) == 0;
          RunQueueIdle(v, ref, q[1..]);
        }
    }
  }

  /** A queue with no deferred unsubscription only calls listeners. */
  lemma {:induction false} RunQueueIdle(r: Registry, ref: QueryRef, q: seq<Deferred>)
    requires CountDeferred(q) == 0
    ensures RunQueue(r, ref, q) == r.(calls := r.calls + ListenerCalls(q))
    decreases |q|
  {
    if q != [] {
      RunQueueIdle(r.(calls := r.calls + [ListenerCall(q[0].listener)]), ref, q[1..]);
    }
  }

  /** Two maps equal outside `x` agree on every other key. */
  lemma AgreeOutside<K, V>(m1: map<K, V>, m2: map<K, V>, x: K)
    requires m1 - {x} == m2 - {x}
    ensures forall k :: k != x ==> (k in m1 <==> k in m2) && (k in m1 ==> m1[k] == m2[k])
  {
    forall k | k != x
      ensures (k in m1 <==> k in m2) && (k in m1 ==> m1[k] == m2[k])
    {
      assert k in m1 <==> k in m1 - {x};
      assert k in m2 <==> k in m2 - {x};
      if k in m1 {
        assert m1[k] == (m1 - {x})[k];
        assert m2[k] == (m2 - {x})[k];
      }
    }
  }

  /** The registry after the request part of `_query` settles, before the queue runs. */
  function Settled(r: Registry, ref: QueryRef, o: OngoingQuery, outcome: Option<map<string, Value>>): Registry
    requires ref in r.statuses
  {
    var st := r.statuses[ref];
    if outcome.Some? then
      r.(statuses := r.statuses[ref := st.(loading := false)], calls := r.calls + OnQueryCalls(o.onQueries, outcome.value))
    else
      r.(statuses := r.statuses[ref := st.(loading := false, error := true)], calls := r.calls + OnErrorCalls(o.onErrors))
  }

  /** The callbacks `query` registers on an ongoing query; the listener waits in the queue. */
  function WithQueryCallbacks(o: OngoingQuery, cbs: Callbacks): OngoingQuery {
    o.(afterRequestQueue := if cbs.listener.Some? then o.afterRequestQueue + [CallListener(cbs.listener.value)] else o.afterRequestQueue,
       beforeQueries := AddCallback(cbs.beforeQuery, o.beforeQueries),
       onQueries := AddCallback(cbs.onQuery, o.onQueries),
       onErrors := AddCallback(cbs.onError, o.onErrors))
  }

  const NoQuery := OngoingQuery([], [], [], [])

  /**
    Subscriptions and statuses share their keys; every subscription is keyed
    by its own terms and has a subscriber; an ongoing query belongs to a
    subscription, which is loading exactly while it is ongoing, and has at
    least as many subscribers as deferred unsubscriptions.
   */
  ghost predicate Consistent(subscriptions: map<QueryRef, Subscription>, statuses: map<QueryRef, QueryStatus>,
                             ongoingQueries: map<QueryRef, OngoingQuery>)
  {
    && subscriptions.Keys == statuses.Keys
    && (forall ref :: ref in subscriptions ==> subscriptions[ref].terms == ref && subscriptions[ref].subscriberCount >= 1)
    && ongoingQueries.Keys <= subscriptions.Keys
    && (forall ref :: ref in statuses ==> (statuses[ref].loading <==> ref in ongoingQueries))
    && (forall ref :: ref in ongoingQueries ==>
          CountDeferred(ongoingQueries[ref].afterRequestQueue) <= subscriptions[ref].subscriberCount)
  }

  /** Registering an ongoing query on a subscription, and marking it loading, keeps the invariant. */
  lemma ConsistentOngoing(subscriptions: map<QueryRef, Subscription>, statuses: map<QueryRef, QueryStatus>,
                          ongoingQueries: map<QueryRef, OngoingQuery>, ref: QueryRef, o: OngoingQuery, st: QueryStatus)
    requires Consistent(subscriptions, statuses, ongoingQueries) && ref in subscriptions
    requires st.loading
    requires CountDeferred(o.afterRequestQueue) <= subscriptions[ref].subscriberCount
    ensures Consistent(subscriptions, statuses[ref := st], ongoingQueries[ref := o])
  {
  }

  /** Settling an ongoing query, running its queue and dropping it keeps the invariant. */
  lemma ConsistentAfterSettle(r: Registry, ongoingQueries: map<QueryRef, OngoingQuery>, ref: QueryRef,
                              outcome: Option<map<string, Value>>)
    requires Consistent(r.subscriptions, r.statuses, ongoingQueries) && ref in ongoingQueries
    ensures Backed(Settled(r, ref, ongoingQueries[ref], outcome), ref, ongoingQueries[ref].afterRequestQueue)
    ensures var o := ongoingQueries[ref];
      var u := RunQueue(Settled(r, ref, o, outcome), ref, o.afterRequestQueue);
      Consistent(u.subscriptions, u.statuses, ongoingQueries - {ref})
  {
    var o := ongoingQueries[ref];
    assert ref in r.subscriptions && ref in r.statuses;
    assert r.subscriptions[ref].terms == ref && r.subscriptions[ref].subscriberCount >= 1;
    assert CountDeferred(o.afterRequestQueue) <= r.subscriptions[ref].subscriberCount;
    var v := Settled(r, ref, o, outcome);
    assert v.subscriptions == r.subscriptions;
    assert ref in v.statuses && !v.statuses[ref].loading;
    RunQueueTeardown(v, ref, o.afterRequestQueue);
    var u := RunQueue(v, ref, o.afterRequestQueue);
    assert u.statuses - {ref} == r.statuses - {ref} by {
      assert v.statuses - {ref} == r.statuses - {ref};
    }
    ConsistentAfterRelease(r.subscriptions, r.statuses, ongoingQueries, ref, u.subscriptions, u.statuses);
  }

  /**
    Dropping the ongoing query of `ref` keeps the invariant when nothing
    else changed and `ref` is either gone or settled and not loading.
   */
  lemma ConsistentAfterRelease(subscriptions: map<QueryRef, Subscription>, statuses: map<QueryRef, QueryStatus>,
                               ongoingQueries: map<QueryRef, OngoingQuery>, ref: QueryRef,
                               subscriptions': map<QueryRef, Subscription>, statuses': map<QueryRef, QueryStatus>)
    requires Consistent(subscriptions, statuses, ongoingQueries) && ref in ongoingQueries
    requires subscriptions' - {ref} == subscriptions - {ref} && statuses' - {ref} == statuses - {ref}
    requires ref in subscriptions' ==>
      subscriptions'[ref].terms == ref && subscriptions'[ref].subscriberCount >= 1 &&
      ref in statuses' && !statuses'[ref].loading
    requires ref !in subscriptions' ==> ref !in statuses'
    ensures Consistent(subscriptions', statuses', ongoingQueries - {ref})
  {
    AgreeOutside(subscriptions', subscriptions, ref);
    AgreeOutside(statuses', statuses, ref);
    var rest := ongoingQueries - {ref};
    assert forall k :: k in rest <==> k in ongoingQueries && k != ref;
    assert subscriptions'.Keys == statuses'.Keys;
  }

  /** Replacing one subscription and its status keeps the invariant when the new pair fits it. */
  lemma ConsistentUpdate(subscriptions: map<QueryRef, Subscription>, statuses: map<QueryRef, QueryStatus>,
                         ongoingQueries: map<QueryRef, OngoingQuery>, ref: QueryRef, s: Subscription, st: QueryStatus)
    requires Consistent(subscriptions, statuses, ongoingQueries)
    requires s.terms == ref && s.subscriberCount >= 1
    requires st.loading <==> ref in ongoingQueries
    requires ref in ongoingQueries ==> CountDeferred(ongoingQueries[ref].afterRequestQueue) <= s.subscriberCount
    ensures Consistent(subscriptions[ref := s], statuses[ref := st], ongoingQueries)
  {
  }

  class QueryManager {
    /** `_subscriptions` */
    var subscriptions: map<QueryRef, Subscription>
    /** `statuses` */
    var statuses: map<QueryRef, QueryStatus>
    /** `_ongoingQueries` */
    var ongoingQueries: map<QueryRef, OngoingQuery>
    /** Every request batch started by `_query`, in order. */
    var requests: seq<QueryRef>
    /** Every hook invocation, in order. */
    var calls: seq<Call>

    function State(): Registry
      reads this
    {
      Registry(subscriptions, statuses, calls)
    }

    /** The manager's invariant, on its three maps. */
    ghost predicate Valid()
      reads this
    {
      Consistent(subscriptions, statuses, ongoingQueries)
    }

    constructor ()
      ensures Valid()
      ensures subscriptions == map[] && statuses == map[] && ongoingQueries == map[] && requests == [] && calls == []
    {
      subscriptions := map[];
      statuses := map[];
      ongoingQueries := map[];
      requests := [];
      calls := [];
    }

    /**
      `subscribe`: the ref is the sorted term list (`_extractTerms`); the
      registration itself is `SubscribeRef`.
     */
    method Subscribe(queries: ParseQuery.Queries, cbs: Callbacks, cache: Cache) returns (ref: QueryRef)
      requires Valid()
      modifies this
      ensures Valid()
      ensures ref == ParseQuery.GetTerms(queries)
      ensures ref in old(subscriptions) ==>
        subscriptions == old(subscriptions)[ref := Added(old(subscriptions)[ref], cbs)] && statuses == old(statuses)
      ensures ref !in old(subscriptions) ==>
        subscriptions == old(subscriptions)[ref := Added(Subscription(ref, [], [], [], [], 0), cbs)] &&
        statuses == old(statuses)[ref := QueryStatus(false, false, CacheRecords(cache, ref))]
      ensures ongoingQueries == old(ongoingQueries) && requests == old(requests) && calls == old(calls)
    {
      ref := ParseQuery.GetTerms(queries);
      SubscribeRef(ref, cbs, cache);
    }

    /**
      The registration `subscribe` makes under `ref`. A new ref gets a
      subscription with no subscribers and a fresh status whose records come
      from a cache read (made before any hook is registered, so no hook
      runs); then the count goes up by one and the callbacks are added.
     */
    method SubscribeRef(ref: QueryRef, cbs: Callbacks, cache: Cache)
      requires Valid()
      modifies this
      ensures Valid()
      ensures ref in old(subscriptions) ==>
        subscriptions == old(subscriptions)[ref := Added(old(subscriptions)[ref], cbs)] && statuses == old(statuses)
      ensures ref !in old(subscriptions) ==>
        subscriptions == old(subscriptions)[ref := Added(Subscription(ref, [], [], [], [], 0), cbs)] &&
        statuses == old(statuses)[ref := QueryStatus(false, false, CacheRecords(cache, ref))]
      ensures ongoingQueries == old(ongoingQueries) && requests == old(requests) && calls == old(calls)
    {
      if ref !in subscriptions {
        InitSubscription(ref, cache);
      }
      var added := Added(subscriptions[ref], cbs);
      ConsistentUpdate(old(subscriptions), old(statuses), ongoingQueries, ref, added, statuses[ref]);
      subscriptions := subscriptions[ref := added];
      assert subscriptions == old(subscriptions)[ref := added];
    }

    /**
      The first `subscribe` for a ref: an empty subscription, a fresh status,
      and a cache read that no hook observes.
     */
    method InitSubscription(ref: QueryRef, cache: Cache)
      requires ref !in subscriptions
      modifies this
      ensures subscriptions == old(subscriptions)[ref := Subscription(ref, [], [], [], [], 0)]
      ensures statuses == old(statuses)[ref := QueryStatus(false, false, CacheRecords(cache, ref))]
      ensures ongoingQueries == old(ongoingQueries) && requests == old(requests) && calls == old(calls)
    {
      var empty := Subscription(ref, [], [], [], [], 0);
      subscriptions := subscriptions[ref := empty];
      statuses := statuses[ref := QueryStatus(false, false, None)];
      QueryCache(ref, cache);
      assert CacheCalls(empty, CacheRecords(cache, ref)) == [];
    }

    /**
      `unsubscribe`: while a request is ongoing the `_unsubscribe` is queued
      and nothing else changes; otherwise it happens at once.
     */
    method Unsubscribe(ref: QueryRef, cbs: Callbacks)
      requires Valid()
      requires ref in subscriptions
      requires ref in ongoingQueries ==>
        CountDeferred(ongoingQueries[ref].afterRequestQueue) < subscriptions[ref].subscriberCount
      modifies this
      ensures Valid()
      ensures ref in old(ongoingQueries) ==>
        ongoingQueries == old(ongoingQueries)[ref := old(ongoingQueries)[ref].(afterRequestQueue :=
          old(ongoingQueries)[ref].afterRequestQueue + [DeferredUnsubscribe(cbs)])] &&
        State() == old(State())
      ensures ref !in old(ongoingQueries) ==>
        State() == Unsubscribed(old(State()), ref, cbs) && ongoingQueries == old(ongoingQueries)
      ensures requests == old(requests)
    {
      if ref in ongoingQueries {
        var o := ongoingQueries[ref];
        CountDeferredAppend(o.afterRequestQueue, [DeferredUnsubscribe(cbs)]);
        ongoingQueries := ongoingQueries[ref := o.(afterRequestQueue := o.afterRequestQueue + [DeferredUnsubscribe(cbs)])];
      } else {
        DoUnsubscribe(ref, cbs);
      }
    }

    /** `_unsubscribe` */
    method DoUnsubscribe(ref: QueryRef, cbs: Callbacks)
      requires ref in subscriptions && subscriptions[ref].subscriberCount >= 1
      modifies this
      ensures State() == Unsubscribed(old(State()), ref, cbs)
      ensures ongoingQueries == old(ongoingQueries) && requests == old(requests)
    {
      var s := Removed(subscriptions[ref], cbs);
      if s.subscriberCount == 0 {
        subscriptions := subscriptions - {ref};
        statuses := statuses - {ref};
      } else {
        subscriptions := subscriptions[ref := s];
      }
    }

    /**
      `query`: registers the callbacks on the ref's ongoing query, creating
      it first when there is none; only then does it start a request, mark
      the status loading and call the query's `beforeQuery` hooks.
     */
    method Query(ref: QueryRef, cbs: Callbacks)
      requires Valid()
      requires ref in subscriptions
      modifies this
      ensures Valid()
      ensures subscriptions == old(subscriptions)
      ensures ref in old(ongoingQueries) ==>
        ongoingQueries == old(ongoingQueries)[ref := WithQueryCallbacks(old(ongoingQueries)[ref], cbs)] &&
        statuses == old(statuses) && requests == old(requests) && calls == old(calls)
      ensures ref !in old(ongoingQueries) ==>
        ongoingQueries == old(ongoingQueries)[ref := WithQueryCallbacks(NoQuery, cbs)] &&
        statuses == old(statuses)[ref := old(statuses)[ref].(loading := true)] &&
        requests == old(requests) + [ref] &&
        calls == old(calls) + BeforeQueryCalls(AddCallback(cbs.beforeQuery, []), ref)
    {
      var queryExists := ref in ongoingQueries;
      var o := if queryExists then ongoingQueries[ref] else NoQuery;
      if cbs.listener.Some? {
        CountDeferredAppend(o.afterRequestQueue, [CallListener(cbs.listener.value)]);
      }
      var withCallbacks := WithQueryCallbacks(o, cbs);
      ongoingQueries := ongoingQueries[ref := withCallbacks];
      if !queryExists {
        Start(ref);
      }
      ConsistentOngoing(old(subscriptions), old(statuses), old(ongoingQueries), ref, withCallbacks, statuses[ref]);
      assert statuses == old(statuses)[ref := statuses[ref]];
    }

    /** The synchronous start of `_query`: the request, the loading flag, the `beforeQuery` hooks. */
    method Start(ref: QueryRef)
      requires ref in subscriptions && ref in statuses && ref in ongoingQueries
      modifies this
      ensures requests == old(requests) + [ref]
      ensures statuses == old(statuses)[ref := old(statuses)[ref].(loading := true)]
      ensures subscriptions == old(subscriptions) && ongoingQueries == old(ongoingQueries)
      ensures calls == old(calls) + BeforeQueryCalls(old(ongoingQueries)[ref].beforeQueries, old(subscriptions)[ref].terms)
    {
      var terms := subscriptions[ref].terms;
      requests := requests + [ref];
      statuses := statuses[ref := statuses[ref].(loading := true)];
      calls := calls + BeforeQueryCalls(ongoingQueries[ref].beforeQueries, terms);
    }

    /**
      The rest of `_query` once the requests settle: on success the
      `onQuery` hooks get the merged records and loading ends, leaving
      `error` and `records` as they were; on failure the `onError` hooks run,
      loading ends and `error` is set. Then `_onRequestFinish` runs the queue.
     */
    method Settle(ref: QueryRef, remote: Remote)
      requires Valid()
      requires ref in ongoingQueries
      modifies this
      ensures Valid()
      ensures ongoingQueries == old(ongoingQueries) - {ref} && requests == old(requests)
      ensures var o := old(ongoingQueries)[ref];
        State() == RunQueue(Settled(old(State()), ref, o, RemoteRecords(remote, ref)), ref, o.afterRequestQueue)
      ensures var q := old(ongoingQueries)[ref].afterRequestQueue;
        ref in subscriptions <==> CountDeferred(q) < old(subscriptions)[ref].subscriberCount
      ensures ref in statuses ==>
        statuses[ref] == old(statuses)[ref].(loading := false,
                                            error := old(statuses)[ref].error || RemoteRecords(remote, ref).None?)
      ensures subscriptions - {ref} == old(subscriptions) - {ref} && statuses - {ref} == old(statuses) - {ref}
    {
      var o := ongoingQueries[ref];
      var outcome := SettleRequest(ref, remote);
      ghost var settled := State();
      ConsistentAfterSettle(old(State()), old(ongoingQueries), ref, outcome);
      OnRequestFinish(ref);
      RunQueueTeardown(settled, ref, o.afterRequestQueue);
    }

    /** The `try`/`catch` of `_query`: the outcome's hooks and the status update. */
    method SettleRequest(ref: QueryRef, remote: Remote) returns (outcome: Option<map<string, Value>>)
      requires ref in ongoingQueries && ref in subscriptions && ref in statuses
      modifies this
      ensures outcome == RemoteRecords(remote, old(subscriptions)[ref].terms)
      ensures State() == Settled(old(State()), ref, old(ongoingQueries)[ref], outcome)
      ensures ongoingQueries == old(ongoingQueries) && requests == old(requests)
    {
      var o := ongoingQueries[ref];
      outcome := RemoteRecords(remote, subscriptions[ref].terms);
      var st := statuses[ref];
      if outcome.Some? {
        calls := calls + OnQueryCalls(o.onQueries, outcome.value);
        statuses := statuses[ref := st.(loading := false)];
      } else {
        calls := calls + OnErrorCalls(o.onErrors);
        statuses := statuses[ref := st.(loading := false, error := true)];
      }
    }

    /** `_onRequestFinish`: runs the after-request queue once each, in order, then drops the ongoing query. */
    method OnRequestFinish(ref: QueryRef)
      requires ref in ongoingQueries
      requires Backed(State(), ref, ongoingQueries[ref].afterRequestQueue)
      modifies this
      ensures State() == RunQueue(old(State()), ref, old(ongoingQueries)[ref].afterRequestQueue)
      ensures ongoingQueries == old(ongoingQueries) - {ref} && requests == old(requests)
    {
      var queue := ongoingQueries[ref].afterRequestQueue;
      var i := 0;
      while i < |queue|
        invariant 0 <= i <= |queue|
        invariant Backed(State(), ref, queue[i..])
        invariant RunQueue(State(), ref, queue[i..]) == RunQueue(old(State()), ref, queue)
        invariant ongoingQueries == old(ongoingQueries) && requests == old(requests)
      {
        assert queue[i..][1..] == queue[i + 1..];
        match queue[i] {
          case CallListener(l) =>
            calls := calls + [ListenerCall(l)];
          case DeferredUnsubscribe(cbs) =>
            DoUnsubscribe(ref, cbs);
        }
        i := i + 1;
      }
      ongoingQueries := ongoingQueries - {ref};
    }

    /**
      `_queryCache`: calls the subscription's `beforeQuery` hooks, reads
      the cache, calls `onQuery` with the records or `onError` on a miss,
      and stores the records (null on a miss) in the status.
     */
    method QueryCache(ref: QueryRef, cache: Cache)
      requires ref in subscriptions && ref in statuses
      modifies this
      ensures subscriptions == old(subscriptions) && ongoingQueries == old(ongoingQueries) && requests == old(requests)
      ensures var records := CacheRecords(cache, old(subscriptions)[ref].terms);
        statuses == old(statuses)[ref := old(statuses)[ref].(records := records)] &&
        calls == old(calls) + CacheCalls(old(subscriptions)[ref], records)
    {
      var s := subscriptions[ref];
      calls := calls + BeforeQueryCalls(s.beforeQueries, s.terms);
      var records := CacheRecords(cache, s.terms);
      if records.Some? {
        calls := calls + OnQueryCalls(s.onQueries, records.value);
      } else {
        calls := calls + OnErrorCalls(s.onErrors);
      }
      statuses := statuses[ref := statuses[ref].(records := records)];
    }

    /**
      `_compare` bound to `ref`: when the batch touches the subscription's
      terms, re-reads the cache and then calls each listener once; otherwise
      nothing changes.
     */
    method Compare(ref: QueryRef, ops: seq<Operation>, cache: Cache)
      requires Valid()
      requires ref in subscriptions
      modifies this
      ensures Valid()
      ensures subscriptions == old(subscriptions) && ongoingQueries == old(ongoingQueries) && requests == old(requests)
      ensures var s := old(subscriptions)[ref];
        var cs := ChangeManagement.UpdatedRecords(ops);
        var records := CacheRecords(cache, s.terms);
        if Helpers.ShouldUpdate(s.terms, cs.records, cs.relatedRecords) then
          statuses == old(statuses)[ref := old(statuses)[ref].(records := records)] &&
          calls == old(calls) + CacheCalls(s, records) + ListenerCallsFor(s.listeners)
        else
          statuses == old(statuses) && calls == old(calls)
    {
      var cs := ChangeManagement.GetUpdatedRecords(ops);
      var terms := subscriptions[ref].terms;
      if Helpers.ShouldUpdate(terms, cs.records, cs.relatedRecords) {
        QueryCache(ref, cache);
        calls := calls + ListenerCallsFor(subscriptions[ref].listeners);
      }
    }
  }
}
