/**
  The fetch-dedup registry: a status per id, at most one fetch in flight per
  id, and a per-id queue of continuations that run when that fetch settles.
  A fetch is two atomic steps: `Query` starts it and `Settle` completes it
  against a remote answer map.
 */
module FetchObserver {
  import opened Wrappers
  import opened Types
  import opened Merge
  import ParseQuery
  import Observable

  /**
    The options `_makeMultipleQueries` passes for a term: those of the first
    entry whose `queryKey` is the term's key, or `{}` when none matches.
   */
  function OptionsFor(entries: seq<KeyedOptions>, key: string): (s: Settings)
    ensures (forall i :: 0 <= i < |entries| ==> entries[i].queryKey != key) ==> s == map[]
    ensures (exists i :: 0 <= i < |entries| && entries[i].queryKey == key) ==>
      exists i :: 0 <= i < |entries| && entries[i].queryKey == key && s == entries[i].options &&
        forall j :: 0 <= j < i ==> entries[j].queryKey != key
  {
    if entries == [] then map[]
    else if entries[0].queryKey == key then entries[0].options
    else
      var s := OptionsFor(entries[1..], key);
      assert forall i :: 1 <= i < |entries| ==> entries[1..][i - 1] == entries[i];
      if exists i :: 0 <= i < |entries| && entries[i].queryKey == key then
        var i :| 0 <= i < |entries| && entries[i].queryKey == key;
        assert entries[1..][i - 1].queryKey == key;
        var k :| 0 <= k < |entries[1..]| && entries[1..][k].queryKey == key && s == entries[1..][k].options &&
          forall j :: 0 <= j < k ==> entries[1..][j].queryKey != key;
        assert entries[k + 1].queryKey == key && s == entries[k + 1].options;
        assert forall j :: 0 <= j < k + 1 ==> entries[j].queryKey != key by {
          forall j | 0 <= j < k + 1 ensures entries[j].queryKey != key {
            if j > 0 { assert entries[j] == entries[1..][j - 1]; }
          }
        }
        s
      else
        s
  }

  /** The request a bare expression makes: `store.query(expression, options)`, options possibly absent. */
  function SingleRequest(e: Expression, options: Option<Options>): Request
    requires options.None? || options.value.ObjectOptions?
  {
    Request(e, if options.None? then None else Some(options.value.settings))
  }

  /** The option entries of a term-list query; absent options default to `[]`. */
  function EntriesOf(options: Option<Options>): seq<KeyedOptions>
    requires options.None? || options.value.ArrayOptions?
  {
    if options.None? then [] else options.value.entries
  }

  /** One request per term, each with the options found for its key. */
  function TermRequests(ts: seq<Term>, entries: seq<KeyedOptions>): (r: seq<Request>)
    ensures |r| == |ts|
    ensures forall i :: 0 <= i < |ts| ==> r[i] == Request(ts[i].expression, Some(OptionsFor(entries, ts[i].key)))
  {
    seq(|ts|, i requires 0 <= i < |ts| => Request(ts[i].expression, Some(OptionsFor(entries, ts[i].key))))
  }

  /** The remote's answer to each request; a missing answer is a rejection. */
  function RemoteAnswers(remote: Remote, reqs: seq<Request>): (r: seq<Option<Value>>)
    ensures |r| == |reqs|
    ensures forall i :: 0 <= i < |reqs| ==> r[i] == (if reqs[i] in remote then Some(remote[reqs[i]]) else None)
  {
    seq(|reqs|, i requires 0 <= i < |reqs| => if reqs[i] in remote then Some(remote[reqs[i]]) else None)
  }

  /**
    `_makeQuery`: the record data a settled fetch resolves with, or `None` when
    it rejects. A term list resolves only when every request resolves and the
    list is non-empty (the seedless `reduce` throws on `[]`).
   */
  function MakeQuery(t: TermsOrExpression, options: Option<Options>, remote: Remote): (r: Option<RecordData>)
    requires ParseQuery.ValidateOptions(t, options).None?
    ensures t.Single? ==> (r.Some? <==> SingleRequest(t.expression, options) in remote)
    ensures t.Single? && r.Some? ==> r.value == Found(remote[SingleRequest(t.expression, options)])
    ensures t.Terms? ==>
      (r.Some? <==>
        (t.terms != [] && forall i :: 0 <= i < |t.terms| ==> TermRequests(t.terms, EntriesOf(options))[i] in remote))
    ensures t.Terms? && r.Some? ==> r.value.Keyed? && r.value.values.Keys == KeysOf(t.terms)
    ensures t.Terms? && r.Some? ==>
      forall i :: 0 <= i < |t.terms| && LastWithKey(t.terms, i) ==>
        r.value.values[t.terms[i].key] == remote[TermRequests(t.terms, EntriesOf(options))[i]]
  {
    match t
    case Single(e) =>
      var req := SingleRequest(e, options);
      if req in remote then Some(Found(remote[req])) else None
    case Terms(ts) =>
      var answers := RemoteAnswers(remote, TermRequests(ts, EntriesOf(options)));
      var merged := Combine(ts, answers);
      if ts == [] || merged.None? then None
      else
        CombineKeys(ts, answers);
        forall i | 0 <= i < |ts| && LastWithKey(ts, i)
          ensures merged.value[ts[i].key] == remote[TermRequests(ts, EntriesOf(options))[i]]
        {
          CombineLast(ts, answers, i);
        }
        Some(Keyed(merged.value))
  }

  /** An id whose decoded query and options pass `validateOptions`. */
  predicate Admissible(id: Identifier) {
    var d := ParseQuery.DecodeIdentifier(id);
    ParseQuery.ValidateOptions(d.0, d.1).None?
  }

  /** The only continuation the registry queues: `() => delete this._queryRefs[id]`. */
  datatype Continuation = DeleteStatus(id: Identifier)

  /** Observable effects: a fetch started (`_tryQuery` called), or a `notify` call. */
  datatype FetchEvent = Started(id: Identifier) | Notified(id: Identifier, data: Data)

  /** The statuses after running continuations `cs` in order. */
  function RunDeletions(refs: map<Identifier, Status>, cs: seq<Continuation>): map<Identifier, Status>
  {
    if cs == [] then refs
    else RunDeletions(refs, cs[..|cs| - 1]) - {cs[|cs| - 1].id}
  }

  /** The ids continuations `cs` delete. */
  function DeletedIds(cs: seq<Continuation>): set<Identifier> {
    set c | c in cs :: c.id
  }

  /** Running the queue in order removes exactly the ids it names and touches nothing else. */
  lemma {:induction false} RunDeletionsRemoves(refs: map<Identifier, Status>, cs: seq<Continuation>)
    ensures RunDeletions(refs, cs) == refs - DeletedIds(cs)
  {
    if cs != [] {
      var init := cs[..|cs| - 1];
      RunDeletionsRemoves(refs, init);
      assert cs == init + [cs[|cs| - 1]];
      assert DeletedIds(cs) == DeletedIds(init) + {cs[|cs| - 1].id};
    }
  }

  /**
    The unsubscribe closure as written, once the listener has been removed
    (`remaining` is the registry afterwards): when a status exists and no
    listener is left it pushes a deletion onto the id's queue, which is
    `undefined` once the fetch has settled, so the push throws.
   */
  function UnsubscribeAsWritten(refs: map<Identifier, Status>, queue: map<Identifier, seq<Continuation>>,
                                remaining: Observable.Subscriptions, id: Identifier)
    : (r: Result<map<Identifier, seq<Continuation>>, string>)
    ensures r.Err? <==> id in refs && id !in remaining && id !in queue
    ensures r.Ok? && id in refs && id !in remaining ==> r.value == queue[id := queue[id] + [DeleteStatus(id)]]
    ensures r.Ok? && !(id in refs && id !in remaining) ==> r.value == queue
  {
    if id in refs && id !in remaining then
      if id in queue then Ok(queue[id := queue[id] + [DeleteStatus(id)]])
      else Err(UndefinedPush)
    else Ok(queue)
  }

  /** The TypeError raised by `undefined.push(...)`. */
  const UndefinedPush := "TypeError: cannot read property 'push' of undefined"

  class FetchManager {
    /** Listeners by id (the inherited `_subscriptions`). */
    var subscriptions: Observable.Subscriptions
    /** `_queryRefs`: the status of every id queried and not yet released. */
    var queryRefs: map<Identifier, Status>
    /** `_afterQueryQueue`: continuations to run when the id's fetch settles. */
    var afterQueryQueue: map<Identifier, seq<Continuation>>
    /** Every fetch start and notification, in order. */
    var events: seq<FetchEvent>

    /**
      A queue exists exactly while the id's fetch is in flight, every tracked
      id passed validation, and queued deletions name their own id.
     */
    ghost predicate Valid()
      reads this
    {
      && Observable.WellFormed(subscriptions)
      && (forall id :: id in afterQueryQueue <==> id in queryRefs && queryRefs[id].isLoading)
      && (forall id :: id in queryRefs ==> Admissible(id))
      && (forall id, c :: id in afterQueryQueue && c in afterQueryQueue[id] ==> c.id == id)
    }

    constructor ()
      ensures Valid()
      ensures subscriptions == map[] && queryRefs == map[] && afterQueryQueue == map[] && events == []
    {
      subscriptions := map[];
      queryRefs := map[];
      afterQueryQueue := map[];
      events := [];
    }

    /** `subscribe`: registers the listener and changes nothing else. */
    method Subscribe(id: Identifier, l: Listener)
      requires Valid()
      modifies this
      ensures Valid()
      ensures subscriptions == Observable.Subscribe(old(subscriptions), id, l)
      ensures queryRefs == old(queryRefs) && afterQueryQueue == old(afterQueryQueue) && events == old(events)
    {
      subscriptions := Observable.Subscribe(subscriptions, id, l);
    }

    /**
      The unsubscribe closure `subscribe` returns, corrected: when the last
      listener leaves and a status exists, the deletion is queued while the
      fetch is in flight and done at once otherwise. Wherever the code as
      written does not throw, both agree.
     */
    method Unsubscribe(id: Identifier, l: Listener)
      requires Valid()
      modifies this
      ensures Valid()
      ensures subscriptions == Observable.Unsubscribe(old(subscriptions), id, l)
      ensures UnsubscribeAsWritten(old(queryRefs), old(afterQueryQueue), subscriptions, id).Ok? ==>
        afterQueryQueue == UnsubscribeAsWritten(old(queryRefs), old(afterQueryQueue), subscriptions, id).value &&
        queryRefs == old(queryRefs)
      ensures UnsubscribeAsWritten(old(queryRefs), old(afterQueryQueue), subscriptions, id).Err? ==>
        afterQueryQueue == old(afterQueryQueue) && queryRefs == old(queryRefs) - {id}
      ensures id in old(queryRefs) && id !in subscriptions && old(queryRefs)[id].isLoading ==>
        queryRefs == old(queryRefs) &&
        afterQueryQueue == old(afterQueryQueue)[id := old(afterQueryQueue)[id] + [DeleteStatus(id)]]
      ensures id in old(queryRefs) && id !in subscriptions && !old(queryRefs)[id].isLoading ==>
        queryRefs == old(queryRefs) - {id} && afterQueryQueue == old(afterQueryQueue)
      ensures !(id in old(queryRefs) && id !in subscriptions) ==>
        queryRefs == old(queryRefs) && afterQueryQueue == old(afterQueryQueue)
      ensures events == old(events)
    {
      subscriptions := Observable.Unsubscribe(subscriptions, id, l);
      if id in queryRefs && id !in subscriptions {
        if id in afterQueryQueue {
          afterQueryQueue := afterQueryQueue[id := afterQueryQueue[id] + [DeleteStatus(id)]];
        } else {
          queryRefs := queryRefs - {id};
        }
      }
    }

    /**
      `query`: validates the options before touching any state; creates a
      fresh status for a new id (`_initQueryRef`); when the id is not loading,
      marks it loading, gives it an empty queue (`_setupForQuery`) and starts
      exactly one fetch; and returns null with the id's current status.
     */
    method Query(input: ParseQuery.QueryInput, options: Option<Options>) returns (r: Result<Data, string>)
      requires Valid()
      modifies this
      ensures Valid()
      ensures subscriptions == old(subscriptions)
      ensures var t := ParseQuery.GetTermsOrExpression(input);
        ParseQuery.ValidateOptions(t, options).Some? ==>
          r == Err(ParseQuery.ValidateOptions(t, options).value) &&
          queryRefs == old(queryRefs) && afterQueryQueue == old(afterQueryQueue) && events == old(events)
      ensures var t := ParseQuery.GetTermsOrExpression(input);
        var id := ParseQuery.HashQueryIdentifier(t, options);
        ParseQuery.ValidateOptions(t, options).None? ==>
          && id in queryRefs
          && r == Ok(Data(NoData, queryRefs[id]))
          && queryRefs[id].isLoading
          && (id in old(queryRefs) && old(queryRefs)[id].isLoading ==>
                queryRefs == old(queryRefs) && afterQueryQueue == old(afterQueryQueue) && events == old(events))
          && (!(id in old(queryRefs) && old(queryRefs)[id].isLoading) ==>
                queryRefs == old(queryRefs)[id := Status(id in old(queryRefs) && old(queryRefs)[id].isError, true)] &&
                afterQueryQueue == old(afterQueryQueue)[id := []] &&
                events == old(events) + [Started(id)])
    {
      var t := ParseQuery.GetTermsOrExpression(input);
      var invalid := ParseQuery.ValidateOptions(t, options);
      if invalid.Some? {
        return Err(invalid.value);
      }
      var id := ParseQuery.HashQueryIdentifier(t, options);
      ParseQuery.DecodeInvertsHash(t, options);
      if id !in queryRefs {
        queryRefs := queryRefs[id := Status(false, false)];
      }
      if !queryRefs[id].isLoading {
        queryRefs := queryRefs[id := Status(queryRefs[id].isError, true)];
        afterQueryQueue := afterQueryQueue[id := []];
        events := events + [Started(id)];
      }
      r := Ok(Data(NoData, queryRefs[id]));
    }

    /**
      The completion of `_tryQuery` for an id whose fetch is in flight: the
      status becomes `{isError, isLoading: false}`, the listeners are
      notified once with the data (null on failure) and that status, and the
      queued continuations run; a queued deletion removes the status.
     */
    method Settle(id: Identifier, remote: Remote)
      requires Valid()
      requires id in afterQueryQueue
      modifies this
      ensures Valid()
      ensures subscriptions == old(subscriptions)
      ensures afterQueryQueue == old(afterQueryQueue) - {id}
      ensures var d := ParseQuery.DecodeIdentifier(id);
        var outcome := MakeQuery(d.0, d.1, remote);
        var status := Status(outcome.None?, false);
        && events == old(events) + [Notified(id, Data(if outcome.Some? then outcome.value else NoData, status))]
        && (old(afterQueryQueue)[id] == [] ==> queryRefs == old(queryRefs)[id := status])
        && (old(afterQueryQueue)[id] != [] ==> queryRefs == old(queryRefs) - {id})
    {
      var d := ParseQuery.DecodeIdentifier(id);
      var outcome := MakeQuery(d.0, d.1, remote);
      var data := if outcome.Some? then outcome.value else NoData;
      var status := Status(outcome.None?, false);
      queryRefs := queryRefs[id := status];
      events := events + [Notified(id, Data(data, status))];
      ghost var settled, queue := queryRefs, afterQueryQueue[id];
      RunAfterQueryQueue(id);
      RunDeletionsRemoves(settled, queue);
      if queue != [] {
        assert queue[0] in queue;
        assert DeletedIds(queue) == {id};
      } else {
        assert DeletedIds(queue) == {};
      }
    }

    /** `_runAfterQueryQueue`: runs the id's continuations once each, in order, then deletes the queue. */
    method RunAfterQueryQueue(id: Identifier)
      requires id in afterQueryQueue
      modifies this
      ensures queryRefs == RunDeletions(old(queryRefs), old(afterQueryQueue)[id])
      ensures afterQueryQueue == old(afterQueryQueue) - {id}
      ensures subscriptions == old(subscriptions) && events == old(events)
    {
      var queue := afterQueryQueue[id];
      var i := 0;
      while i < |queue|
        invariant 0 <= i <= |queue|
        invariant queryRefs == RunDeletions(old(queryRefs), queue[..i])
        invariant afterQueryQueue == old(afterQueryQueue)
        invariant subscriptions == old(subscriptions) && events == old(events)
      {
        assert queue[..i + 1][..i] == queue[..i];
        queryRefs := queryRefs - {queue[i].id};
        i := i + 1;
      }
      assert queue[..|queue|] == queue;
      afterQueryQueue := afterQueryQueue - {id};
    }
  }

  /**
    A listener subscribes, its query is fetched and settles, and then the
    listener leaves. As written the unsubscribe closure throws, since the
    queue it pushes onto was deleted on settling; the corrected closure
    releases the status instead.
   */
  method SettledThenUnsubscribe(input: ParseQuery.QueryInput, l: Listener, remote: Remote)
    returns (asWritten: Result<map<Identifier, seq<Continuation>>, string>, released: bool)
    ensures asWritten == Err(UndefinedPush)
    ensures released
  {
    var m := new FetchManager();
    var id := ParseQuery.HashQueryIdentifier(ParseQuery.GetTermsOrExpression(input), None);
    m.Subscribe(id, l);
    var started := m.Query(input, None);
    m.Settle(id, remote);
    var remaining := Observable.Unsubscribe(m.subscriptions, id, l);
    asWritten := UnsubscribeAsWritten(m.queryRefs, m.afterQueryQueue, remaining, id);
    m.Unsubscribe(id, l);
    released := id !in m.queryRefs;
  }
}
