/**
  The facade over the two registries: one id per query and options, the
  same listener registered in both, and one unsubscribe that tears down both.
 */
module QueryObservable {
  import opened Wrappers
  import opened Types
  import ParseQuery
  import Observable
  import CacheObserver
  import FetchObserver

  class QueryManager {
    /** `_cacheManager` */
    const cacheManager: CacheObserver.CacheManager
    /** `_fetchManager` */
    const fetchManager: FetchObserver.FetchManager

    /** Both registries are consistent and hold the same listeners under the same ids. */
    ghost predicate Valid()
      reads this, cacheManager, fetchManager
    {
      cacheManager.Valid() && fetchManager.Valid() && cacheManager.subscriptions == fetchManager.subscriptions
    }

    constructor ()
      ensures Valid()
      ensures fresh(cacheManager) && fresh(fetchManager)
      ensures cacheManager.subscriptions == map[] && !cacheManager.attached && cacheManager.notices == []
      ensures fetchManager.queryRefs == map[] && fetchManager.afterQueryQueue == map[] && fetchManager.events == []
    {
      fetchManager := new FetchObserver.FetchManager();
      cacheManager := new CacheObserver.CacheManager();
    }

    /**
      `subscribe`: invalid options throw before either registry changes;
      otherwise the listener is registered under one id in the cache
      registry (attaching it to the store if it was idle) and then in the
      fetch registry. The id is what the returned unsubscribe needs.
     */
    method Subscribe(input: ParseQuery.QueryInput, l: Listener, options: Option<Options>) returns (r: Result<Identifier, string>)
      requires Valid()
      modifies cacheManager, fetchManager
      ensures Valid()
      ensures var t := ParseQuery.GetTermsOrExpression(input);
        ParseQuery.ValidateOptions(t, options).Some? ==>
          r == Err(ParseQuery.ValidateOptions(t, options).value) &&
          unchanged(cacheManager) && unchanged(fetchManager)
      ensures var t := ParseQuery.GetTermsOrExpression(input);
        var id := ParseQuery.HashQueryIdentifier(t, options);
        ParseQuery.ValidateOptions(t, options).None? ==>
          && r == Ok(id)
          && cacheManager.subscriptions == Observable.Subscribe(old(cacheManager.subscriptions), id, l)
          && fetchManager.subscriptions == cacheManager.subscriptions
          && cacheManager.attached
          && cacheManager.notices == old(cacheManager.notices)
          && fetchManager.queryRefs == old(fetchManager.queryRefs)
          && fetchManager.afterQueryQueue == old(fetchManager.afterQueryQueue)
          && fetchManager.events == old(fetchManager.events)
    {
      var t := ParseQuery.GetTermsOrExpression(input);
      var invalid := ParseQuery.ValidateOptions(t, options);
      if invalid.Some? {
        return Err(invalid.value);
      }
      var id := ParseQuery.HashQueryIdentifier(t, options);
      var attachedNow := cacheManager.Subscribe(id, l);
      fetchManager.Subscribe(id, l);
      r := Ok(id);
    }

    /**
      The closure `subscribe` returns: unsubscribes from the cache registry,
      then from the fetch registry. Once the last listener is gone both
      registries are empty and the store handler is detached.
     */
    method Unsubscribe(id: Identifier, l: Listener)
      requires Valid()
      modifies cacheManager, fetchManager
      ensures Valid()
      ensures cacheManager.subscriptions == Observable.Unsubscribe(old(cacheManager.subscriptions), id, l)
      ensures fetchManager.subscriptions == cacheManager.subscriptions
      ensures cacheManager.attached <==> cacheManager.subscriptions != map[]
      ensures cacheManager.notices == old(cacheManager.notices) && fetchManager.events == old(fetchManager.events)
      ensures var refs, queue := old(fetchManager.queryRefs), old(fetchManager.afterQueryQueue);
        && (id in refs && id !in fetchManager.subscriptions && refs[id].isLoading ==>
              fetchManager.queryRefs == refs &&
              fetchManager.afterQueryQueue == queue[id := queue[id] + [FetchObserver.DeleteStatus(id)]])
        && (id in refs && id !in fetchManager.subscriptions && !refs[id].isLoading ==>
              fetchManager.queryRefs == refs - {id} && fetchManager.afterQueryQueue == queue)
        && (!(id in refs && id !in fetchManager.subscriptions) ==>
              fetchManager.queryRefs == refs && fetchManager.afterQueryQueue == queue)
    {
      var detachedNow := cacheManager.Unsubscribe(id, l);
      fetchManager.Unsubscribe(id, l);
    }

    /** `query`: delegates to the fetch registry; the cache registry and all listeners are untouched. */
    method Query(input: ParseQuery.QueryInput, options: Option<Options>) returns (r: Result<Data, string>)
      requires Valid()
      modifies fetchManager
      ensures Valid()
      ensures fetchManager.subscriptions == old(fetchManager.subscriptions)
      ensures var t := ParseQuery.GetTermsOrExpression(input);
        ParseQuery.ValidateOptions(t, options).Some? <==> r.Err?
      ensures var t := ParseQuery.GetTermsOrExpression(input);
        var id := ParseQuery.HashQueryIdentifier(t, options);
        r.Ok? ==>
          && id in fetchManager.queryRefs
          && r.value == Data(NoData, fetchManager.queryRefs[id])
          && fetchManager.queryRefs[id].isLoading
          && (id in old(fetchManager.queryRefs) && old(fetchManager.queryRefs)[id].isLoading ==>
                fetchManager.events == old(fetchManager.events))
          && (!(id in old(fetchManager.queryRefs) && old(fetchManager.queryRefs)[id].isLoading) ==>
                fetchManager.events == old(fetchManager.events) + [FetchObserver.Started(id)])
    {
      r := fetchManager.Query(input, options);
    }

    /** `queryCache`: the cache registry's synchronous read; nothing changes. */
    method QueryCache(input: ParseQuery.QueryInput, cache: Cache) returns (d: Data)
      ensures d == CacheObserver.Read(cache, ParseQuery.GetTermsOrExpression(input))
    {
      d := cacheManager.Query(input, cache);
    }
  }

  /**
    One listener subscribes with valid options and unsubscribes again: both
    registries end up empty and the store handler is detached.
   */
  method SubscribeThenUnsubscribe(input: ParseQuery.QueryInput, l: Listener, options: Option<Options>)
    returns (cacheEmpty: bool, fetchEmpty: bool, detached: bool)
    requires ParseQuery.ValidateOptions(ParseQuery.GetTermsOrExpression(input), options).None?
    ensures cacheEmpty && fetchEmpty && detached
  {
    var m := new QueryManager();
    var r := m.Subscribe(input, l, options);
    Observable.UnsubscribeUndoesSubscribe(map[], r.value, l);
    m.Unsubscribe(r.value, l);
    cacheEmpty := m.cacheManager.subscriptions == map[];
    fetchEmpty := m.fetchManager.subscriptions == map[];
    detached := !m.cacheManager.attached;
  }

  /** The same query made twice before it settles starts a single fetch, and both calls report loading. */
  method IdenticalQueriesShareOneFetch(input: ParseQuery.QueryInput, options: Option<Options>)
    returns (first: Result<Data, string>, second: Result<Data, string>, fetches: seq<FetchObserver.FetchEvent>)
    requires ParseQuery.ValidateOptions(ParseQuery.GetTermsOrExpression(input), options).None?
    ensures first.Ok? && second.Ok? && first.value.status.isLoading && second.value.status.isLoading
    ensures fetches == [FetchObserver.Started(ParseQuery.HashQueryIdentifier(ParseQuery.GetTermsOrExpression(input), options))]
  {
    var m := new QueryManager();
    first := m.Query(input, options);
    second := m.Query(input, options);
    fetches := m.fetchManager.events;
  }
}
