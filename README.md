# orbit-query-manager, modelled in Dafny

This project models the core of orbit-query-manager. That library is a query-result registry sitting in front of an Orbit record store. Clients subscribe listeners to queries, which are either a single expression or an object of named expressions. The library deduplicates fetches that are in flight, reads the store's cache synchronously, and works out which subscriptions a mutation batch can affect, so that only those are re-read and notified.

The model has these parts, one Dafny module each:

- `Types`: records and expressions (`findRecord`, `findRecords`, `findRelatedRecord`, `findRelatedRecords`), terms, options, identifiers, statuses and the `(data, status)` pair.
  - An identifier is the value `hashQueryIdentifier` serialises: either the bare terms-or-expression, or the `{ termsOrExpression, options }` wrapper.
  - The cache is a partial map from expression to value. A miss stands for `cache.query` throwing.
  - The remote store is a partial map from request to value. A missing answer stands for a rejected promise.
- `ChangeManagement` (`src/utils/changeManagement.ts`): `getUpdatedRecords`, which is imperative (a loop that pushes onto two lists), and the pure `shouldUpdate`, `hasChanged` and `identityIsEqual`.
- `Helpers` (`src/helpers.ts`): the null-aware `identityIsEqual` and the term-list `shouldUpdate`. A lemma shows that this `shouldUpdate` agrees with the one in `ChangeManagement`.
- `ParseQuery` (`src/utils/parseQuery.ts`):
  - `getTerms`, modelled as an insertion sort under the default string order;
  - `getTermsOrExpression`;
  - `hashQueryIdentifier`, paired with an exact decoder that stands in for `JSON.parse(JSON.stringify(x))`;
  - `validateOptions`, which returns the message it would throw.
- `Observable`: the listener map that the registries inherit from their `Observable` base class. It maps an id to its listener list, and an id disappears when its last listener leaves.
- `Merge`: the object-spread `reduce` that merges per-term results. When two terms share a key, the later one wins.
- `CacheObserver` (`src/CacheObserver/CacheManager.ts` and its older copy `src/CacheManager.ts`): the pure read `_query`, and a class holding the registry. Its `subscribe`/unsubscribe register and unregister the store handler. Its `_compare` notifies exactly the affected ids.
- `FetchObserver` (`src/FetchObserver/FetchManager.ts` and its older copy `src/FetchManager.ts`): a class holding the per-id statuses and after-query queues. A fetch is two atomic steps. `Query` starts it and `Settle` completes it against a remote answer map. The only continuation the registry ever queues is `DeleteStatus(id)`.
- `UnifiedManager` (`src/QueryManager.ts`): the older manager. It keeps reference-counted subscriptions, statuses and ongoing requests. Unsubscriptions are deferred through the after-request queue. Hook calls are logged as events.
- `QueryObservable` (`src/QueryObservable/QueryManager.ts`): the facade. It registers one listener under one id in both registries and tears both down together.

Two behaviours that a reader might expect are not in the code, so the model does not have them either:

- No module suppresses cache notifications while a fetch for the same id is loading. The facade registers the same listener in both registries, and it hears every notification of each.
- A truthy `beforeQuery` return does not cancel the read. `src/QueryManager.ts` ignores the hook's return value.

## Model

| member | source | states |
|---|---|---|
| Lists.RemoveFirst | src/QueryManager.ts:84-87 | removing a callback or listener drops exactly one occurrence, and leaves the list unchanged when it is absent |
| Lists.RemoveFirstOfAppended | src/QueryManager.ts:65-68 | removing the callback just added restores the list |
| Merge.Combine | src/CacheObserver/CacheManager.ts:64-65 | merging per-term answers succeeds iff every term has an answer |
| Merge.CombineKeys | src/CacheObserver/CacheManager.ts:64-65 | the merged object has exactly the terms' keys |
| Merge.CombineLast | src/CacheObserver/CacheManager.ts:64-65 | under object spread, the last term with a key decides that key's value |
| Merge.CombineDistinct | src/CacheObserver/CacheManager.ts:64-65 | with distinct keys, every term's answer is under its own key |
| ChangeManagement.GetUpdatedRecords | src/utils/changeManagement.ts:10-21 | the loop builds exactly the `records` and `relatedRecords` lists of the reference definition |
| ChangeManagement.PrimaryRecordsOnePerOperation | src/utils/changeManagement.ts:14-15 | `records` has one entry per operation, in order, and entry i is operation i's record |
| ChangeManagement.UpdatedRecordsAppend | src/utils/changeManagement.ts:14-17 | both lists are built in operation order: a longer batch extends each list by the extra operations' contributions, namely their own `relatedRecord`, then their `relatedRecords` |
| ChangeManagement.IdentityIsEqualIsEquality | src/utils/changeManagement.ts:57-58 | identity equality holds iff type and id both match, so it is reflexive and symmetric |
| ChangeManagement.FindRecordsFires | src/utils/changeManagement.ts:47-49 | a `findRecords(t)` expression fires iff some changed or related identity has type t |
| ChangeManagement.SingleRecordFires | src/utils/changeManagement.ts:52-54 | a single-record expression fires iff its identity is in `records` or some related identity has its type |
| ChangeManagement.RelatedTypeMatchIsCoarse | src/utils/changeManagement.ts:52-54 | a related record of the same type with a different id still fires, which is the deliberate false positive |
| ChangeManagement.TermsFire | src/utils/changeManagement.ts:29-31 | a term list fires iff some term fires, and the empty list never fires |
| ChangeManagement.OptionsNeverAffectInvalidation | src/utils/changeManagement.ts:37-40 | a `{termsOrExpression, options}` wrapper fires exactly when its inner value fires |
| ChangeManagement.HasChangedMonotone | src/utils/changeManagement.ts:43-55 | more changed or related identities can only make an expression fire, never stop it |
| ChangeManagement.AffectsMonotone | src/utils/changeManagement.ts:10-41 | adding operations to a batch can turn `shouldUpdate` from false to true, never the reverse |
| Helpers.NullIdentities | src/helpers.ts:4-5 | two nulls are equal, and a null never equals an identity |
| Helpers.PresentIdentities | src/helpers.ts:5 | two identities are equal iff type and id match, as in change management |
| Helpers.SomeOfTypeAgrees | src/helpers.ts:13-16 | the `findRecords` test of a term is the type-occurrence test |
| Helpers.SomeIdenticalAgrees | src/helpers.ts:18-20 | the exact-identity test of a term is membership of the identity in `records` |
| Helpers.TermFiresAgrees | src/helpers.ts:12-21 | a term fires here iff `hasChanged` holds for its expression |
| Helpers.ShouldUpdateAgrees | src/helpers.ts:7-22 | on every term list this `shouldUpdate` agrees with the one in change management, including false on the empty list |
| ParseQuery.BelowIrreflexive | src/utils/parseQuery.ts:14 | the sort order is irreflexive |
| ParseQuery.BelowTransitive | src/utils/parseQuery.ts:14 | the sort order is transitive |
| ParseQuery.BelowTotal | src/utils/parseQuery.ts:14 | the sort order is total on distinct strings |
| ParseQuery.Insert | src/utils/parseQuery.ts:14 | inserting a key adds exactly that key |
| ParseQuery.SortKeys | src/utils/parseQuery.ts:14 | sorting permutes the keys |
| ParseQuery.InsertAscending | src/utils/parseQuery.ts:14 | inserting a new key keeps a strictly ascending list ascending |
| ParseQuery.SortKeysAscending | src/utils/parseQuery.ts:14 | sorting distinct keys gives a strictly ascending list |
| ParseQuery.AscendingUnique | src/utils/parseQuery.ts:14 | two strictly ascending lists with the same elements are equal |
| ParseQuery.SortedKeysAreKeys | src/utils/parseQuery.ts:14 | the sorted keys are exactly the object's keys, once each, ascending |
| ParseQuery.GetTerms | src/utils/parseQuery.ts:11-17 | one term per key, and each term's expression is what that key's builder produced |
| ParseQuery.GetTermsSorted | src/utils/parseQuery.ts:14-16 | the term keys are strictly ascending and are exactly the object's keys |
| ParseQuery.GetTermsOrderIndependent | src/utils/parseQuery.ts:14 | the terms depend only on the object's contents, not on its insertion order |
| ParseQuery.HashQueryIdentifier | src/utils/parseQuery.ts:25-29 | the identifier carries the terms-or-expression, and also carries the options exactly when options are given |
| ParseQuery.DecodeIdentifier | src/utils/parseQuery.ts:25-29 | every identifier is the encoding of what it decodes to |
| ParseQuery.DecodeInvertsHash | src/utils/parseQuery.ts:25-29 | decoding an identifier gives back the terms-or-expression and the options |
| ParseQuery.OptionsMakeDistinctIdentifiers | src/utils/parseQuery.ts:26-28 | the same query with and without options has different identifiers |
| ParseQuery.SameContentsSameIdentifier | src/utils/parseQuery.ts:19-29 | two builder objects with the same contents share one identifier |
| ParseQuery.ValidateOptions | src/utils/parseQuery.ts:31-41 | absent options never throw; a term list with non-array options throws the multi-query message; a bare expression with array options throws "Options are invalid."; matching shapes pass |
| Observable.Subscribe | src/FetchObserver/FetchManager.ts:36 | the listener is appended under its id, and every other id is unchanged |
| Observable.Unsubscribe | src/FetchObserver/FetchManager.ts:39-41 | one occurrence of the listener is removed; the id disappears iff its list becomes empty; every other id is unchanged |
| Observable.UnsubscribeUndoesSubscribe | src/QueryObservable/QueryManager.ts:27-33 | unsubscribing a new listener restores the registry |
| Observable.LastListenerRemovesId | src/FetchObserver/FetchManager.ts:41 | removing the only listener removes the id |
| CacheObserver.Read | src/CacheObserver/CacheManager.ts:56-72 | a bare expression gives its value on a hit and (null, isError) on a miss; a term list gives the full key-to-value object iff it is non-empty and every term hits, and (null, isError) otherwise, never a partial object; isLoading is always false |
| CacheObserver.ReadDecodedAsWritten | src/CacheObserver/CacheManager.ts:78-81 | as written, the re-read of any id that carries options is (null, isError) |
| CacheObserver.ReadIdentifier | src/CacheObserver/CacheManager.ts:78-82 | the intended re-read: the read of the identifier's decoded terms-or-expression |
| CacheObserver.WrappedReadLosesHit | src/CacheObserver/CacheManager.ts:78-81 | for an id with options on a cached expression, the code as written reports an error where the intended read returns the value |
| CacheObserver.CacheManager.constructor | src/CacheObserver/CacheManager.ts:14-17 | starts with no subscriptions, detached and without notices |
| CacheObserver.CacheManager.HasNoSubscribers | src/CacheObserver/CacheManager.ts:38-40 | true iff the subscription map is empty |
| CacheObserver.CacheManager.Subscribe | src/CacheObserver/CacheManager.ts:19-26 | registers the store handler iff the map was empty before, then adds the listener; afterwards the handler is registered |
| CacheObserver.CacheManager.Unsubscribe | src/CacheObserver/CacheManager.ts:28-35 | removes the listener, then unregisters the handler iff no subscriptions remain; the invariant that the handler is attached iff the map is non-empty is kept |
| CacheObserver.CacheManager.Query | src/CacheObserver/CacheManager.ts:50-54 | the result is the read of the normalised query, and no state changes |
| CacheObserver.CacheManager.Compare | src/CacheObserver/CacheManager.ts:74-85 | the new notices are one per affected subscribed id and none for other ids; each carries the corrected re-read `ReadIdentifier` of the decoded id, not the as-written `JSON.parse(id)` read; subscriptions and attachment are unchanged |
| FetchObserver.OptionsFor | src/FetchObserver/FetchManager.ts:119 | a term gets the options of the first entry whose `queryKey` is its key, or `{}` when none matches |
| FetchObserver.MakeQuery | src/FetchObserver/FetchManager.ts:101-128 | a bare expression resolves iff its request is answered; a term list resolves iff it is non-empty and every term's request, with that term's options, is answered; the result is the merged key-to-record object, and any failing term fails the whole fetch |
| FetchObserver.RunDeletionsRemoves | src/FetchObserver/FetchManager.ts:96-99 | running the queued continuations in order removes exactly the statuses they name |
| FetchObserver.UnsubscribeAsWritten | src/FetchObserver/FetchManager.ts:38-44 | as written, the closure throws iff a status exists, no listener remains and the id has no queue; otherwise it queues the deletion when the last listener leaves |
| FetchObserver.SettledThenUnsubscribe | src/FetchObserver/FetchManager.ts:41-42 | subscribe, query, settle, unsubscribe: the code as written throws, whereas the corrected closure releases the status |
| FetchObserver.FetchManager.constructor | src/FetchObserver/FetchManager.ts:26-33 | starts with no subscriptions, statuses, queues or events |
| FetchObserver.FetchManager.Subscribe | src/FetchObserver/FetchManager.ts:35-36 | registers the listener and changes nothing else |
| FetchObserver.FetchManager.Unsubscribe | src/FetchObserver/FetchManager.ts:38-44 | removes the listener; when the last one leaves and a status exists, it queues the status deletion while a fetch is in flight and deletes at once otherwise; it agrees with the code wherever the code does not throw |
| FetchObserver.FetchManager.Query | src/FetchObserver/FetchManager.ts:47-68 | invalid options return the message and change nothing; a new id gets `{isLoading: false, isError: false}`; an id that is not loading is marked loading, given an empty queue, and starts exactly one fetch; a loading id starts nothing and keeps its queue; the result is (null, current status) |
| FetchObserver.FetchManager.Settle | src/FetchObserver/FetchManager.ts:70-90 | the status becomes `{isError, isLoading: false}`; listeners are notified once with (data, status), with null data on failure; the queue runs and is deleted, and a queued deletion removes the status |
| FetchObserver.FetchManager.RunAfterQueryQueue | src/FetchObserver/FetchManager.ts:96-99 | runs every queued continuation once, in order, then deletes the queue |
| UnifiedManager.RemovedUndoesAdded | src/QueryManager.ts:81-87 | `_unsubscribe` with the callbacks just subscribed restores the subscription |
| UnifiedManager.CacheRecords | src/QueryManager.ts:161-164 | the read gives the full key-to-value object iff every term hits (so `{}` for no terms), and the value of each key is the cached value of its last term |
| UnifiedManager.CacheRecordsMatchesRead | src/QueryManager.ts:161-171 | this read agrees with the cache registry's `_query` on every non-empty term list; on the empty list it gives `{}` where `_query` reports an error |
| UnifiedManager.RemoteRecords | src/QueryManager.ts:119-134 | the request batch resolves iff every term's request is answered, to an object keyed by the term keys in which each key holds the answer to the last term with that key; these are the records the `onQuery` hooks receive |
| UnifiedManager.CountDeferredAppend | src/QueryManager.ts:74-79 | appending to an after-request queue adds the deferred unsubscriptions it holds |
| UnifiedManager.Unsubscribed | src/QueryManager.ts:81-95 | one subscriber fewer and its callbacks removed; at zero, the subscription and its status are deleted; nothing else changes |
| UnifiedManager.RunQueue | src/QueryManager.ts:150-151 | running the queue calls its listeners once each, in order |
| UnifiedManager.RunQueueTeardown | src/QueryManager.ts:150-154 | running the queue removes one subscriber per deferred unsubscription, and tears down the subscription and status exactly when that uses up every subscriber; other refs are unchanged |
| UnifiedManager.RunQueueIdle | src/QueryManager.ts:150-151 | a queue without deferred unsubscriptions only calls listeners |
| UnifiedManager.ConsistentOngoing | src/QueryManager.ts:97-128 | registering an ongoing query and marking its status loading keeps the manager's invariant |
| UnifiedManager.ConsistentAfterSettle | src/QueryManager.ts:128-154 | settling, running the queue and dropping the ongoing query keeps the invariant |
| UnifiedManager.ConsistentAfterRelease | src/QueryManager.ts:150-154 | dropping the ongoing query keeps the invariant when its ref is gone, or settled and not loading |
| UnifiedManager.ConsistentUpdate | src/QueryManager.ts:43-68 | replacing one subscription and its status keeps the invariant when the pair fits it |
| UnifiedManager.QueryManager.constructor | src/QueryManager.ts:24-31 | starts with empty maps and logs |
| UnifiedManager.QueryManager.Subscribe | src/QueryManager.ts:39-71 | the ref is the sorted term list; the count goes up by one and the callbacks are added; a new ref first gets a status `{error: null, loading: false}` whose records come from a cache read |
| UnifiedManager.QueryManager.SubscribeRef | src/QueryManager.ts:43-68 | the registration under a ref, with the same effects as `subscribe` |
| UnifiedManager.QueryManager.InitSubscription | src/QueryManager.ts:43-61 | a new ref gets an empty subscription with count 0 and a fresh status holding the cache read; no hook runs |
| UnifiedManager.QueryManager.Unsubscribe | src/QueryManager.ts:73-79 | while a request is ongoing, only the after-request queue changes, gaining one deferred `_unsubscribe`; otherwise the unsubscription happens at once |
| UnifiedManager.QueryManager.DoUnsubscribe | src/QueryManager.ts:81-95 | the registry after `_unsubscribe` |
| UnifiedManager.QueryManager.Query | src/QueryManager.ts:97-114 | creates the ongoing entry and starts a request only if none exists, marking the status loading; otherwise it only appends callbacks |
| UnifiedManager.QueryManager.Start | src/QueryManager.ts:116-130 | records the request, sets `loading`, and calls the query's `beforeQuery` hooks |
| UnifiedManager.QueryManager.Settle | src/QueryManager.ts:116-148 | loading ends; failure sets `error`; success neither clears `error` nor touches `records`; the queue runs, and the subscription survives iff it had more subscribers than deferred unsubscriptions |
| UnifiedManager.QueryManager.SettleRequest | src/QueryManager.ts:132-143 | the hooks of the outcome are called and the status is updated |
| UnifiedManager.QueryManager.OnRequestFinish | src/QueryManager.ts:150-154 | each after-request entry runs once, in order, then the ongoing entry is deleted |
| UnifiedManager.QueryManager.QueryCache | src/QueryManager.ts:156-174 | `records` becomes the full key-to-value object if every term hits and null if any misses, with the matching hooks called |
| UnifiedManager.QueryManager.Compare | src/QueryManager.ts:176-184 | when `shouldUpdate` holds, re-reads the cache and calls each listener once; otherwise nothing changes |
| QueryObservable.QueryManager.constructor | src/QueryObservable/QueryManager.ts:14-17 | two fresh, empty registries |
| QueryObservable.QueryManager.Subscribe | src/QueryObservable/QueryManager.ts:19-28 | invalid options throw before either registry changes; otherwise one id is computed and the listener is registered under it in both registries |
| QueryObservable.QueryManager.Unsubscribe | src/QueryObservable/QueryManager.ts:30-33 | tears down both registrations, so once the last listener leaves both are empty and the store handler is detached. The fetch half is the corrected closure, which does not throw after a settle. When the last listener of an id with a status leaves, that status's deletion is queued while its fetch is loading and done at once otherwise. In every other case statuses and queues are unchanged |
| QueryObservable.QueryManager.Query | src/QueryObservable/QueryManager.ts:36-38 | delegates to the fetch registry, so a query on a loading id starts no second fetch |
| QueryObservable.QueryManager.QueryCache | src/QueryObservable/QueryManager.ts:40-42 | the cache read, with no registry change |
| QueryObservable.SubscribeThenUnsubscribe | src/QueryObservable/QueryManager.ts:19-33 | after one subscribe and its unsubscribe, both registries are empty and the handler is detached |
| QueryObservable.IdenticalQueriesShareOneFetch | src/QueryObservable/QueryManager.ts:36-38 | the same query made twice starts exactly one fetch, and both calls report loading |

The older copies `src/CacheManager.ts` and `src/FetchManager.ts` behave the same as the newer files, so the same members model them:

- `src/CacheManager.ts`:
  - lines 16-23, 25-32 and 35-39 are `CacheObserver.CacheManager.Subscribe`, `Unsubscribe` and `Query`;
  - lines 41-57 are `CacheObserver.Read`;
  - lines 59-70 are `CacheObserver.CacheManager.Compare`.
- `src/FetchManager.ts`:
  - lines 18-27 are `FetchObserver.FetchManager.Subscribe` and `Unsubscribe`;
  - lines 29-49 and 52-71 are `Query` and `Settle`;
  - line 85 is `FetchObserver.OptionsFor`;
  - lines 81-94 are `FetchObserver.MakeQuery`.

## Left out

- The Orbit store, `cache.query`, `QueryBuilder` and the schema are foreign code. The cache is an abstract partial map, the remote store is an abstract answer map, and builders come already applied: an object of builders is a list of key and expression entries with distinct keys.
- Promises and `async` timing. A fetch is a start step and a settle step. All of a term list's requests settle together.
- The JSON text of identifiers and refs. An `Identifier` value stands for the string, and decoding it gives back the value it was built from.
- Key order of option objects: `Settings` is a map, so two option objects that differ only in key order share one identifier in the model. In the source, `JSON.stringify` follows insertion order, so they give two ids, with two statuses, two fetches and two listener lists.
- Listener and hook bodies. Their calls are logged as events. The `extensions` bag passed to hooks is left out. Listeners are assumed not to call back into a registry while it is notifying them.
- The `Observable` base class and `Subscription` class are not part of this model. Only the map behaviour the registries rely on is modelled.
- `addEventCallback` and `removeEventCallback` are not part of this model. They are taken to append a callback that was given, and to remove the first occurrence of a callback that was given.
- The `../helpers` module that `src/CacheObserver/CacheManager.ts` and `src/CacheManager.ts` import is not part of this model. `src/helpers.ts` does not export `getUpdatedRecords` or `getTermsOrExpression`, so those registries use `ChangeManagement.ShouldUpdate`, which handles bare expressions and the options wrapper.
- Store `on`/`off` in `src/QueryManager.ts`. Each call binds a fresh handler, so `off` never removes one. Handlers outliving their subscription would crash on the next transform.
- Errors are booleans, or the message string that would be thrown. `FetchObserver.UndefinedPush` is only a token for the TypeError.
- `ParseQuery.Below` orders strings by Dafny characters. JavaScript's default sort compares UTF-16 code units, and the two differ for characters outside the Basic Multilingual Plane.
- FetchObserver.FetchManager.Query: the returned status is a copy. In the source it is the live status object, which later mutation and replacement can change under the caller.
- FetchObserver.FetchManager.Settle: requires a fetch in flight for the id. The source settles only fetches it started.
- FetchObserver.MakeQuery: requires options that pass `validateOptions`. The source calls it only after validation.
- UnifiedManager.QueryManager.Unsubscribe: requires a subscribed ref, and while a request is ongoing, more subscribers than deferred unsubscriptions. In the source, unsubscribing more often than subscribing throws on a missing subscription.
- UnifiedManager.QueryManager.Query: requires a subscribed ref. On an unknown ref the source's `_query` rejects and leaves the ongoing entry behind for good.
- UnifiedManager.QueryManager.Compare: requires a subscribed ref. This is the handler-outliving-its-subscription crash described above.

## Findings

| source | as written | input that shows it | evidently intended | confidence | as-written member | corrected member |
|---|---|---|---|---|---|---|
| src/CacheObserver/CacheManager.ts:78-81 | `_compare` passes `JSON.parse(id)` to `_query`. For an id with options that is the `{termsOrExpression, options}` wrapper, which is no expression, so the cache read fails. The older `src/CacheManager.ts:63-66` does the same. | A subscription to `findRecord(r)` with options `{}`, and a batch that changes r while r is cached: the listener receives (null, isError) instead of the record (`CacheObserver.WrappedReadLosesHit`) | re-read the identifier's own terms-or-expression, as `shouldUpdate` already does for the wrapper | not executed | CacheObserver.ReadDecodedAsWritten | CacheObserver.ReadIdentifier |
| src/FetchObserver/FetchManager.ts:41-42 | The unsubscribe closure pushes onto `_afterQueryQueue[id]` whenever a status exists and no listener remains, but `_runAfterQueryQueue` deleted that queue when the fetch settled (line 98). The older `src/FetchManager.ts:23-24` does the same. | subscribe, query, let the fetch settle, then unsubscribe: `undefined.push` throws and the status is never released (`FetchObserver.SettledThenUnsubscribe`) | with no fetch in flight, delete the status at once | not executed | FetchObserver.UnsubscribeAsWritten | FetchObserver.FetchManager.Unsubscribe |
