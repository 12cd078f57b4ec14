# react-query-lite cache engine, modelled in Dafny

This project models the in-memory query cache of react-query-lite and proves
properties of the model. It covers:

- `Query`: a per-key fetch state machine with states `INITAL`, `PENDING`,
  `FULLFILLED` and `FAILED` (spelled as in the code). It holds data, error, a
  fetch time and a list of listener callbacks.
- `QueryClient`: the registry. It owns a persisted cache map (key to
  `{ data, fetchTime, options }`) and the list of live queries. It decides
  staleness with `shouldFetchQuery`.
- `QueryObserver`: binds one consumer to one query at a time. It derives a
  result record, carries the previous key's data across a key change, and
  calls its listeners only when the record changed.
- `NotifyManager`: a batching scheduler with a callback queue and a nesting
  counter of open transactions.
- `shallowEqualObjects`: the comparison in `src/core/utils.js`, which does
  not look inside nested objects.
- The reducer of `useMutation`, and the actions `mutateAsync` dispatches.

Modules, one per file:

| file | module | models |
|---|---|---|
| `values.dfy` | `JsValues` | JavaScript values: truthiness, `typeof 'object'`, `===`, property reads, `Array.prototype.filter` |
| `utils.dfy` | `Utils` | `src/core/utils.js` |
| `policy.dfy` | `QueryPolicy` | the pure parts of `Query.js` and `QueryClient.js`: states, option layering, staleness, fetch times |
| `engine.dfy` | `Engine` | the `Query` and `QueryClient` classes |
| `observer.dfy` | `Observers` | `src/core/QueryObserver.js` |
| `notify_manager.dfy` | `Notify` | `src/core/notifyManager.js` |
| `mutation.dfy` | `Mutation` | the reducer and `mutateAsync` of `src/react/use-mutation.js` |

Modelling choices:

- **JavaScript values.** User data and errors are `JsValue`s. Dafny `==`
  stands for `===`: primitives compare by value, objects and functions by
  reference. `Truthy` is JavaScript truthiness, because the code branches on
  it throughout.
- **Time.** Every reading of the clock (`now()` and `new Date().getTime()`)
  is an explicit `now: nat` parameter.
- **`cacheTime`.** It is `Finite(ms) | Infinite`.
- **`Query.run`.** Its only `await` splits it into two atomic steps:
  `RunStart` and `RunComplete(outcome, now, throwing)`. The listener fan-out
  at the end returns the ordered sequence of callbacks called, each with the
  query. `throwing` is the set of callbacks that throw when called: the
  first of them ends the `forEach` (`Engine.FanOut`). What a callback does
  is a separate member, run by whoever delivers the call:
  `QueryObserver.Notify`, or `Engine.PrefetchListener`.
- **Classes and frames.** `Query`, `QueryClient`, `QueryObserver` and
  `NotifyManager` are classes whose fields the methods update in place.
  - `QueryClient.Valid()` is the registry invariant: keys are distinct, and
    every live query is bound to this client, not destroyed, and has at least
    one listener.
  - Every method that changes the registry (`GetOrCreateQuery`,
    `OnDestroyQuery`, `Clear`, `SetQueryData`, `PrefetchQuery`, and
    `Destroy`, `Unsubscribe`, `RunStart` and `RunComplete` of a query) keeps
    `Valid()` when it held before.
  - Four shared predicates in `Engine` state the outcome of find-or-create
    once, for `GetOrCreateQuery`, `PrefetchQuery`, `QueryObserver.Rebind` and
    `QueryObserver.GetOptimisticResult`. `ReusedQuery` covers a live query
    that is reused. `SeededQuery` and `SeedFetches` cover a new query seeded
    from the cache. `UnsubscribedFrom` covers the query an observer leaves.
- **Runtime TypeErrors.** Some paths of the code read a property of `null`
  and throw. These are modelled as outcomes, not excluded by preconditions:
  - `RunStart` on a destroyed query reports `started == false`.
  - `RunComplete` with a fulfilled outcome after the query was destroyed
    records a `TypeError` as the query's error and sets it `FAILED`: the
    `catch` in `run` catches the failed write to `client.cache`. With a
    rejected outcome it records the fetch's own error, as on a live query.
  - `QueryObserver.Notify` on a destroyed observer, and
    `QueryObserver.Subscribe` before a query is bound, report `ok == false`:
    `createResult` reads a property of `null`. `Notify` has changed
    nothing then; `Subscribe` has appended the callback.
  - `Destroy` and `Unsubscribe` on a destroyed query report `ok == false`.
  - `SetQueryData` reports `ok == false` when a live query holds other data,
    because `Query` has no `setData` method. Nothing changes in that case.
- **Microtasks.** `scheduleMicrotask` appends a `Task` to an abstract
  `pending` list. `NotifyManager.ExecuteTask` is what a task does when the
  event loop runs it, using the hooks installed at that moment.
- **Batch callbacks.** A callback passed to `batch` is given as a script of
  the manager calls it makes (`Op`), plus the value it returns.
- **Promises.** The promise of `prefetchQuery` is a `PromiseState`. Only the
  first `resolve` or `reject` settles it.

The model follows what the code does, including where it departs from what a reader might expect:

- `refetch` calls `run()`, not `run(true)`. Listeners are not notified when
  a run starts.
- Success writes `{ fetchTime, data }` to the cache, with no options. Data
  is always overwritten, with no equality check.
- `setQueryData` on a live query with other data throws, since there is no
  `setData`.
- The result record has no `status` field.
- `destroy` cancels nothing.
- `QueryObserver.destroy` does not unsubscribe `notify` from its query
  (see "## Findings").
- `prefetchQuery` gives the query it creates the call's options, but a
  success writes the cache entry without them. Once the prefetch's query is
  destroyed, a later query for the key is created with the client's options
  again: with the default client, the prefetched `cacheTime` is forgotten and
  `cacheTime` is `Infinity`.
- The closure returned by `Query.subscribe` calls `unsubscribe()` with no
  argument. It therefore filters out `undefined` rather than its own
  callback. `Engine.Query.UnsubscribeClosure` models this literally, and
  `Engine.ClosureKeepsCallbacks` shows that it removes nothing from a list
  of functions.

## Model

| member | source | states |
|---|---|---|
| `JsValues.Without` | src/core/Query.js:67 | the filter drops every occurrence of the value and keeps each other element |
| `JsValues.WithoutAppend` | src/core/Query.js:67 | filtering distributes over concatenation, so the order of the kept elements is preserved |
| `JsValues.WithoutCount` | src/core/QueryClient.js:58 | every other element keeps its number of occurrences |
| `JsValues.WithoutAbsent` | src/core/Query.js:67 | filtering changes the list exactly when the value occurs in it |
| `JsValues.Get` | src/core/utils.js:9 | a property read yields the value of a property with that name, or `undefined` when there is none |
| `Utils.ScanKeys` | src/core/utils.js:7-14 | the key loop returns true exactly when no visited key has a mismatching pair of values |
| `Utils.ShallowEqualObjects` | src/core/utils.js:4-6 | false when exactly one argument is falsy; true when both are falsy |
| `Utils.Mismatch` | src/core/utils.js:9-11 | the key test fails on two values exactly when they differ and are not both of type 'object': equal values and two object-typed values pass, a differing value that is not object-typed fails |
| `Utils.FalseIffMismatch` | src/core/utils.js:7-14 | between two objects the result is false exactly when some key of `a` holds values that differ and are not both of type 'object' |
| `Utils.NestedObjectsTolerated` | src/core/utils.js:8-11 | two different object-typed values under one key do not make it false |
| `Utils.PrimitiveDifferenceDetected` | src/core/utils.js:8-12 | a differing value that is not object-typed makes it false |
| `Utils.Reflexive` | src/core/utils.js:3-16 | every argument equals itself |
| `Utils.OnlyKeysOfFirstMatter` | src/core/utils.js:7 | two second arguments that agree on the keys of `a` give the same answer, whatever other keys they hold |
| `Utils.EmptyFirstEqualsAnything` | src/core/utils.js:7-15 | an object with no keys equals every object |
| `QueryPolicy.Spread` | src/core/QueryClient.js:28 | each key of the spread comes from the layer when the layer sets it, and otherwise from the base |
| `QueryPolicy.LastLayerWins` | src/core/QueryClient.js:47 | in a chain of spreads each key comes from the last layer that sets it, and from the base when none does |
| `QueryPolicy.ClientOptions` | src/core/QueryClient.js:4-7 | a client's options are the defaults `{ keepPreviousData: false, cacheTime: Infinity }` overlaid with its `defaultOptions` |
| `QueryPolicy.QueryOptions` | src/core/QueryClient.js:47 | `{ ...client, ...cacheOptions, ...options }`: each key comes from the call options when they set it, else from the cache entry options, else from the client options |
| `QueryPolicy.QueryOptionsPrecedence` | src/core/QueryClient.js:40-47 | a new query's options are the layers defaults < client defaultOptions < cache entry options < call options, later ones winning |
| `QueryPolicy.ShouldFetch` | src/core/QueryClient.js:9-23 | `PENDING` never fetches; `INITAL` and `FAILED` always do; `FULLFILLED` fetches exactly when the fetch time is truthy, the cache time finite and `now >= fetchTime + cacheTime` |
| `QueryPolicy.ShouldFetchCases` | src/core/QueryClient.js:9-23 | `PENDING` never fetches; `INITAL` and `FAILED` always do; `FULLFILLED` fetches only with a truthy fetch time and a finite cache time, and then exactly when `now >= fetchTime + cacheTime` |
| `QueryPolicy.StalenessBoundary` | src/core/QueryClient.js:15-18 | a query is still fresh one millisecond before `fetchTime + cacheTime` and stale exactly at it |
| `QueryPolicy.SeedState` | src/core/Query.js:21 | a query starts `FULLFILLED` exactly when its seed data is truthy, and `INITAL` otherwise |
| `QueryPolicy.SeedFetchTime` | src/core/Query.js:25 | with truthy seed data the fetch time is the seed fetch time when truthy, else `now`; without, it is `null` |
| `QueryPolicy.NextFetchTime` | src/core/Query.js:46-47 | the fetch time after a success is at least `now`, at least 1, and strictly greater than the previous one |
| `QueryPolicy.CompletionTimesIncrease` | src/core/Query.js:46-47 | over any series of successes, at any clock readings, the recorded fetch times strictly increase |
| `Engine.FindByKey` | src/core/QueryClient.js:32 | the lookup is empty exactly when no live query has the key, and otherwise is the first query with the key |
| `Engine.WithoutKeepsDistinctKeys` | src/core/QueryClient.js:57-59 | removing a query keeps the keys of the registry distinct |
| `Engine.FindByKeyWithout` | src/core/QueryClient.js:32 | removing a query with another key does not change what a lookup finds |
| `Engine.AppendNewKeyKeepsDistinct` | src/core/QueryClient.js:42-51 | registering a query under an absent key keeps the keys distinct |
| `Engine.CachedData` | src/core/QueryClient.js:45 | seed data read from the cache is never `undefined`, and is `null` when the key has no entry |
| `Engine.CachedFetchTime` | src/core/QueryClient.js:46 | the seed fetch time is the entry's fetch time, and none when the key has no entry |
| `Engine.CachedOptions` | src/core/QueryClient.js:40-41 | the cache options are the entry's options when it has some, and `{}` when the key has no entry or the entry has no options |
| `Engine.CacheWithData` | src/core/QueryClient.js:72-76 | writing data through `setQueryData` replaces only that entry's data, keeping its fetch time and options, or creates `{ data }`; since entries are values, the entries under other keys are untouched |
| `Engine.Query.constructor` | src/core/Query.js:11-29 | a new query has no listeners and a null error; with truthy seed data it is `FULLFILLED` with the seed or `now` as fetch time, else `INITAL` with a null fetch time |
| `Engine.Query.RunStart` | src/core/Query.js:38-42 | the state becomes `PENDING`, the error null, and the data null unless `keepPreviousData` is set; on a destroyed query the run stops there |
| `Engine.FanOut` | src/core/Query.js:56-58 | with no throwing listener every listener is called once, in order; otherwise the calls stop after the first listener that throws |
| `Engine.ThrowingListenerStopsFanOut` | src/core/Query.js:56-58 | when listener `i` is the first that throws, exactly `i + 1` calls are made and no listener after it that did not already come earlier is called |
| `Engine.Query.CallListeners` | src/core/Query.js:56-58 | the loop over the listeners makes exactly the calls `FanOut` gives |
| `Engine.Query.RunComplete` | src/core/Query.js:43-58 | success stores the data, the state `FULLFILLED`, the next fetch time and exactly `{ fetchTime, data }` in the cache entry; on a destroyed query the failed cache write makes it `FAILED` with a `TypeError`; failure stores the error and `FAILED`, keeping data, fetch time and cache; the listeners are called as `FanOut` says |
| `Engine.Query.Subscribe` | src/core/Query.js:60-61 | the callback is appended at the end |
| `Engine.Query.Destroy` | src/core/Query.js:30-36 | listeners emptied, exactly this query removed from the client's registry, client, fetch function and options released; the registry stays valid |
| `Engine.Query.Unsubscribe` | src/core/Query.js:66-71 | every occurrence of the callback removed, the others kept; the query destroys itself when none is left |
| `Engine.Query.UnsubscribeClosure` | src/core/Query.js:62-64 | the closure unsubscribes `undefined`: only `undefined` entries leave the list, so a list of callbacks is left as it was, with client, fetch function, options and registry unchanged; a list that is left empty destroys the query and deregisters it; the registry stays valid |
| `Engine.ClosureKeepsCallbacks` | src/core/Query.js:62-64 | a list of function callbacks comes back unchanged from the closure's filter |
| `Engine.Settle` | src/core/QueryClient.js:80 | only the first `resolve` or `reject` settles a promise |
| `Engine.PrefetchSettle` | src/core/QueryClient.js:83-88 | a settled promise stays as it is; an unsettled one rejects with a truthy error, otherwise resolves with truthy data, otherwise stays pending |
| `Engine.PrefetchSettleOutcome` | src/core/QueryClient.js:83-88 | on the first notification the prefetch promise rejects with a truthy error, otherwise resolves with truthy data, otherwise stays pending |
| `Engine.PrefetchListener` | src/core/QueryClient.js:81-89 | the private listener unsubscribes itself (deregistering the query when it was the last listener; otherwise nothing but the list changes), then settles the promise from the query's error and data; when the unsubscribe throws on a destroyed query the promise is not settled |
| `Engine.QueryClient.constructor` | src/core/QueryClient.js:26-30 | a client starts with the given cache or `{}`, the layered options and no live queries |
| `Engine.QueryClient.GetOrCreateQuery` | src/core/QueryClient.js:31-56 | a live query for the key is reused with the callback appended and nothing registered; otherwise a new query seeded from the cache, with layered options, is subscribed and registered; either runs exactly when `shouldFetchQuery` holds; keys stay distinct |
| `Engine.QueryClient.OnDestroyQuery` | src/core/QueryClient.js:57-59 | exactly that query leaves the registry, the rest in order |
| `Engine.QueryClient.GetCache` | src/core/QueryClient.js:60-62 | the cache map is returned, as a value |
| `Engine.QueryClient.Clear` | src/core/QueryClient.js:63-66 | cache and registry are empty afterwards |
| `Engine.QueryClient.SetQueryData` | src/core/QueryClient.js:67-78 | with no live query, or one holding the same data, only the cache entry's data is written; otherwise the call fails and nothing changes |
| `Engine.QueryClient.PrefetchQuery` | src/core/QueryClient.js:79-96 | find-or-create as `GetOrCreateQuery` (same query, seeding, options and fetch decision); the promise resolves at once with truthy data, the private listener leaving again, so a new query is deregistered and a live one keeps its old listeners; otherwise it is pending with the listener last and the new query registered |
| `Engine.PrefetchFromCacheResolvesAtOnce` | src/core/QueryClient.js:91-93 | with truthy cached data, no live query for the key and an infinite layered cache time, the promise resolves with the cached data, nothing is fetched and the registry is left as it was (the query made for the call is deregistered again) |
| `Engine.CacheHitWithInfiniteCacheTimeDoesNotFetch` | src/core/QueryClient.js:42-53 | a new query seeded with truthy cached data and an infinite cache time is not fetched |
| `Engine.CacheMissFetches` | src/core/QueryClient.js:42-53 | a new query without truthy cached data is always fetched |
| `Engine.SeedFetches` | src/core/QueryClient.js:42-53 | a query created without truthy cached data always runs; one seeded with truthy cached data under an infinite layered cache time never does |
| `Observers.StrictScan` | src/core/QueryObserver.js:8-12 | the key loop returns true exactly when every visited key holds strictly equal values |
| `Observers.ShallowEqualStrict` | src/core/QueryObserver.js:3-15 | false when exactly one argument is falsy; otherwise true exactly when every key of `a` has a strictly equal value in `b` |
| `Observers.StrictOnlyKeysOfFirstMatter` | src/core/QueryObserver.js:8 | keys only in `b` do not affect the result |
| `Observers.ChangeIffDifferent` | src/core/QueryObserver.js:63-68 | on result records the comparison reports a change exactly when the new record differs from the stored one, and always when none is stored |
| `Observers.ResultPropsGet` | src/core/QueryObserver.js:35-41 | each field of a result record is read back under its own key |
| `Observers.TimeValue` | src/core/QueryObserver.js:40 | an unset fetch time is `null`, a set one its number |
| `Observers.DeriveResult` | src/core/QueryObserver.js:33-62 | truthy data gives that data, no error, not loading; otherwise a truthy error in `FAILED` gives that error, null data, not loading; anything else is loading with the previous data or null |
| `Observers.PrevDataAfter` | src/core/QueryObserver.js:42-45 | the previous data is cleared once the query has truthy data, and kept otherwise |
| `Observers.DeriveIgnoresClearedPrevData` | src/core/QueryObserver.js:42-50 | deriving again after the previous data was cleared gives the same record |
| `Observers.PreviousDataShownWhileLoading` | src/core/QueryObserver.js:57-61 | a loading query shows the previous key's truthy data while loading |
| `Observers.QueryObserver.constructor` | src/core/QueryObserver.js:18-23 | a new observer has its client, no listeners, no query and null previous data |
| `Observers.QueryObserver.Destroy` | src/core/QueryObserver.js:24-29 | client, query and previous data nulled and listeners emptied; the query is not touched |
| `Observers.QueryObserver.Refetch` | src/core/QueryObserver.js:30-32 | the bound query's run starts whatever its staleness; on a destroyed query the run stops at once and data and error are left as they were; the observer keeps its client, whose registry stays valid |
| `Observers.QueryObserver.CreateResult` | src/core/QueryObserver.js:33-62 | the record derived from the query and the previous data, which is cleared when the query has truthy data |
| `Observers.QueryObserver.QueryHasChange` | src/core/QueryObserver.js:63-68 | true exactly when the fresh record differs from the stored one |
| `Observers.QueryObserver.UpdateResult` | src/core/QueryObserver.js:93-97 | the fresh record is stored and returned |
| `Observers.QueryObserver.Notify` | src/core/QueryObserver.js:69-77 | on a destroyed observer it fails before changing anything; no listener is called when the record is unchanged; otherwise the record is stored first and every listener is called once, in order, with the query's `(error, data)` |
| `Observers.QueryObserver.Leave` | src/core/QueryObserver.js:80-83 | the old query's data becomes the previous data and `notify` leaves it; the query keeps its state, data, error and fetch time, and keeps client, fetch function and options while other listeners remain, otherwise it is destroyed and exactly it leaves the registry; the lookup of the new key is unchanged |
| `Observers.QueryObserver.Rebind` | src/core/QueryObserver.js:80-89 | as `Leave` for the old query (its fields kept, or destroyed when `notify` was its last listener); then find-or-create on the registry that is left, as in `GetOrCreateQuery`: a found query is reused with `notify` appended and its run state given by `shouldFetchQuery`, otherwise a fresh query is seeded from the cache with the layered options and registered |
| `Observers.QueryObserver.GetOptimisticResult` | src/core/QueryObserver.js:78-92 | with the key already bound nothing but the stored record changes and the new fetch function and options are ignored; on a key change `Rebind` happens: the old query keeps its state, data, error and fetch time and is either left bound to the client or destroyed, and the new query's binding, seeding and run state are stated case by case; the recorded previous data, cache, client options and registry validity are stated; the stored record is returned |
| `Observers.QueryObserver.Subscribe` | src/core/QueryObserver.js:98-102 | the callback is appended; before a query is bound it then fails; otherwise the observer notifies at once exactly when the record changed |
| `Observers.QueryObserver.Unsubscribe` | src/core/QueryObserver.js:108-112 | the observer destroys itself exactly when it has no listeners |
| `Observers.QueryObserver.Unsubscriber` | src/core/QueryObserver.js:103-106 | the closure removes the callback, leaving client, query and previous data as they were, and the observer is destroyed when no listener remains |
| `Observers.QueryObserver.DestroyDetached` | src/core/QueryObserver.js:24-29 | the corrected `destroy`: as `Destroy`, after `notify` was unsubscribed from the bound query; that query keeps its state, data, error and fetch time, and either keeps its other listeners, client, fetch function and options or is destroyed and removed from the registry; the client's cache and options are unchanged and its registry stays valid |
| `Observers.PreviousKeyDataShownWhileLoading` | src/core/tests/QueryObserver.test.js:186-201 | switching from a key with truthy data to one without a live query or cached data gives a loading result that shows the old data |
| `Observers.DestroyLeavesNotifySubscribed` | src/core/QueryObserver.js:24-29 | after `destroy`, `notify` fails when the query calls it, and a listener after it in the query's list is never called |
| `Observers.DetachedDestroyKeepsOtherListeners` | src/core/QueryObserver.js:24-29 | after `DestroyDetached` the query's other listener is called when its run completes |
| `Notify.ScheduleSpec` | src/core/notifyManager.js:33-41 | inside a transaction the callback is appended to the queue and nothing is scheduled; outside, the queue is kept and exactly one microtask notifying the callback is scheduled |
| `Notify.FlushSpec` | src/core/notifyManager.js:50-62 | the queue is emptied; a non-empty queue becomes one batch microtask over its callbacks in order, an empty one schedules nothing |
| `Notify.Step` | src/core/notifyManager.js:23-31 | a batch leaves the transaction counter as it found it |
| `Notify.Run` | src/core/notifyManager.js:25 | a batch callback's calls leave the transaction counter as they found it |
| `Notify.StepInsideTransaction` | src/core/notifyManager.js:23-31 | inside an open transaction one operation (a schedule, a call of a batched wrapper, or a nested batch) only appends its callbacks to the queue, leaving the counter and the microtasks as they were; proved together with `InsideTransaction` |
| `Notify.InsideTransaction` | src/core/notifyManager.js:26-28 | inside an open transaction every callback, however deeply nested its batch, joins the queue in order and no nested batch flushes |
| `Notify.TopLevelBatch` | src/core/notifyManager.js:23-31 | a top-level batch ends with an empty queue and one batch microtask over everything it scheduled, in order, or none when it scheduled nothing |
| `Notify.NestedBatchDoesNotFlush` | src/core/notifyManager.js:26-28 | a batch inside a transaction only extends the queue |
| `Notify.RunKeepsQuiet` | src/core/notifyManager.js:26-28 | outside any transaction the queue stays empty |
| `Notify.TaskEffects` | src/core/notifyManager.js:37-60 | a single-callback microtask hands its callback to the notify hook; a batch microtask hands each callback in order to the notify hook when the batch hook is the default, and hands the whole batch to a host batch hook otherwise |
| `Notify.NotifyEach` | src/core/notifyManager.js:56-58 | the batch notification hands each queued callback, in order, to the notify hook |
| `Notify.DefaultHooksInvokeInOrder` | src/core/notifyManager.js:15-20 | with the default hooks a top-level batch's notification calls every callback it scheduled, once each, in order |
| `Notify.NotifyManager.constructor` | src/core/notifyManager.js:12-21 | an empty queue, no transaction, no microtask, and both hooks calling the callback directly |
| `Notify.NotifyManager.Schedule` | src/core/notifyManager.js:33-41 | the manager's new state is `ScheduleSpec` of the old |
| `Notify.NotifyManager.CallBatched` | src/core/notifyManager.js:42-48 | the wrapper runs nothing now; it schedules the callback applied to the same arguments |
| `Notify.NotifyManager.Flush` | src/core/notifyManager.js:50-62 | the manager's new state is `FlushSpec` of the old |
| `Notify.NotifyManager.Batch` | src/core/notifyManager.js:23-31 | the callback's result is returned, the counter restored, the queue flushed exactly when the counter is back at zero, and an empty queue outside transactions kept |
| `Notify.NotifyManager.Perform` | src/core/notifyManager.js:25 | the batch callback's calls, in order |
| `Notify.NotifyManager.NotifyQueue` | src/core/notifyManager.js:55-59 | every queued callback goes to the current notify hook, in FIFO order |
| `Notify.NotifyManager.ExecuteTask` | src/core/notifyManager.js:37-39 | a scheduled microtask delivers through the hooks installed when it runs |
| `Notify.NotifyManager.SetNotifyFunction` | src/core/notifyManager.js:63-65 | the notify hook is replaced |
| `Notify.NotifyManager.SetBatchNotifyFunction` | src/core/notifyManager.js:66-68 | the batch notify hook is replaced |
| `Mutation.Reducer` | src/react/use-mutation.js:13-36 | `LOAD` sets loading and clears the error; `LOAD_ERROR` clears loading and sets the error; `LOAD_SUCCESS` clears loading and sets the data; each keeps the other fields; any other action keeps the state |
| `Mutation.UnknownActionIgnored` | src/react/use-mutation.js:33-34 | an unknown action type leaves the state unchanged |
| `Mutation.States` | src/react/use-mutation.js:40 | each state of the trace is the reducer applied to the one before |
| `Mutation.MutateAsync` | src/react/use-mutation.js:41-54 | `LOAD` is dispatched, then exactly one of `LOAD_SUCCESS` with the data or `LOAD_ERROR` with the error; the data is returned or the error rethrown |
| `Mutation.MutationEndsSettled` | src/react/use-mutation.js:41-54 | from any state a mutation passes through loading with the error cleared, and ends not loading with the new data, or with the error and the old data |
| `Mutation.SuccessTrace` | src/react/tests/useMutation.test.js:106-122 | from the initial state a successful mutation yields exactly the three states asserted by the test |
| `Mutation.FailureTrace` | src/react/tests/useMutation.test.js:153-169 | from the initial state a failing mutation yields exactly the three states asserted by the test |

## Left out

- The React layer is not modelled. This covers `use-query.js`, `QueryClientProvider.js`, and the `useReducer`/`useRef`/`useCallback` plumbing of `use-mutation.js`. It is UI binding, not engine logic.
- The real clock is not modelled. `now()` and `new Date().getTime()` are the `now` parameter.
- `scheduleMicrotask` and the event loop are abstract. Its `.catch` with a `setTimeout` re-throw is not modelled.
- Floating-point numbers, `NaN` and `-0` are not modelled. Numbers are integers, `cacheTime` is `Finite | Infinite`, and fetch times are natural numbers.
- Explicit `undefined` values inside option objects are not modelled. A key set to `undefined` overrides a lower layer in JavaScript; in the model a layer either sets a key to a value or leaves it out.
- A fetch function that throws synchronously is not distinguished from one that rejects. Both reach the same `catch` in `run`.
- A throwing listener is modelled only in the fan-out of `RunComplete`, as the `throwing` set; the error this raises out of `run()` is not. In the fan-outs of `Notify` and of `notifyManager` no callback throws.
- Notify.NotifyManager.Batch: models a callback that returns normally. A callback that throws leaves `transactions` raised, because there is no `try`/`finally`.
- The effects of the callbacks themselves are separate members. They are not folded into the fan-out of `RunComplete`, `Notify` or `ExecuteTask`: the caller runs `QueryObserver.Notify` or `PrefetchListener` for each delivered call.
- The cache and its entries are values (a `map` of `CacheEntry` records), not shared objects. So the model does not capture these aliasing effects:
  - `new QueryClient({ cache })` keeping the caller's object (QueryClient.js:28);
  - `getCache()` handing out a reference through which later writes are seen (QueryClient.js:60-62);
  - `setQueryData` writing `data` into an entry object in place (QueryClient.js:72-76), which two keys sharing one entry object would both see.

  The engine itself never relies on this sharing.
- Engine.QueryClient.GetOrCreateQuery: uses one `now` for seeding the new query and for the staleness test. The code reads the clock twice, milliseconds apart.
- Observers.QueryObserver.GetOptimisticResult: requires that the observer has a client with a valid registry, and that a bound query belongs to that client. On a destroyed observer the code throws a TypeError, which is not modelled as an outcome.
- Observers.QueryObserver.CreateResult: requires a bound query. With none the code throws reading a property of `null`; that path is the failing outcome of `Notify` and `Subscribe`, which are the members reached without a bound query.
- Observers.QueryObserver.QueryHasChange: requires a bound query, for the same reason.
- Observers.QueryObserver.UpdateResult: requires a bound query, for the same reason. It is reached only from `GetOptimisticResult`, after the binding.
- Observers.QueryObserver.Refetch: requires a bound query, for the same reason. Only the synchronous start of the run is modelled; its completion is `Engine.Query.RunComplete`.
- Engine.QueryClient.PrefetchQuery: requires that the private listener identity is in no query's listener list. This is how a freshly created closure behaves.
- `setQueryData` on a live query with other data calls a `setData` that `Query` does not define. The model reports that call as failing and invents no semantics for it.
- Behaviour found only in tests or type declarations is not modelled: a `status` result field, cancellation on destroy, and a `staleTime` option.
- Type declarations, re-exports and test helpers are not part of this model.

## Findings

| source | as written | input that shows it | evidently intended | confidence | as-written member | corrected member |
|---|---|---|---|---|---|---|
| src/core/QueryObserver.js:24-29 | `destroy` nulls the observer's query but leaves `notify` in that query's listeners | an observer bound to a query whose listeners are `[notify, other]` is destroyed, then the query's run completes: `notify` throws reading `null` and `other` is never called | `destroy` also unsubscribes `notify` from its query | medium, not executed | `Observers.DestroyLeavesNotifySubscribed` | `Observers.QueryObserver.DestroyDetached`, with `Observers.DetachedDestroyKeepsOtherListeners` |
