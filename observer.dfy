/** `QueryObserver` (src/core/QueryObserver.js): binds one consumer to one
    query at a time, derives a result record from it, carries the previous
    key's data across a key change, and calls its own listeners only when the
    result record changed under a shallow comparison.

    The arrow functions `notify` and `refetch` are fixed per observer; the
    model gives them as the identities `notifyFn` and `refetchFn`.  Running
    `notify` is the method `Notify`, which whoever delivers the query's
    notifications calls. */
module Observers {
  import opened JsValues
  import opened QueryPolicy
  import opened Engine

  /** The file-local `shallowEqualObjects`: unlike the one in utils, it does
      not tolerate differing nested objects. */
  function ShallowEqualStrict(a: Option<Props>, b: Option<Props>): (r: bool)
    ensures a.Some? != b.Some? ==> !r
    ensures a.None? && b.None? ==> r
    ensures a.Some? && b.Some? ==>
      (r <==> forall i :: 0 <= i < |a.value| ==> Get(a.value, a.value[i].0) == Get(b.value, a.value[i].0))
  {
    if (a.Some? && b.None?) || (b.Some? && a.None?) then false
    else if a.None? then true
    else StrictScan(a.value, a.value, b.value)
  }

  /** The loop over the keys of `a` still to visit, returning at the first
      strictly unequal value. */
  function StrictScan(rest: Props, a: Props, b: Props): (ok: bool)
    ensures ok <==> forall i :: 0 <= i < |rest| ==> Get(a, rest[i].0) == Get(b, rest[i].0)
  {
    if rest == [] then true
    else if Get(a, rest[0].0) != Get(b, rest[0].0) then false
    else StrictScan(rest[1..], a, b)
  }

  /** Keys only in `b` are never visited. */
  lemma {:induction false} StrictOnlyKeysOfFirstMatter(a: Props, b: Props, c: Props)
    requires forall i :: 0 <= i < |a| ==> Get(b, a[i].0) == Get(c, a[i].0)
    ensures ShallowEqualStrict(Some(a), Some(b)) == ShallowEqualStrict(Some(a), Some(c))
  {
    assert forall i :: 0 <= i < |a| ==>
      (Get(a, a[i].0) == Get(b, a[i].0) <==> Get(a, a[i].0) == Get(c, a[i].0));
  }

  /** The record `createResult` returns:
      `{ isLoading, data, error, refetch, fetchTime }`. */
  datatype QueryResult = QueryResult(isLoading: bool, data: JsValue, error: JsValue,
                                     refetch: JsValue, fetchTime: Option<nat>)

  /** A fetch time as the JS value stored in the record: `null` or a number. */
  function TimeValue(t: Option<nat>): (v: JsValue)
    ensures t.None? <==> v == Null
    ensures t.Some? ==> v == Num(t.value)
  {
    match t
    case None => Null
    case Some(n) => Num(n)
  }

  /** The result record as an object, keys in the order the spreads create them. */
  function ResultProps(r: QueryResult): Props {
    [("isLoading", Bool(r.isLoading)), ("data", r.data), ("error", r.error),
     ("refetch", r.refetch), ("fetchTime", TimeValue(r.fetchTime))]
  }

  /** `currentResults`, which is `undefined` (falsy) until the first update. */
  function ResultArg(r: Option<QueryResult>): Option<Props> {
    match r
    case None => None
    case Some(x) => Some(ResultProps(x))
  }

  /** On result records the shallow comparison is exactly equality of the
      records, and an unset `currentResults` always differs from a result:
      so `queryHasChange` reports a change exactly when the fresh result
      differs from the stored one. */
  lemma {:induction false} ChangeIffDifferent(prev: Option<QueryResult>, r: QueryResult)
    ensures !ShallowEqualStrict(ResultArg(prev), Some(ResultProps(r))) <==> prev != Some(r)
  {
    if prev.Some? {
      var a := ResultProps(prev.value);
      var b := ResultProps(r);
      if ShallowEqualStrict(Some(a), Some(b)) {
        var p := prev.value;
        ResultPropsGet(p);
        ResultPropsGet(r);
        assert Get(a, a[0].0) == Get(b, a[0].0);
        assert Get(a, a[1].0) == Get(b, a[1].0);
        assert Get(a, a[2].0) == Get(b, a[2].0);
        assert Get(a, a[3].0) == Get(b, a[3].0);
        assert Get(a, a[4].0) == Get(b, a[4].0);
        assert p.isLoading == r.isLoading && p.data == r.data && p.error == r.error;
        assert p.refetch == r.refetch;
        assert TimeValue(p.fetchTime) == TimeValue(r.fetchTime);
        assert p.fetchTime == r.fetchTime;
      }
    }
  }

  /** Each field of the record is read back under its own key. */
  lemma ResultPropsGet(r: QueryResult)
    ensures Get(ResultProps(r), "isLoading") == Bool(r.isLoading)
    ensures Get(ResultProps(r), "data") == r.data
    ensures Get(ResultProps(r), "error") == r.error
    ensures Get(ResultProps(r), "refetch") == r.refetch
    ensures Get(ResultProps(r), "fetchTime") == TimeValue(r.fetchTime)
  {
    var p := ResultProps(r);
    assert "error" != "isLoading" && "error" != "data";
    assert "refetch" != "isLoading" && "refetch" != "data" && "refetch" != "error";
    assert "fetchTime" != "isLoading" && "fetchTime" != "data" && "fetchTime" != "error"
        && "fetchTime" != "refetch";
    assert Get(p, "error") == Get(p[1..], "error") == Get(p[2..], "error");
    assert Get(p, "refetch") == Get(p[1..], "refetch") == Get(p[2..], "refetch")
        == Get(p[3..], "refetch");
    assert Get(p, "fetchTime") == Get(p[1..], "fetchTime") == Get(p[2..], "fetchTime")
        == Get(p[3..], "fetchTime") == Get(p[4..], "fetchTime");
  }

  /** `createResult()`'s value, from the query's `state`, `data`, `error` and
      `fetchTime` and the observer's `prevData`. */
  function DeriveResult(state: QueryState, data: JsValue, error: JsValue, fetchTime: Option<nat>,
                        prevData: JsValue, refetch: JsValue): (r: QueryResult)
    ensures r.refetch == refetch && r.fetchTime == fetchTime
    ensures r.isLoading <==> !(Truthy(data) || (Truthy(error) && state == FAILED))
    ensures Truthy(data) ==> r.data == data && r.error == Null
    ensures !Truthy(data) && Truthy(error) && state == FAILED ==> r.data == Null && r.error == error
    ensures r.isLoading ==> r.error == Null && r.data == (if Truthy(prevData) then prevData else Null)
  {
    var params := QueryResult(false, Null, Null, refetch, fetchTime);
    if Truthy(data) then params.(data := data)
    else if Truthy(error) && state == FAILED then params.(error := error)
    else params.(data := if Truthy(prevData) then prevData else Null, isLoading := true)
  }

  /** The side effect of `createResult()` on `prevData`: cleared once the
      query has truthy data. */
  function PrevDataAfter(data: JsValue, prevData: JsValue): (p: JsValue)
    ensures Truthy(data) ==> !Truthy(p)
    ensures !Truthy(data) ==> p == prevData
  {
    if Truthy(data) && Truthy(prevData) then Null else prevData
  }

  /** Deriving twice in a row gives the same record: the `prevData` it
      cleared was not shown anyway. */
  lemma DeriveIgnoresClearedPrevData(state: QueryState, data: JsValue, error: JsValue,
                                     fetchTime: Option<nat>, prevData: JsValue, refetch: JsValue)
    ensures DeriveResult(state, data, error, fetchTime, PrevDataAfter(data, prevData), refetch)
         == DeriveResult(state, data, error, fetchTime, prevData, refetch)
  {
  }

  /** A key switch from a query that had data `x` to one still loading shows
      `x` as loading data. */
  lemma PreviousDataShownWhileLoading(state: QueryState, fetchTime: Option<nat>, x: JsValue, refetch: JsValue)
    requires state == INITAL || state == PENDING
    requires Truthy(x)
    ensures DeriveResult(state, Null, Null, fetchTime, x, refetch) == QueryResult(true, x, Null, refetch, fetchTime)
  {
  }

  /** One call of an observer listener, `callback(error, data)`. */
  datatype ListenerCall = ListenerCall(callback: JsValue, error: JsValue, data: JsValue)

  /** Every listener called once, in order, with the same arguments. */
  predicate CallsEach(calls: seq<ListenerCall>, listeners: seq<JsValue>, error: JsValue, data: JsValue) {
    |calls| == |listeners| &&
    forall i :: 0 <= i < |calls| ==> calls[i] == ListenerCall(listeners[i], error, data)
  }

  class QueryObserver {
    var client: QueryClient?
    var listeners: seq<JsValue>
    var query: Query?
    var prevData: JsValue
    var currentResults: Option<QueryResult>
    const notifyFn: JsValue
    const refetchFn: JsValue

    /** `new QueryObserver(client)`. */
    constructor (client: QueryClient, notifyFn: JsValue, refetchFn: JsValue)
      ensures this.client == client && listeners == [] && query == null
      ensures prevData == Null && currentResults == None
      ensures this.notifyFn == notifyFn && this.refetchFn == refetchFn
    {
      this.client := client;
      listeners := [];
      query := null;
      prevData := Null;
      currentResults := None;
      this.notifyFn := notifyFn;
      this.refetchFn := refetchFn;
    }

    /** The result `createResult()` would compute now, with `prev` as `prevData`. */
    function Derived(prev: JsValue): QueryResult
      reads this, query
      requires query != null
    {
      DeriveResult(query.state, query.data, query.error, query.fetchTime, prev, refetchFn)
    }

    /** `destroy()`.  It does not unsubscribe `notify` from the bound query,
        which is therefore not changed. */
    method Destroy()
      modifies this`client, this`listeners, this`query, this`prevData
      ensures client == null && listeners == [] && query == null && prevData == Null
    {
      client := null;
      listeners := [];
      query := null;
      prevData := Null;
    }

    /** `refetch()`: the bound query's run is started whatever its staleness. */
    method Refetch() returns (started: bool)
      requires query != null
      modifies query`state, query`data, query`error
      ensures query.state == PENDING && (started <==> query.options.Some?)
      ensures started ==>
        query.error == Null &&
        query.data == (if query.options.value.keepPreviousData then old(query.data) else Null)
      ensures !started ==> query.data == old(query.data) && query.error == old(query.error)
      ensures client == old(client) && (client != null && old(client.Valid()) ==> client.Valid())
    {
      started := query.RunStart();
    }

    /** `createResult()`. */
    method CreateResult() returns (r: QueryResult)
      requires query != null
      modifies this`prevData
      ensures r == Derived(old(prevData))
      ensures prevData == PrevDataAfter(query.data, old(prevData))
    {
      var data, error, state, fetchTime := query.data, query.error, query.state, query.fetchTime;
      if Truthy(data) {
        if Truthy(prevData) {
          prevData := Null;
        }
        r := QueryResult(false, data, Null, refetchFn, fetchTime);
        return;
      }
      if Truthy(error) && state == FAILED {
        r := QueryResult(false, Null, error, refetchFn, fetchTime);
        return;
      }
      r := QueryResult(true, if Truthy(prevData) then prevData else Null, Null, refetchFn, fetchTime);
    }

    /** `queryHasChange()`: true exactly when the fresh result differs from
        `currentResults`. */
    method QueryHasChange() returns (changed: bool)
      requires query != null
      modifies this`prevData
      ensures changed <==> currentResults != Some(Derived(old(prevData)))
      ensures prevData == PrevDataAfter(query.data, old(prevData))
    {
      var prevResults := currentResults;
      var results := CreateResult();
      changed := !ShallowEqualStrict(ResultArg(prevResults), Some(ResultProps(results)));
      ChangeIffDifferent(prevResults, results);
    }

    /** `updateResult()`: the fresh result is stored and returned. */
    method UpdateResult() returns (r: QueryResult)
      requires query != null
      modifies this`prevData, this`currentResults
      ensures r == Derived(old(prevData)) && currentResults == Some(r)
      ensures prevData == PrevDataAfter(query.data, old(prevData))
    {
      r := CreateResult();
      currentResults := Some(r);
    }

    /** `notify()`: nothing happens unless the result changed; then
        `currentResults` is updated first and each listener is called, in
        order, with the query's `(error, data)`.  After `destroy()` the query
        is `null` and `createResult` throws a TypeError before anything
        changed: `ok` is false. */
    method Notify() returns (calls: seq<ListenerCall>, ok: bool)
      modifies this`prevData, this`currentResults
      ensures ok <==> query != null
      ensures query == null ==>
        calls == [] && prevData == old(prevData) && currentResults == old(currentResults)
      ensures query != null ==> prevData == PrevDataAfter(query.data, old(prevData))
      ensures query != null && old(currentResults) == Some(Derived(old(prevData))) ==>
        calls == [] && currentResults == old(currentResults)
      ensures query != null && old(currentResults) != Some(Derived(old(prevData))) ==>
        currentResults == Some(Derived(old(prevData))) &&
        CallsEach(calls, listeners, query.error, query.data)
    {
      calls := [];
      if query == null {
        ok := false;
        return;
      }
      ok := true;
      var changed := QueryHasChange();
      if changed {
        DeriveIgnoresClearedPrevData(query.state, query.data, query.error, query.fetchTime,
                                     old(prevData), refetchFn);
        var _ := UpdateResult();
        var data, error := query.data, query.error;
        var i := 0;
        while i < |listeners|
          invariant 0 <= i <= |listeners|
          invariant CallsEach(calls, listeners[..i], error, data)
        {
          calls := calls + [ListenerCall(listeners[i], error, data)];
          i := i + 1;
        }
      }
    }

    /** The rebinding step of `getOptimisticResult` (lines 80-89), taken
        when the observer has no query or one for another key: the old
        query's data becomes `prevData` and `notify` leaves it (it is
        deregistered if `notify` was its last listener), then find-or-create
        binds the query for `key`. */
    method Rebind(key: string, fetchFn: JsValue, callOptions: OptionLayer, now: nat)
      requires client != null && client.Valid()
      requires query != null ==> query.client == client && query.key != key
      modifies this`prevData, this`query, query, client, set q | q in client.queries && q.key == key
      ensures client == old(client) && client.Valid()
      ensures client.cache == old(client.cache) && client.options == old(client.options)
      ensures query != null && query.key == key && query.client == client
      ensures prevData == (if old(query) != null then old(query.data) else old(prevData))
      ensures query in client.queries && query.listeners[|query.listeners| - 1] == notifyFn
      // the old query: only `notify` leaves it, and it is destroyed if that was its last listener
      ensures old(query) != null ==>
        UnsubscribedFrom(old(query), notifyFn, old(query.listeners), old(query.client), old(query.fetchFn),
                         old(query.options), old(query.state), old(query.data), old(query.error),
                         old(query.fetchTime))
      ensures
        var kept := if old(query) != null && Without(old(query.listeners), notifyFn) == []
                    then (var bound: Query := old(query); Without(old(client.queries), bound))
                    else old(client.queries);
        var found := old(FindByKey(client.queries, key));
        (found.Some? ==>
          query == found.value && client.queries == kept &&
          query.listeners == old(found.value.listeners) + [notifyFn] &&
          ReusedQuery(query, old(found.value.state), old(found.value.data), old(found.value.error),
                      old(found.value.fetchTime), old(found.value.options), old(found.value.fetchFn), now)) &&
        (found.None? ==>
          fresh(query) && client.queries == kept + [query] && query.listeners == [notifyFn] &&
          query.fetchFn == fetchFn &&
          query.options == Some(QueryOptions(client.options, CachedOptions(client.cache, key), callOptions)) &&
          SeededQuery(query, client.cache, client.options, key, callOptions, now))
    {
      ghost var found := FindByKey(client.queries, key);
      if query != null {
        Leave(key);
      }
      assert FindByKey(client.queries, key) == found;
      var q, _ := client.GetOrCreateQuery(key, fetchFn, callOptions, notifyFn, now);
      query := q;
    }

    /** Lines 81-82 of `getOptimisticResult`: the bound query's data becomes
        `prevData`, and `notify` unsubscribes from it.  A lookup of `key`, the
        new key, finds what it found before. */
    method Leave(key: string)
      requires client != null && client.Valid()
      requires query != null && query.client == client && query.key != key
      modifies this`prevData, query, client
      ensures client == old(client) && client.Valid() && query == old(query)
      ensures client.cache == old(client.cache) && client.options == old(client.options)
      ensures prevData == old(query.data)
      ensures UnsubscribedFrom(query, notifyFn, old(query.listeners), old(query.client), old(query.fetchFn),
                               old(query.options), old(query.state), old(query.data), old(query.error),
                               old(query.fetchTime))
      ensures client.queries == (if Without(old(query.listeners), notifyFn) == []
                                 then (var bound: Query := query; Without(old(client.queries), bound))
                                 else old(client.queries))
      ensures forall q :: q in client.queries ==> q in old(client.queries)
      ensures FindByKey(client.queries, key) == old(FindByKey(client.queries, key))
    {
      prevData := query.data;
      FindByKeyWithout(client.queries, query, key);
      ghost var bound: Query, heard, registry := query, query.listeners, client.queries;
      var gone := query.Unsubscribe(notifyFn);
      if Without(heard, notifyFn) == [] {
        assert gone;
        assert client.queries == Without(registry, bound);
      } else {
        assert client.queries == registry;
      }
    }

    /** `getOptimisticResult(key, fetchFn, options)` at clock reading `now`.
        The observer's query, when set, is one its client created and has not
        been destroyed (it still holds `notify`). */
    method GetOptimisticResult(key: string, fetchFn: JsValue, callOptions: OptionLayer, now: nat)
      returns (r: QueryResult)
      requires client != null && client.Valid()
      requires query != null ==> query.client == client
      modifies this`prevData, this`currentResults, this`query, query, client,
               set q | q in client.queries && q.key == key
      ensures client == old(client) && client.Valid()
      ensures client.cache == old(client.cache) && client.options == old(client.options)
      ensures query != null && query.key == key && query.client == client
      ensures currentResults == Some(r)
      ensures prevData == PrevDataAfter(query.data,
        if old(query) != null && old(query).key != key then old(query.data) else old(prevData))
      // the key is already bound: no find-or-create, fetchFn and options ignored
      ensures old(query) != null && old(query).key == key ==>
        query == old(query) && client.queries == old(client.queries) &&
        query.listeners == old(query.listeners) && query.options == old(query.options) &&
        query.fetchFn == old(query.fetchFn) && query.state == old(query.state) &&
        query.data == old(query.data) && query.error == old(query.error) &&
        query.fetchTime == old(query.fetchTime) &&
        r == DeriveResult(old(query.state), old(query.data), old(query.error), old(query.fetchTime),
                          old(prevData), refetchFn)
      // a new key: prevData taken from the old query, notify moved to the new one
      ensures !(old(query) != null && old(query).key == key) ==>
        query in client.queries && query.listeners[|query.listeners| - 1] == notifyFn &&
        (old(query) != null ==>
          UnsubscribedFrom(old(query), notifyFn, old(query.listeners), old(query.client), old(query.fetchFn),
                           old(query.options), old(query.state), old(query.data), old(query.error),
                           old(query.fetchTime))) &&
        r == Derived(if old(query) != null then old(query.data) else old(prevData))
      // ... the old query deregistered if notify was its last listener, then
      // find-or-create on the registry that is left
      ensures !(old(query) != null && old(query).key == key) ==>
        var kept := if old(query) != null && Without(old(query.listeners), notifyFn) == []
                    then (var bound: Query := old(query); Without(old(client.queries), bound))
                    else old(client.queries);
        var found := old(FindByKey(client.queries, key));
        (found.Some? ==>
          query == found.value && client.queries == kept &&
          query.listeners == old(found.value.listeners) + [notifyFn] &&
          ReusedQuery(query, old(found.value.state), old(found.value.data), old(found.value.error),
                      old(found.value.fetchTime), old(found.value.options), old(found.value.fetchFn), now)) &&
        (found.None? ==>
          fresh(query) && client.queries == kept + [query] && query.listeners == [notifyFn] &&
          query.fetchFn == fetchFn &&
          query.options == Some(QueryOptions(client.options, CachedOptions(client.cache, key), callOptions)) &&
          SeededQuery(query, client.cache, client.options, key, callOptions, now))
    {
      if query == null || query.key != key {
        Rebind(key, fetchFn, callOptions, now);
      }
      r := UpdateResult();
    }

    /** `subscribe(callback)`: the callback is appended, and if the result
        changed, `notify` runs at once.  Before `getOptimisticResult` bound a
        query, `createResult` throws (a read of `null`) once the callback is
        already appended: `ok` is false.  The closure it returns is
        `Unsubscriber`. */
    method Subscribe(callback: JsValue) returns (calls: seq<ListenerCall>, ok: bool)
      modifies this`listeners, this`prevData, this`currentResults
      ensures listeners == old(listeners) + [callback]
      ensures ok <==> query != null
      ensures query == null ==>
        calls == [] && prevData == old(prevData) && currentResults == old(currentResults)
      ensures query != null ==> prevData == PrevDataAfter(query.data, old(prevData))
      ensures query != null && old(currentResults) == Some(Derived(old(prevData))) ==>
        calls == [] && currentResults == old(currentResults)
      ensures query != null && old(currentResults) != Some(Derived(old(prevData))) ==>
        currentResults == Some(Derived(old(prevData))) &&
        CallsEach(calls, listeners, query.error, query.data)
    {
      listeners := listeners + [callback];
      calls := [];
      if query == null {
        ok := false;
        return;
      }
      ok := true;
      var changed := QueryHasChange();
      if changed {
        DeriveIgnoresClearedPrevData(query.state, query.data, query.error, query.fetchTime,
                                     old(prevData), refetchFn);
        calls, ok := Notify();
      }
    }

    /** `unsubscribe()`: the observer destroys itself once it has no listeners. */
    method Unsubscribe()
      modifies this`client, this`listeners, this`query, this`prevData
      ensures old(listeners) == [] ==> client == null && listeners == [] && query == null && prevData == Null
      ensures old(listeners) != [] ==>
        client == old(client) && listeners == old(listeners) && query == old(query) && prevData == old(prevData)
    {
      if |listeners| == 0 {
        Destroy();
      }
    }

    /** The closure `subscribe(callback)` returns: the callback removed, then
        `unsubscribe()`. */
    method Unsubscriber(callback: JsValue)
      modifies this`client, this`listeners, this`query, this`prevData
      ensures Without(old(listeners), callback) != [] ==>
        listeners == Without(old(listeners), callback) && client == old(client) &&
        query == old(query) && prevData == old(prevData)
      ensures Without(old(listeners), callback) == [] ==>
        client == null && listeners == [] && query == null && prevData == Null
    {
      listeners := Without(listeners, callback);
      Unsubscribe();
    }

    /** `destroy()` as it evidently should be: `notify` is unsubscribed from
        the bound query first, so that query's later runs no longer call an
        observer whose `query` is `null` (see `Destroy`).  The query is
        deregistered when `notify` was its last listener. */
    method DestroyDetached() returns (ok: bool)
      requires query != null ==> query.client == client
      modifies this`client, this`listeners, this`query, this`prevData, query, client
      ensures client == null && listeners == [] && query == null && prevData == Null
      ensures ok <==> old(query) == null || Without(old(query.listeners), notifyFn) != [] || old(client) != null
      ensures old(query) != null ==>
        notifyFn !in old(query).listeners &&
        UnsubscribedFrom(old(query), notifyFn, old(query.listeners), old(query.client), old(query.fetchFn),
                         old(query.options), old(query.state), old(query.data), old(query.error),
                         old(query.fetchTime))
      // the registry: the query deregistered when `notify` was its last listener
      ensures old(client) != null ==>
        old(client).queries == (if old(query) != null && Without(old(query.listeners), notifyFn) == []
                                then (var bound: Query := old(query); Without(old(client.queries), bound))
                                else old(client.queries)) &&
        old(client).cache == old(client.cache) && old(client).options == old(client.options)
      ensures old(client) != null && old(client.Valid()) ==> old(client).Valid()
    {
      ok := true;
      if query != null {
        ok := query.Unsubscribe(notifyFn);
      }
      Destroy();
    }
  }

  /** An observer showing truthy data switches to a key without a live
      query or cached data: the new query starts loading, and the result is
      loading and still shows the old key's data.  This carry-over does not
      depend on `keepPreviousData`, which only decides whether a query keeps
      its own data when it re-runs. */
  method PreviousKeyDataShownWhileLoading(observer: QueryObserver, key: string, fetchFn: JsValue,
                                          callOptions: OptionLayer, now: nat)
    returns (r: QueryResult)
    requires observer.client != null && observer.client.Valid()
    requires observer.query != null && observer.query.client == observer.client
    requires observer.query.key != key && Truthy(observer.query.data)
    requires FindByKey(observer.client.queries, key).None?
    requires !Truthy(CachedData(observer.client.cache, key))
    modifies observer, observer.query, observer.client,
             set q | q in observer.client.queries && q.key == key
    ensures r.isLoading && r.data == old(observer.query.data)
  {
    var client := observer.client;
    CacheMissFetches(client.cache, key, now,
                     QueryOptions(client.options, CachedOptions(client.cache, key), callOptions));
    r := observer.GetOptimisticResult(key, fetchFn, callOptions, now);
  }

  /** `destroy()` leaves `notify` subscribed to the query: when that query's
      run completes, the fan-out calls `notify` first, which throws because
      the observer's query is now `null`, and the query's other listener is
      never called. */
  method DestroyLeavesNotifySubscribed(observer: QueryObserver, other: JsValue, outcome: Outcome, now: nat)
    returns (ok: bool, calls: seq<ListenerCall>, notified: seq<JsValue>)
    requires observer.query != null && observer.query.listeners == [observer.notifyFn, other]
    modifies observer, observer.query, observer.query.client
    ensures !ok && calls == []
    ensures notified == [observer.notifyFn]
  {
    var query := observer.query;
    observer.Destroy();
    calls, ok := observer.Notify();
    notified := query.RunComplete(outcome, now, {observer.notifyFn});
  }

  /** The same sequence with `DestroyDetached`: `notify` is gone from the
      query, which then calls its other listener. */
  method DetachedDestroyKeepsOtherListeners(observer: QueryObserver, other: JsValue, outcome: Outcome, now: nat)
    returns (notified: seq<JsValue>)
    requires observer.query != null && observer.query.client == observer.client
    requires observer.query.listeners == [observer.notifyFn, other] && other != observer.notifyFn
    modifies observer, observer.query, observer.query.client
    ensures notified == [other]
  {
    var query := observer.query;
    var _ := observer.DestroyDetached();
    notified := query.RunComplete(outcome, now, {observer.notifyFn});
  }
}
