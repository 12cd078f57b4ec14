/** The query cache itself: `Query`, one keyed fetch state machine
    (src/core/Query.js), and `QueryClient`, the registry that owns the
    persisted cache and the live queries (src/core/QueryClient.js).  The two
    classes refer to each other, so they share a module.

    `Query.run` is asynchronous; all of its mutation happens either before or
    after its single `await`, so it is modelled as two steps, `RunStart` and
    `RunComplete(outcome, now)`.  A listener callback is a `JsValue` (a
    function's identity); the fan-out at the end of `run` returns the callbacks
    it calls, in order, each called with the query as its argument. */
module Engine {
  import opened JsValues
  import opened QueryPolicy

  /** A persisted cache entry `{ data, fetchTime?, options? }`. */
  datatype CacheEntry = CacheEntry(data: JsValue, fetchTime: Option<nat>, options: Option<OptionLayer>)

  /** The TypeError the runtime throws when code reads a property of `null`. */
  const NullAccess: JsValue := RuntimeError("TypeError")

  /** No two queries of the list share a key. */
  predicate DistinctKeys(qs: seq<Query>) {
    forall i, j :: 0 <= i < |qs| && 0 <= j < |qs| && i != j ==> qs[i].key != qs[j].key
  }

  /** `qs.find((item) => item.key === key)`. */
  function FindByKey(qs: seq<Query>, key: string): (r: Option<Query>)
    ensures r.None? <==> forall i :: 0 <= i < |qs| ==> qs[i].key != key
    ensures r.Some? ==> exists i :: 0 <= i < |qs| && qs[i] == r.value && r.value.key == key &&
                                    forall j :: 0 <= j < i ==> qs[j].key != key
  {
    if qs == [] then None
    else if qs[0].key == key then Some(qs[0])
    else
      var r := FindByKey(qs[1..], key);
      assert r.Some? ==> exists i :: 0 <= i < |qs[1..]| && qs[1..][i] == r.value && r.value.key == key &&
                                     forall j :: 0 <= j < i ==> qs[1..][j].key != key;
      assert r.Some? ==> exists i :: 1 <= i < |qs| && qs[i] == r.value && r.value.key == key &&
                                     forall j :: 0 <= j < i ==> qs[j].key != key by {
        if r.Some? {
          var i :| 0 <= i < |qs[1..]| && qs[1..][i] == r.value && r.value.key == key &&
                   forall j :: 0 <= j < i ==> qs[1..][j].key != key;
          assert forall j :: 1 <= j < i + 1 ==> qs[j] == qs[1..][j - 1];
        }
      }
      r
  }

  /** Removing a query keeps the other keys distinct. */
  lemma {:induction false} WithoutKeepsDistinctKeys(qs: seq<Query>, x: Query)
    requires DistinctKeys(qs)
    ensures DistinctKeys(Without(qs, x))
  {
    if qs != [] {
      var rest := qs[1..];
      assert DistinctKeys(rest) by {
        forall i, j | 0 <= i < |rest| && 0 <= j < |rest| && i != j
          ensures rest[i].key != rest[j].key
        {
          assert rest[i] == qs[i + 1] && rest[j] == qs[j + 1];
        }
      }
      WithoutKeepsDistinctKeys(rest, x);
      if qs[0] != x {
        var w := Without(rest, x);
        forall i | 0 <= i < |w|
          ensures w[i].key != qs[0].key
        {
          assert w[i] in rest;
          var k :| 0 <= k < |rest| && rest[k] == w[i];
          assert rest[k] == qs[k + 1];
        }
        var r := [qs[0]] + w;
        assert Without(qs, x) == r;
        forall i, j | 0 <= i < |r| && 0 <= j < |r| && i != j
          ensures r[i].key != r[j].key
        {
          if i == 0 {
            assert r[j] == w[j - 1];
          } else if j == 0 {
            assert r[i] == w[i - 1];
          } else {
            assert r[i] == w[i - 1] && r[j] == w[j - 1];
          }
        }
      }
    }
  }

  /** Removing a query with another key does not change which query a
      lookup of `key` finds. */
  lemma {:induction false} FindByKeyWithout(qs: seq<Query>, x: Query, key: string)
    requires x.key != key
    ensures FindByKey(Without(qs, x), key) == FindByKey(qs, key)
  {
    if qs != [] {
      FindByKeyWithout(qs[1..], x, key);
      if qs[0] != x {
        assert Without(qs, x)[1..] == Without(qs[1..], x);
      }
    }
  }

  /** Registering a query under a key no live query has keeps the keys distinct. */
  lemma AppendNewKeyKeepsDistinct(qs: seq<Query>, q: Query)
    requires DistinctKeys(qs)
    requires FindByKey(qs, q.key).None?
    ensures DistinctKeys(qs + [q])
  {
    var r := qs + [q];
    forall i, j | 0 <= i < |r| && 0 <= j < |r| && i != j
      ensures r[i].key != r[j].key
    {
      if i < |qs| && j < |qs| {
        assert r[i] == qs[i] && r[j] == qs[j];
      } else if i < |qs| {
        assert r[i] == qs[i];
      } else {
        assert r[j] == qs[j];
      }
    }
  }

  /** What `getOrCreateQuery` reads from the persisted cache for a key:
      `cache[key] && cache[key].data`, with the constructor's `data = null`
      default applied to `undefined`. */
  function CachedData(cache: map<string, CacheEntry>, key: string): (d: JsValue)
    ensures d != Undefined
    ensures key !in cache ==> d == Null
  {
    if key in cache && cache[key].data != Undefined then cache[key].data else Null
  }

  /** `cache[key] && cache[key].fetchTime`: the fetch time the entry
      recorded, and none without an entry. */
  function CachedFetchTime(cache: map<string, CacheEntry>, key: string): (t: Option<nat>)
    ensures key !in cache ==> t == None
    ensures key in cache ==> t == cache[key].fetchTime
  {
    if key in cache then cache[key].fetchTime else None
  }

  /** `cache[key] && cache[key].options ? cache[key].options : {}`. */
  function CachedOptions(cache: map<string, CacheEntry>, key: string): (r: OptionLayer)
    ensures key in cache && cache[key].options.Some? ==> r == cache[key].options.value
    ensures key !in cache || cache[key].options.None? ==> r == NoOptions
  {
    if key in cache && cache[key].options.Some? then cache[key].options.value else NoOptions
  }

  /** `setQueryData` when it writes the cache: the entry's data replaced, its
      other fields kept, or a new entry `{ data }`. */
  function CacheWithData(cache: map<string, CacheEntry>, key: string, data: JsValue): (c: map<string, CacheEntry>)
    ensures c.Keys == cache.Keys + {key}
    ensures c[key].data == data
    ensures key in cache ==> c[key].fetchTime == cache[key].fetchTime && c[key].options == cache[key].options
    ensures key !in cache ==> c[key] == CacheEntry(data, None, None)
    ensures forall k :: k in cache && k != key ==> c[k] == cache[k]
  {
    if key in cache then cache[key := cache[key].(data := data)]
    else cache[key := CacheEntry(data, None, None)]
  }

  /** Listener `i` throws and none before it does. */
  predicate FirstThrowAt(listeners: seq<JsValue>, throwing: set<JsValue>, i: nat) {
    i < |listeners| && listeners[i] in throwing &&
    forall j :: 0 <= j < i ==> listeners[j] !in throwing
  }

  /** `listeners.forEach((callback) => { callback(this) })` when the
      callbacks in `throwing` throw: each listener is called in order, and the
      first one that throws ends the loop, so no later listener is called. */
  function FanOut(listeners: seq<JsValue>, throwing: set<JsValue>): (calls: seq<JsValue>)
    ensures (forall j :: 0 <= j < |listeners| ==> listeners[j] !in throwing) ==> calls == listeners
    ensures forall i: nat :: FirstThrowAt(listeners, throwing, i) ==> calls == listeners[..i + 1]
  {
    if listeners == [] then []
    else if listeners[0] in throwing then [listeners[0]]
    else
      var rest := FanOut(listeners[1..], throwing);
      assert forall i: nat :: FirstThrowAt(listeners, throwing, i) ==> [listeners[0]] + rest == listeners[..i + 1] by {
        forall i: nat | FirstThrowAt(listeners, throwing, i)
          ensures [listeners[0]] + rest == listeners[..i + 1]
        {
          assert i >= 1;
          assert FirstThrowAt(listeners[1..], throwing, i - 1) by {
            assert listeners[1..][i - 1] == listeners[i];
            forall j | 0 <= j < i - 1 ensures listeners[1..][j] !in throwing {
              assert listeners[1..][j] == listeners[j + 1];
            }
          }
          assert rest == listeners[1..][..i];
          assert listeners[..i + 1] == [listeners[0]] + listeners[1..][..i];
        }
      }
      [listeners[0]] + rest
  }

  /** A listener that throws hides every later listener from the run. */
  lemma ThrowingListenerStopsFanOut(listeners: seq<JsValue>, throwing: set<JsValue>, i: nat)
    requires i < |listeners| && listeners[i] in throwing
    requires forall j :: 0 <= j < i ==> listeners[j] !in throwing
    ensures |FanOut(listeners, throwing)| == i + 1
    ensures forall k :: i < k < |listeners| && listeners[k] !in listeners[..i + 1] ==>
      listeners[k] !in FanOut(listeners, throwing)
  {
    assert FirstThrowAt(listeners, throwing, i);
  }

  class Query {
    const key: string
    var state: QueryState
    var data: JsValue
    var error: JsValue
    var fetchFn: JsValue
    var fetchTime: Option<nat>
    var options: Option<Options>   // None once destroyed (`this.options = null`)
    var listeners: seq<JsValue>
    var client: QueryClient?

    /** `new Query({ key, fetchFn, options, data, fetchTime, client })`, at
        clock reading `now`. */
    constructor (key: string, fetchFn: JsValue, options: Options, seedData: JsValue,
                 seedFetchTime: Option<nat>, client: QueryClient?, now: nat)
      ensures this.key == key && this.fetchFn == fetchFn && this.client == client
      ensures this.options == Some(options)
      ensures data == (if seedData == Undefined then Null else seedData)
      ensures error == Null && listeners == []
      ensures Truthy(seedData) ==>
        state == FULLFILLED && fetchTime == (if TimeTruthy(seedFetchTime) then seedFetchTime else Some(now))
      ensures !Truthy(seedData) ==> state == INITAL && fetchTime == None
    {
      var d := if seedData == Undefined then Null else seedData;
      this.key := key;
      state := SeedState(d);
      data := d;
      error := Null;
      this.fetchFn := fetchFn;
      fetchTime := SeedFetchTime(d, seedFetchTime, now);
      this.options := Some(options);
      listeners := [];
      this.client := client;
    }

    /** The synchronous part of `run()`, up to the `await`.  On a destroyed
        query (`options` is null) the read of `options.keepPreviousData`
        throws after the state was already set: the run then never
        completes (`started` is false). */
    method RunStart() returns (started: bool)
      modifies this`state, this`data, this`error
      ensures state == PENDING
      ensures started <==> old(options).Some?
      ensures started ==>
        error == Null && data == (if options.value.keepPreviousData then old(data) else Null)
      ensures !started ==> data == old(data) && error == old(error)
      ensures client != null && old(client.Valid()) ==> client.Valid()
    {
      state := PENDING;
      if options.None? {
        started := false;
        return;
      }
      if !options.value.keepPreviousData {
        data := Null;
      }
      error := Null;
      started := true;
    }

    /** The part of `run()` after the fetch settled with `outcome`, at clock
        reading `now`.  On success the data, state and fetch time are set and
        the client's cache entry is overwritten; if the query was destroyed
        meanwhile, the read of `client.cache` throws a TypeError that the
        `catch` records as the query's error.  On failure only the error
        and state change.  Either way the listeners are then called in order
        with this query, until one of them throws (the callbacks in
        `throwing`): `notified` is the sequence of calls made. */
    method RunComplete(outcome: Outcome, now: nat, throwing: set<JsValue>) returns (notified: seq<JsValue>)
      modifies this`state, this`data, this`error, this`fetchTime, client
      ensures notified == FanOut(listeners, throwing)
      ensures client == old(client)
      ensures outcome.Fulfilled? ==>
        data == outcome.value && fetchTime == Some(NextFetchTime(old(fetchTime), now))
      ensures outcome.Fulfilled? && client != null ==>
        state == FULLFILLED && error == old(error) &&
        client.cache == old(client.cache)[key := CacheEntry(outcome.value, fetchTime, None)]
      ensures outcome.Fulfilled? && client == null ==> state == FAILED && error == NullAccess
      ensures outcome.Rejected? ==>
        state == FAILED && error == outcome.reason && data == old(data) && fetchTime == old(fetchTime)
      ensures outcome.Rejected? && client != null ==> client.cache == old(client.cache)
      ensures client != null ==> client.queries == old(client.queries) && client.options == old(client.options)
      ensures client != null && old(client.Valid()) ==> client.Valid()
    {
      match outcome {
        case Fulfilled(v) =>
          data := v;
          state := FULLFILLED;
          var prevFetchTime := fetchTime;
          fetchTime := Some(NextFetchTime(prevFetchTime, now));
          if client == null {
            error := NullAccess;
            state := FAILED;
          } else {
            client.cache := client.cache[key := CacheEntry(data, fetchTime, None)];
          }
        case Rejected(e) =>
          error := e;
          state := FAILED;
      }
      notified := CallListeners(throwing);
    }

    /** `this.listeners.forEach((callback) => { callback(this) })`, when the
        callbacks in `throwing` throw: the calls made, in order. */
    method CallListeners(throwing: set<JsValue>) returns (notified: seq<JsValue>)
      ensures notified == FanOut(listeners, throwing)
    {
      notified := [];
      var i := 0;
      while i < |listeners|
        invariant 0 <= i <= |listeners|
        invariant notified == listeners[..i]
        invariant forall j :: 0 <= j < i ==> listeners[j] !in throwing
      {
        notified := notified + [listeners[i]];
        if listeners[i] in throwing {
          assert FirstThrowAt(listeners, throwing, i);
          assert notified == listeners[..i + 1];
          return;
        }
        i := i + 1;
      }
      assert listeners[..i] == listeners;
    }

    /** `subscribe(callback)`: the callback is appended at the end.  The
        closure it returns is `UnsubscribeClosure`. */
    method Subscribe(callback: JsValue)
      modifies this`listeners
      ensures listeners == old(listeners) + [callback]
      ensures client != null && old(client.Valid()) ==> client.Valid()
    {
      listeners := listeners + [callback];
    }

    /** `destroy()`: listeners emptied, the query deregistered from its client,
        and client, fetchFn and options released.  On a query already destroyed
        the call `this.client.onDestroyQuery` throws (`ok` is false) after the
        listeners were emptied. */
    method Destroy() returns (ok: bool)
      modifies this`listeners, this`client, this`fetchFn, this`options, client
      ensures listeners == []
      ensures ok <==> old(client) != null
      ensures ok ==>
        client == null && fetchFn == Null && options == None &&
        old(client).queries == Without(old(client.queries), this) &&
        old(client).cache == old(client.cache) && old(client).options == old(client.options)
      ensures !ok ==> client == null && fetchFn == old(fetchFn) && options == old(options)
      ensures old(client) != null && old(client.ValidExcept(this)) ==> old(client).Valid()
    {
      listeners := [];
      if client == null {
        ok := false;
        return;
      }
      ghost var c := client;
      ghost var before := c.queries;
      client.OnDestroyQuery(this);
      client := null;
      fetchFn := Null;
      options := None;
      ok := true;
      if old(c.ValidExcept(this)) {
        WithoutKeepsDistinctKeys(before, this);
        forall i | 0 <= i < |c.queries|
          ensures c.queries[i].client == c && c.queries[i].options.Some? && c.queries[i].listeners != []
        {
          var q := c.queries[i];
          assert q in Without(before, this);
          var k :| 0 <= k < |before| && before[k] == q;
          assert q != this;
          assert old(q.client) == c && old(q.options).Some? && old(q.listeners) != [];
        }
      }
    }

    /** `unsubscribe(callback)`: every occurrence of the callback removed, the
        others kept in order; when none is left the query destroys itself. */
    method Unsubscribe(callback: JsValue) returns (ok: bool)
      modifies this`listeners, this`client, this`fetchFn, this`options, client
      ensures Without(old(listeners), callback) != [] ==>
        ok && listeners == Without(old(listeners), callback) && client == old(client) &&
        fetchFn == old(fetchFn) && options == old(options) &&
        (client != null ==> client.queries == old(client.queries))
      ensures Without(old(listeners), callback) == [] ==>
        listeners == [] && client == null && (ok <==> old(client) != null) &&
        (ok ==> fetchFn == Null && options == None &&
                old(client).queries == Without(old(client.queries), this))
      ensures old(client) != null ==>
        old(client).cache == old(client.cache) && old(client).options == old(client.options)
      ensures old(client) != null && old(client.Valid()) ==> old(client).Valid()
    {
      listeners := Without(listeners, callback);
      if |listeners| == 0 {
        ok := Destroy();
      } else {
        ok := true;
      }
    }

    /** The closure returned by `subscribe`: it calls `this.unsubscribe()`
        with no argument, so it filters out `undefined`, not the callback it
        was created for (see `ClosureKeepsCallbacks`). */
    method UnsubscribeClosure() returns (ok: bool)
      modifies this`listeners, this`client, this`fetchFn, this`options, client
      ensures Without(old(listeners), Undefined) != [] ==>
        ok && listeners == Without(old(listeners), Undefined) && client == old(client) &&
        fetchFn == old(fetchFn) && options == old(options) &&
        (client != null ==> client.queries == old(client.queries))
      ensures Without(old(listeners), Undefined) == [] ==>
        listeners == [] && client == null && (ok <==> old(client) != null) &&
        (ok ==> fetchFn == Null && options == None &&
                old(client).queries == Without(old(client.queries), this))
      ensures old(listeners) != [] && Undefined !in old(listeners) ==> listeners == old(listeners)
      ensures old(client) != null ==>
        old(client).cache == old(client.cache) && old(client).options == old(client.options)
      ensures old(client) != null && old(client.Valid()) ==> old(client).Valid()
    {
      WithoutAbsent(listeners, Undefined);
      ok := Unsubscribe(Undefined);
    }
  }

  /** The subscribe-closure's `unsubscribe()` passes `undefined`: a listener
      list of callbacks comes back unchanged, however the closure was
      created. */
  lemma ClosureKeepsCallbacks(listeners: seq<JsValue>)
    requires forall i :: 0 <= i < |listeners| ==> listeners[i].Func?
    ensures Without(listeners, Undefined) == listeners
  {
    WithoutAbsent(listeners, Undefined);
  }

  /** The state of a promise returned to a caller. */
  datatype PromiseState = Unsettled | Resolved(value: JsValue) | RejectedWith(reason: JsValue)

  /** Calling `resolve` or `reject`: only the first call settles the promise. */
  function Settle(p: PromiseState, q: PromiseState): (r: PromiseState)
    ensures p.Unsettled? ==> r == q
    ensures !p.Unsettled? ==> r == p
  {
    if p.Unsettled? then q else p
  }

  /** The tail of prefetch's private listener: `reject(error)` if the query
      has a truthy error, then `resolve(data)` if it has truthy data. */
  function PrefetchSettle(p: PromiseState, error: JsValue, data: JsValue): (r: PromiseState)
    ensures !p.Unsettled? ==> r == p
    ensures p.Unsettled? && Truthy(error) ==> r == RejectedWith(error)
    ensures p.Unsettled? && !Truthy(error) ==> r == (if Truthy(data) then Resolved(data) else Unsettled)
  {
    var afterError := if Truthy(error) then Settle(p, RejectedWith(error)) else p;
    if Truthy(data) then Settle(afterError, Resolved(data)) else afterError
  }

  /** On the first notification the prefetch promise rejects with a truthy
      error, otherwise resolves with truthy data, otherwise stays pending
      for good; a promise already settled is not changed. */
  lemma PrefetchSettleOutcome(p: PromiseState, error: JsValue, data: JsValue)
    ensures p.Unsettled? ==>
      PrefetchSettle(p, error, data) ==
        (if Truthy(error) then RejectedWith(error)
         else if Truthy(data) then Resolved(data)
         else Unsettled)
    ensures !p.Unsettled? ==> PrefetchSettle(p, error, data) == p
  {
  }

  /** Prefetch's private listener `callback`, run when `query` notifies it:
      it unsubscribes itself first, then settles the promise. */
  method PrefetchListener(query: Query, callback: JsValue, promise: PromiseState)
    returns (settled: PromiseState, ok: bool)
    modifies query`listeners, query`client, query`fetchFn, query`options, query.client
    ensures ok ==> settled == PrefetchSettle(promise, query.error, query.data)
    ensures !ok ==> settled == promise
    ensures query.error == old(query.error) && query.data == old(query.data)
    ensures Without(old(query.listeners), callback) != [] ==>
      ok && query.listeners == Without(old(query.listeners), callback) &&
      query.client == old(query.client) && query.fetchFn == old(query.fetchFn) &&
      query.options == old(query.options) &&
      (query.client != null ==> query.client.queries == old(query.client.queries))
    ensures Without(old(query.listeners), callback) == [] ==>
      query.listeners == [] && query.client == null && (ok <==> old(query.client) != null) &&
      (ok ==> query.fetchFn == Null && query.options == None &&
              old(query.client).queries == Without(old(query.client.queries), query))
    ensures old(query.client) != null ==>
      old(query.client).cache == old(query.client.cache) &&
      old(query.client).options == old(query.client.options)
    ensures old(query.client) != null && old(query.client.Valid()) ==> old(query.client).Valid()
  {
    ok := query.Unsubscribe(callback);
    settled := promise;
    if !ok {
      // the unsubscribe threw: the listener stops before settling
      return;
    }
    if Truthy(query.error) {
      settled := Settle(settled, RejectedWith(query.error));
    }
    if Truthy(query.data) {
      settled := Settle(settled, Resolved(query.data));
    }
  }

  /** `shouldFetchQuery` of the query find-or-create would create for `key`:
      its seed state and fetch time, under the layered options. */
  function SeedFetches(cache: map<string, CacheEntry>, clientOptions: Options, key: string,
                       callOptions: OptionLayer, now: nat): (r: bool)
    ensures !Truthy(CachedData(cache, key)) ==> r
    ensures Truthy(CachedData(cache, key)) &&
      QueryOptions(clientOptions, CachedOptions(cache, key), callOptions).cacheTime == Infinite
      ==> !r
  {
    ShouldFetch(SeedState(CachedData(cache, key)),
                SeedFetchTime(CachedData(cache, key), CachedFetchTime(cache, key), now),
                QueryOptions(clientOptions, CachedOptions(cache, key), callOptions).cacheTime, now)
  }

  /** The run state of a query find-or-create created for `key`: seeded from
      the cache entry, then started exactly when `SeedFetches` holds. */
  ghost predicate SeededQuery(q: Query, cache: map<string, CacheEntry>, clientOptions: Options,
                              key: string, callOptions: OptionLayer, now: nat)
    reads q
  {
    var opts := QueryOptions(clientOptions, CachedOptions(cache, key), callOptions);
    var seed := CachedData(cache, key);
    q.fetchTime == SeedFetchTime(seed, CachedFetchTime(cache, key), now) &&
    (SeedFetches(cache, clientOptions, key, callOptions, now) ==>
      q.state == PENDING && q.error == Null && q.data == (if opts.keepPreviousData then seed else Null)) &&
    (!SeedFetches(cache, clientOptions, key, callOptions, now) ==>
      q.state == SeedState(seed) && q.data == seed && q.error == Null)
  }

  /** A live query `q` that find-or-create reused, given its fields before
      the call: options, fetch function and fetch time kept, and its run
      started exactly when `shouldFetchQuery` held. */
  ghost predicate ReusedQuery(q: Query, state: QueryState, data: JsValue, error: JsValue,
                              fetchTime: Option<nat>, options: Option<Options>, fetchFn: JsValue, now: nat)
    reads q
  {
    options.Some? && q.options == options && q.fetchFn == fetchFn && q.fetchTime == fetchTime &&
    (ShouldFetch(state, fetchTime, options.value.cacheTime, now) ==>
      q.state == PENDING && q.error == Null &&
      q.data == (if options.value.keepPreviousData then data else Null)) &&
    (!ShouldFetch(state, fetchTime, options.value.cacheTime, now) ==>
      q.state == state && q.data == data && q.error == error)
  }

  /** What `q.unsubscribe(callback)` leaves in `q`, given its fields before:
      the callback gone and the run state kept; client, fetch function and
      options kept while a listener remains, and released when none does
      (the query destroyed itself). */
  ghost predicate UnsubscribedFrom(q: Query, callback: JsValue, listeners: seq<JsValue>, client: QueryClient?,
                                   fetchFn: JsValue, options: Option<Options>, state: QueryState,
                                   data: JsValue, error: JsValue, fetchTime: Option<nat>)
    reads q
  {
    q.listeners == Without(listeners, callback) &&
    q.state == state && q.data == data && q.error == error && q.fetchTime == fetchTime &&
    (Without(listeners, callback) != [] ==>
      q.client == client && q.fetchFn == fetchFn && q.options == options) &&
    (Without(listeners, callback) == [] ==>
      q.client == null && (client != null ==> q.fetchFn == Null && q.options == None))
  }

  class QueryClient {
    var cache: map<string, CacheEntry>
    var options: Options
    var queries: seq<Query>

    /** The registry's invariant: at most one live query per key, each bound
        to this client, not destroyed, and with at least one listener (a query
        whose last listener leaves is destroyed and deregistered at once). */
    ghost predicate Valid()
      reads this, queries
    {
      ValidExcept(null)
    }

    /** `Valid()`, except that query `x` may have no listeners left: the
        moment between an unsubscribe emptying `x` and `x` destroying itself. */
    ghost predicate ValidExcept(x: Query?)
      reads this, queries
    {
      DistinctKeys(queries) &&
      forall i :: 0 <= i < |queries| ==>
        queries[i].client == this && queries[i].options.Some? &&
        (queries[i] != x ==> queries[i].listeners != [])
    }

    /** `new QueryClient({ cache, defaultOptions })`; `cache` is `None` when not given. */
    constructor (cache: Option<map<string, CacheEntry>>, defaultOptions: OptionLayer)
      ensures this.cache == (if cache.Some? then cache.value else map[])
      ensures options == ClientOptions(defaultOptions)
      ensures queries == []
      ensures Valid()
    {
      this.cache := if cache.Some? then cache.value else map[];
      options := ClientOptions(defaultOptions);
      queries := [];
    }

    /** `getOrCreateQuery({ key, fetchFn, options, callback })` at clock
        reading `now`; `fetched` says whether it started a run. */
    method GetOrCreateQuery(key: string, fetchFn: JsValue, callOptions: OptionLayer,
                            callback: JsValue, now: nat)
      returns (query: Query, fetched: bool)
      requires Valid()
      modifies this`queries, set q | q in queries && q.key == key
      ensures Valid()
      ensures query in queries && query.key == key && query.client == this
      // a live query for the key: reused, the callback appended, nothing registered
      ensures old(FindByKey(queries, key)).Some? ==>
        query == old(FindByKey(queries, key)).value && queries == old(queries) &&
        query.listeners == old(query.listeners) + [callback] &&
        fetched == ShouldFetch(old(query.state), old(query.fetchTime), old(query.options).value.cacheTime, now) &&
        ReusedQuery(query, old(query.state), old(query.data), old(query.error), old(query.fetchTime),
                    old(query.options), old(query.fetchFn), now)
      // none: a new query seeded from the cache, registered, subscribed
      ensures old(FindByKey(queries, key)).None? ==>
        fresh(query) && queries == old(queries) + [query] &&
        query.listeners == [callback] && query.fetchFn == fetchFn &&
        query.options == Some(QueryOptions(options, CachedOptions(cache, key), callOptions)) &&
        fetched == SeedFetches(cache, options, key, callOptions, now) &&
        SeededQuery(query, cache, options, key, callOptions, now)
      ensures cache == old(cache) && options == old(options)
    {
      var found := FindByKey(queries, key);
      if found.Some? {
        query := found.value;
        query.Subscribe(callback);
        fetched := ShouldFetch(query.state, query.fetchTime, query.options.value.cacheTime, now);
        if fetched {
          var _ := query.RunStart();
        }
        return;
      }
      var cacheOptions := CachedOptions(cache, key);
      query := new Query(key, fetchFn, QueryOptions(options, cacheOptions, callOptions),
                         if key in cache then cache[key].data else Undefined,
                         CachedFetchTime(cache, key), this, now);
      query.Subscribe(callback);
      AppendNewKeyKeepsDistinct(queries, query);
      queries := queries + [query];
      fetched := ShouldFetch(query.state, query.fetchTime, query.options.value.cacheTime, now);
      if fetched {
        var _ := query.RunStart();
      }
    }

    /** `onDestroyQuery(query)`: exactly that query leaves the registry, the
        others keep their order. */
    method OnDestroyQuery(query: Query)
      modifies this`queries
      ensures queries == Without(old(queries), query)
      ensures old(Valid()) ==> Valid()
    {
      if Valid() {
        WithoutKeepsDistinctKeys(queries, query);
      }
      queries := Without(queries, query);
      forall i | 0 <= i < |queries|
        ensures queries[i] in old(queries) && queries[i] != query
      {
        assert queries[i] in Without(old(queries), query);
      }
    }

    /** `getCache()`: the cache map, as a value. */
    function GetCache(): (c: map<string, CacheEntry>)
      reads this
      ensures c == cache
    {
      cache
    }

    /** `clear()`: cache and registry emptied; live queries are dropped without
        being destroyed. */
    method Clear()
      modifies this`cache, this`queries
      ensures cache == map[] && queries == []
      ensures Valid()
    {
      cache := map[];
      queries := [];
    }

    /** `setQueryData(key, data)`.  When a live query for the key holds other
        data the source calls `foundQuery.setData`, which `Query` does not
        define: that call throws a TypeError (`ok` is false) and nothing
        changes.  Otherwise only the cache entry's data is written. */
    method SetQueryData(key: string, data: JsValue) returns (ok: bool)
      modifies this`cache
      ensures var found := FindByKey(queries, key);
        ok <==> !(found.Some? && found.value.data != data)
      ensures ok ==> cache == CacheWithData(old(cache), key, data)
      ensures !ok ==> cache == old(cache)
      ensures old(Valid()) ==> Valid()
    {
      var found := FindByKey(queries, key);
      if found.Some? && found.value.data != data {
        ok := false;
        return;
      }
      cache := CacheWithData(cache, key, data);
      ok := true;
    }

    /** `prefetchQuery(key, fetchFn, options)` at clock reading `now`.
        `callback` is the identity of the private listener closure the call
        creates, so no existing listener equals it.  The promise resolves at
        once with the query's data when that is truthy right after
        find-or-create (and the listener is removed again); otherwise it stays
        pending until `PrefetchListener` runs on the first notification. */
    method PrefetchQuery(key: string, fetchFn: JsValue, callOptions: OptionLayer,
                         callback: JsValue, now: nat)
      returns (query: Query, fetched: bool, promise: PromiseState)
      requires Valid()
      requires forall i :: 0 <= i < |queries| ==> callback !in queries[i].listeners
      modifies this, set q | q in queries && q.key == key
      ensures Valid()
      ensures query.key == key && cache == old(cache) && options == old(options)
      ensures promise == (if Truthy(query.data) then Resolved(query.data) else Unsettled)
      // a live query for the key: reused and kept registered; the private
      // listener stays appended only while the promise is pending
      ensures old(FindByKey(queries, key)).Some? ==>
        query == old(FindByKey(queries, key)).value && queries == old(queries) &&
        query.client == this &&
        fetched == ShouldFetch(old(query.state), old(query.fetchTime), old(query.options).value.cacheTime, now) &&
        ReusedQuery(query, old(query.state), old(query.data), old(query.error), old(query.fetchTime),
                    old(query.options), old(query.fetchFn), now) &&
        (promise.Unsettled? ==> query.listeners == old(query.listeners) + [callback]) &&
        (promise.Resolved? ==> query.listeners == old(query.listeners))
      // none: a new query seeded from the cache; registered while pending,
      // destroyed again (its only listener gone) when it resolves at once
      ensures old(FindByKey(queries, key)).None? ==>
        fresh(query) &&
        fetched == SeedFetches(cache, options, key, callOptions, now) &&
        SeededQuery(query, cache, options, key, callOptions, now) &&
        (promise.Unsettled? ==>
          queries == old(queries) + [query] && query.client == this && query.listeners == [callback] &&
          query.fetchFn == fetchFn &&
          query.options == Some(QueryOptions(options, CachedOptions(cache, key), callOptions))) &&
        (promise.Resolved? ==>
          queries == old(queries) && query.client == null && query.listeners == [] &&
          query.fetchFn == Null && query.options == None)
    {
      var found := FindByKey(queries, key);
      ghost var before := queries;
      if found.Some? {
        assert found.value in queries;
        ghost var heard := found.value.listeners;
        assert heard != [] && callback !in heard;
        query, fetched := GetOrCreateQuery(key, fetchFn, callOptions, callback, now);
        if Truthy(query.data) {
          WithoutAppend(heard, [callback], callback);
          WithoutAbsent(heard, callback);
          assert Without([callback], callback) == [];
          var _ := query.Unsubscribe(callback);
          promise := Resolved(query.data);
        } else {
          promise := Unsettled;
        }
      } else {
        query, fetched := GetOrCreateQuery(key, fetchFn, callOptions, callback, now);
        assert query !in before;
        if Truthy(query.data) {
          WithoutAppend(before, [query], query);
          WithoutAbsent(before, query);
          assert Without([query], query) == [];
          assert Without([callback], callback) == [];
          var _ := query.Unsubscribe(callback);
          promise := Resolved(query.data);
        } else {
          promise := Unsettled;
        }
      }
    }
  }

  /** A cached entry with truthy data and an infinite cache time never
      triggers a fetch when its query is created. */
  lemma CacheHitWithInfiniteCacheTimeDoesNotFetch(cache: map<string, CacheEntry>, key: string, now: nat,
                                                   opts: Options)
    requires Truthy(CachedData(cache, key)) && opts.cacheTime == Infinite
    ensures !ShouldFetch(SeedState(CachedData(cache, key)),
                         SeedFetchTime(CachedData(cache, key), CachedFetchTime(cache, key), now),
                         opts.cacheTime, now)
  {
  }

  /** `prefetchQuery` on a key with truthy cached data, no live query and an
      infinite layered cache time: the promise resolves at once with the
      cached data, no fetch starts, and the query created for the call is
      destroyed again, leaving the registry as it was. */
  method PrefetchFromCacheResolvesAtOnce(client: QueryClient, key: string, fetchFn: JsValue,
                                         callOptions: OptionLayer, callback: JsValue, now: nat)
    returns (promise: PromiseState, fetched: bool)
    requires client.Valid()
    requires forall i :: 0 <= i < |client.queries| ==> callback !in client.queries[i].listeners
    requires FindByKey(client.queries, key).None?
    requires Truthy(CachedData(client.cache, key))
    requires QueryOptions(client.options, CachedOptions(client.cache, key), callOptions).cacheTime == Infinite
    modifies client
    ensures promise == Resolved(CachedData(client.cache, key)) && !fetched
    ensures client.queries == old(client.queries) && client.Valid()
  {
    assert (set q | q in client.queries && q.key == key) == {};
    var query;
    query, fetched, promise := client.PrefetchQuery(key, fetchFn, callOptions, callback, now);
  }

  /** A key without cached data always fetches when its query is created. */
  lemma CacheMissFetches(cache: map<string, CacheEntry>, key: string, now: nat, opts: Options)
    requires !Truthy(CachedData(cache, key))
    ensures ShouldFetch(SeedState(CachedData(cache, key)),
                        SeedFetchTime(CachedData(cache, key), CachedFetchTime(cache, key), now),
                        opts.cacheTime, now)
  {
  }
}
