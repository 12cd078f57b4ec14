/** The pure decisions of the cache engine: the fetch states of a query, the
    layered query options, the staleness test `shouldFetchQuery` and the
    timestamps a query records (src/core/Query.js, src/core/QueryClient.js). */
module QueryPolicy {
  import opened JsValues

  /** `QueryStates`, spelled as in the source. */
  datatype QueryState = INITAL | PENDING | FULLFILLED | FAILED

  /** `options.cacheTime`: a number of milliseconds, or `Infinity`. */
  datatype CacheTime = Finite(ms: nat) | Infinite

  /** A fully resolved options record: every layer starts from the defaults,
      which set both keys. */
  datatype Options = Options(keepPreviousData: bool, cacheTime: CacheTime)

  /** One options object as given by a caller, the client config or a cache
      entry; a key it does not mention is `None`. */
  datatype OptionLayer = OptionLayer(keepPreviousData: Option<bool>, cacheTime: Option<CacheTime>)

  /** `{}` and a missing (`undefined`) options argument alike. */
  const NoOptions := OptionLayer(None, None)

  /** The module-level `options` of QueryClient.js. */
  const Defaults := Options(false, Infinite)

  /** `{ ...base, ...layer }`. */
  function Spread(base: Options, layer: OptionLayer): (r: Options)
    ensures layer.keepPreviousData.Some? ==> r.keepPreviousData == layer.keepPreviousData.value
    ensures layer.keepPreviousData.None? ==> r.keepPreviousData == base.keepPreviousData
    ensures layer.cacheTime.Some? ==> r.cacheTime == layer.cacheTime.value
    ensures layer.cacheTime.None? ==> r.cacheTime == base.cacheTime
  {
    Options(
      match layer.keepPreviousData case Some(k) => k case None => base.keepPreviousData,
      match layer.cacheTime case Some(c) => c case None => base.cacheTime)
  }

  /** `{ ...base, ...layers[0], ...layers[1], ... }`, spread left to right. */
  function SpreadAll(base: Options, layers: seq<OptionLayer>): Options
    decreases |layers|
  {
    if layers == [] then base
    else Spread(SpreadAll(base, layers[..|layers| - 1]), layers[|layers| - 1])
  }

  /** Later layers win: each key of the merged record comes from the last layer
      that mentions it, and from `base` when no layer does. */
  lemma {:induction false} LastLayerWins(base: Options, layers: seq<OptionLayer>)
    ensures (forall i :: 0 <= i < |layers| ==> layers[i].cacheTime.None?) ==>
      SpreadAll(base, layers).cacheTime == base.cacheTime
    ensures forall i :: (0 <= i < |layers| && layers[i].cacheTime.Some? &&
                         (forall j :: i < j < |layers| ==> layers[j].cacheTime.None?)) ==>
      SpreadAll(base, layers).cacheTime == layers[i].cacheTime.value
    ensures (forall i :: 0 <= i < |layers| ==> layers[i].keepPreviousData.None?) ==>
      SpreadAll(base, layers).keepPreviousData == base.keepPreviousData
    ensures forall i :: (0 <= i < |layers| && layers[i].keepPreviousData.Some? &&
                         (forall j :: i < j < |layers| ==> layers[j].keepPreviousData.None?)) ==>
      SpreadAll(base, layers).keepPreviousData == layers[i].keepPreviousData.value
    decreases |layers|
  {
    if layers != [] {
      var init := layers[..|layers| - 1];
      LastLayerWins(base, init);
      assert forall i :: 0 <= i < |init| ==> init[i] == layers[i];
    }
  }

  /** The options a client keeps: `{ ...options, ...defaultOptions }`. */
  function ClientOptions(defaultOptions: OptionLayer): (r: Options)
    ensures r == SpreadAll(Defaults, [defaultOptions])
  {
    Spread(Defaults, defaultOptions)
  }

  /** The options of a new query:
      `{ ...client.options, ...cacheOptions, ...callOptions }`. */
  function QueryOptions(client: Options, cacheOptions: OptionLayer, callOptions: OptionLayer): (r: Options)
    ensures r.keepPreviousData ==
      (if callOptions.keepPreviousData.Some? then callOptions.keepPreviousData.value
       else if cacheOptions.keepPreviousData.Some? then cacheOptions.keepPreviousData.value
       else client.keepPreviousData)
    ensures r.cacheTime ==
      (if callOptions.cacheTime.Some? then callOptions.cacheTime.value
       else if cacheOptions.cacheTime.Some? then cacheOptions.cacheTime.value
       else client.cacheTime)
  {
    Spread(Spread(client, cacheOptions), callOptions)
  }

  /** The whole precedence chain of a new query's options:
      defaults < client defaultOptions < cache entry options < call options. */
  lemma QueryOptionsPrecedence(defaultOptions: OptionLayer, cacheOptions: OptionLayer, callOptions: OptionLayer)
    ensures QueryOptions(ClientOptions(defaultOptions), cacheOptions, callOptions)
         == SpreadAll(Defaults, [defaultOptions, cacheOptions, callOptions])
  {
    var layers := [defaultOptions, cacheOptions, callOptions];
    assert layers[..2] == [defaultOptions, cacheOptions];
    assert layers[..2][..1] == [defaultOptions];
    assert [defaultOptions][..0] == [];
  }

  /** A fetch time read as a JS value: `null`, and also `0`, are falsy. */
  predicate TimeTruthy(t: Option<nat>) {
    t.Some? && t.value != 0
  }

  /** `shouldFetchQuery(query)`, on the query's state, fetch time and
      `options.cacheTime`, at time `now`. */
  function ShouldFetch(state: QueryState, fetchTime: Option<nat>, cacheTime: CacheTime, now: nat): (r: bool)
    ensures state == PENDING ==> !r
    ensures state == INITAL || state == FAILED ==> r
    ensures state == FULLFILLED ==>
      (r <==> TimeTruthy(fetchTime) && cacheTime.Finite? && now >= fetchTime.value + cacheTime.ms)
  {
    if state == PENDING then false
    else if state == FULLFILLED then
      if TimeTruthy(fetchTime) && cacheTime != Infinite then
        now - (fetchTime.value + cacheTime.ms) > -1
      else false
    else true
  }

  /** The staleness policy case by case. */
  lemma ShouldFetchCases(state: QueryState, fetchTime: Option<nat>, cacheTime: CacheTime, now: nat)
    ensures state == PENDING ==> !ShouldFetch(state, fetchTime, cacheTime, now)
    ensures state == INITAL || state == FAILED ==> ShouldFetch(state, fetchTime, cacheTime, now)
    ensures state == FULLFILLED && (cacheTime == Infinite || !TimeTruthy(fetchTime)) ==>
      !ShouldFetch(state, fetchTime, cacheTime, now)
    ensures state == FULLFILLED && cacheTime.Finite? && TimeTruthy(fetchTime) ==>
      (ShouldFetch(state, fetchTime, cacheTime, now) <==> now >= fetchTime.value + cacheTime.ms)
  {
  }

  /** The boundary is inclusive: a query fetched at `t` with cache time `c` is
      fresh one millisecond before `t + c` and stale exactly at `t + c`. */
  lemma StalenessBoundary(t: nat, c: nat)
    requires t > 0
    ensures t + c >= 1 ==> !ShouldFetch(FULLFILLED, Some(t), Finite(c), t + c - 1)
    ensures ShouldFetch(FULLFILLED, Some(t), Finite(c), t + c)
  {
  }

  /** The state a query starts in: `data ? FULLFILLED : INITAL`. */
  function SeedState(data: JsValue): (s: QueryState)
    ensures s == FULLFILLED || s == INITAL
    ensures s == FULLFILLED <==> Truthy(data)
  {
    if Truthy(data) then FULLFILLED else INITAL
  }

  /** The fetch time a query starts with: `data ? fetchTime || now() : null`. */
  function SeedFetchTime(data: JsValue, fetchTime: Option<nat>, now: nat): (t: Option<nat>)
    ensures !Truthy(data) <==> t.None?
    ensures Truthy(data) && TimeTruthy(fetchTime) ==> t == fetchTime
    ensures Truthy(data) && !TimeTruthy(fetchTime) ==> t == Some(now)
  {
    if !Truthy(data) then None
    else if TimeTruthy(fetchTime) then fetchTime
    else Some(now)
  }

  /** `Math.max(now, prevFetchTime + 1)`, where `null + 1` is `1`. */
  function NextFetchTime(prev: Option<nat>, now: nat): (t: nat)
    ensures t >= now && t >= 1
    ensures prev.Some? ==> t > prev.value
    ensures t == now || t == (match prev case Some(p) => p + 1 case None => 1)
  {
    var bumped := match prev case Some(p) => p + 1 case None => 1;
    if now > bumped then now else bumped
  }

  /** The fetch times recorded by successive successful completions of one
      query, each at its own clock reading, starting from `prev`. */
  function CompletionTimes(prev: Option<nat>, clock: seq<nat>): (ts: seq<nat>)
    ensures |ts| == |clock|
    decreases |clock|
  {
    if clock == [] then []
    else
      var t := NextFetchTime(prev, clock[0]);
      [t] + CompletionTimes(Some(t), clock[1..])
  }

  /** Fetch times strictly increase across completions, whatever order the
      clock readings come in, and each is at least its clock reading. */
  lemma {:induction false} CompletionTimesIncrease(prev: Option<nat>, clock: seq<nat>)
    ensures forall i :: 0 <= i < |clock| ==> CompletionTimes(prev, clock)[i] >= clock[i]
    ensures prev.Some? && |clock| > 0 ==> CompletionTimes(prev, clock)[0] > prev.value
    ensures forall i :: 0 < i < |clock| ==>
      CompletionTimes(prev, clock)[i] >= CompletionTimes(prev, clock)[i - 1] + 1
    decreases |clock|
  {
    if clock != [] {
      var t := NextFetchTime(prev, clock[0]);
      var ts := CompletionTimes(prev, clock);
      var rest := CompletionTimes(Some(t), clock[1..]);
      CompletionTimesIncrease(Some(t), clock[1..]);
      assert ts == [t] + rest;
      forall i | 0 < i < |clock|
        ensures ts[i] >= ts[i - 1] + 1
      {
        assert ts[i] == rest[i - 1];
        if i > 1 {
          assert ts[i - 1] == rest[i - 2];
        }
      }
    }
  }
}
