/** The data loader: the cache policy applied when a navigation asks for its
    data (`load_data_promise`), the bookkeeping done when a load settles
    (`on_result`), the retrying wrapper around the route's loader, and
    `use_data`. A load is a start event, which registers a `Handle` in the
    in-flight store, and a later settle event with the loader's outcome. */
module Loader {
  import opened Wrappers
  import opened Values
  import opened Constants
  import opened Routing
  import opened CachedEntries
  import opened Cached

  /** The loader's state as a value: the one-shot initial-request flag, the data
      cache, the in-flight loads, and the identity the next load will get. */
  datatype LoadState = LoadState(
    initial: bool,
    cachedData: map<string, CachedData>,
    inFlight: map<string, Handle>,
    nextId: nat)

  /** Every in-flight load is filed under its own key, and was issued before. */
  predicate InFlightKeyed(s: LoadState) {
    forall k :: k in s.inFlight ==> s.inFlight[k].routeMatch.key == k && s.inFlight[k].id < s.nextId
  }

  /** `create_in_flight_data_promise()`: joins the load in flight for the key, or
      issues a new one and files it under the key. */
  function StartOrJoin(s: LoadState, m: Match, ctx: RoutingContext): (r: (LoadState, Handle))
    ensures m.key in r.0.inFlight && r.0.inFlight[m.key] == r.1
    ensures r.0.initial == s.initial && r.0.cachedData == s.cachedData
    ensures m.key in s.inFlight ==> r == (s, s.inFlight[m.key])
    ensures m.key !in s.inFlight ==>
      && r.1 == Handle(s.nextId, m, ctx)
      && r.0.nextId == s.nextId + 1
      && r.0.inFlight == s.inFlight[m.key := r.1]
  {
    if m.key in s.inFlight then (s, s.inFlight[m.key])
    else
      var h := Handle(s.nextId, m, ctx);
      (s.(inFlight := s.inFlight[m.key := h], nextId := s.nextId + 1), h)
  }

  datatype LoadResult = LoadResult(state: LoadState, promise: Result<DataPromise, Error>)

  /** Age test of `STALE_WHILE_REVALIDATE`: marked stale, or older than the route's `stale_time`. */
  predicate NeedsRevalidation(cached: CachedData, route: RouteConfig, now: int) {
    cached.stale || now - cached.fetchedAt > route.staleTime
  }

  /** `load_data_promise(context, force)` for the match `m` of `ctx`. */
  function Load(s: LoadState, m: Match, ctx: RoutingContext, force: bool, now: int): (r: LoadResult)
    ensures !r.state.initial
  {
    var s1 := s.(initial := false);
    var key := m.key;
    if key in s.cachedData && !force then
      var cached := s.cachedData[key];
      if s.initial then
        var s2 := if cached.mode == NoCache then s1.(cachedData := s1.cachedData - {key}) else s1;
        LoadResult(s2, Ok(Resolved(cached.data)))
      else
        match cached.mode
        case NoCache =>
          var (s2, h) := StartOrJoin(s1.(cachedData := s1.cachedData - {key}), m, ctx);
          LoadResult(s2, Ok(Pending(h)))
        case CacheFirst =>
          LoadResult(s1, Ok(Resolved(cached.data)))
        case NetworkFirst =>
          var (s2, h) := StartOrJoin(s1, m, ctx);
          LoadResult(s2, Ok(Pending(h)))
        case StaleWhileRevalidate =>
          var s2 := if NeedsRevalidation(cached, m.route, now) then StartOrJoin(s1, m, ctx).0 else s1;
          LoadResult(s2, Ok(Resolved(cached.data)))
        case Unknown =>
          LoadResult(s1, Err(UnknownCacheMode))
    else
      var (s2, h) := StartOrJoin(s1, m, ctx);
      LoadResult(s2, Ok(Pending(h)))
  }

  /** The first request is served from the cache without starting a load, and an
      entry cached with NO_CACHE (it came with the startup data) is used once and dropped. */
  lemma LoadInitialHit(s: LoadState, m: Match, ctx: RoutingContext, now: int)
    requires s.initial && m.key in s.cachedData
    ensures var r, cached := Load(s, m, ctx, false, now), s.cachedData[m.key];
      && r.promise == Ok(Resolved(cached.data))
      && r.state.inFlight == s.inFlight && r.state.nextId == s.nextId
      && r.state.cachedData == (if cached.mode == NoCache then s.cachedData - {m.key} else s.cachedData)
  {
  }

  /** After the first request the policy comes from the cached entry's own mode. */
  lemma LoadCachedPolicy(s: LoadState, m: Match, ctx: RoutingContext, now: int)
    requires !s.initial && m.key in s.cachedData
    ensures var r, cached := Load(s, m, ctx, false, now), s.cachedData[m.key];
      && (cached.mode == NoCache ==>
            && m.key !in r.state.cachedData
            && r.promise == Ok(Pending(r.state.inFlight[m.key])))
      && (cached.mode == CacheFirst ==>
            r == LoadResult(s, Ok(Resolved(cached.data))))
      && (cached.mode == NetworkFirst ==>
            && r.state.cachedData == s.cachedData
            && r.promise == Ok(Pending(r.state.inFlight[m.key])))
      && (cached.mode == StaleWhileRevalidate ==>
            && r.state.cachedData == s.cachedData
            && r.promise == Ok(Resolved(cached.data)))
      && (cached.mode == Unknown ==>
            r == LoadResult(s, Err(UnknownCacheMode)))
  {
  }

  /** STALE_WHILE_REVALIDATE starts (or joins) a background load exactly when the
      entry is marked stale or older than `stale_time`. */
  lemma LoadRevalidates(s: LoadState, m: Match, ctx: RoutingContext, now: int)
    requires !s.initial && m.key in s.cachedData
    requires s.cachedData[m.key].mode == StaleWhileRevalidate
    requires m.key !in s.inFlight
    ensures var r := Load(s, m, ctx, false, now);
      m.key in r.state.inFlight <==> NeedsRevalidation(s.cachedData[m.key], m.route, now)
  {
  }

  /** Without a usable cache entry (none, or `force`), the request starts or joins a load. */
  lemma LoadMiss(s: LoadState, m: Match, ctx: RoutingContext, force: bool, now: int)
    requires m.key !in s.cachedData || force
    ensures var r := Load(s, m, ctx, force, now);
      && r.state.cachedData == s.cachedData
      && r.promise == Ok(Pending(r.state.inFlight[m.key]))
  {
  }

  /** While a load for the key is in flight no second one is issued: the request
      joins it (or is served from the cache). */
  lemma LoadDeduplicates(s: LoadState, m: Match, ctx: RoutingContext, force: bool, now: int)
    requires m.key in s.inFlight
    ensures var r := Load(s, m, ctx, force, now);
      && r.state.nextId == s.nextId
      && r.state.inFlight == s.inFlight
      && (r.promise.Ok? && r.promise.value.Pending? ==> r.promise.value.handle == s.inFlight[m.key])
  {
  }

  /** A request issues at most one load, and keeps every in-flight load filed under its key. */
  lemma LoadKeepsInFlightKeyed(s: LoadState, m: Match, ctx: RoutingContext, force: bool, now: int)
    requires InFlightKeyed(s)
    ensures var r := Load(s, m, ctx, force, now);
      InFlightKeyed(r.state) && s.nextId <= r.state.nextId <= s.nextId + 1
  {
  }

  /** `on_result`: the in-flight entry for the key is dropped; on success the data
      is cached unless the route's policy is NO_CACHE. */
  function SettleState(s: LoadState, h: Handle, outcome: Outcome, now: int): (r: LoadState)
    ensures r.initial == s.initial && r.nextId == s.nextId
  {
    var key := h.routeMatch.key;
    var route := h.routeMatch.route;
    var s1 := s.(inFlight := s.inFlight - {key});
    if outcome.Returned? && route.cacheData != NoCache then
      s1.(cachedData := s1.cachedData[key := NewCachedData(outcome.value, h.routeMatch.location,
                                                           route.cacheData, route.gcTime, now)])
    else s1
  }

  /** However the load ended, nothing stays in flight for its key; the cache
      changes only for a successful load of a cacheable route, and then only at
      that key, with a fresh entry. */
  lemma SettleEffects(s: LoadState, h: Handle, outcome: Outcome, now: int)
    ensures var r, key, route := SettleState(s, h, outcome, now), h.routeMatch.key, h.routeMatch.route;
      && key !in r.inFlight
      && (forall k :: k != key ==> (k in r.inFlight <==> k in s.inFlight))
      && (outcome.Raised? || route.cacheData == NoCache ==> r.cachedData == s.cachedData)
      && (outcome.Returned? && route.cacheData != NoCache ==>
            && key in r.cachedData
            && r.cachedData[key].data == outcome.value
            && r.cachedData[key].mode == route.cacheData
            && r.cachedData[key].fetchedAt == now
            && !r.cachedData[key].stale
            && (forall k :: k != key ==> (k in r.cachedData <==> k in s.cachedData)))
  {
  }

  /** Settling keeps every remaining in-flight load filed under its key. */
  lemma SettleKeepsInFlightKeyed(s: LoadState, h: Handle, outcome: Outcome, now: int)
    requires InFlightKeyed(s)
    ensures InFlightKeyed(SettleState(s, h, outcome, now))
  {
  }

  /** `wrapped_loader(retries)`: calls the route's loader (the `i`-th call ends
      as `call(i)`); AppOfflineError is retried once, then answered from the
      cache if the key is cached there, else re-raised. Returns the outcome and
      the number of loader calls made. */
  function WrappedLoader(call: nat -> Outcome, retries: nat, cached: Option<Value>): (r: (Outcome, nat))
    decreases if retries == 0 then 1 else 0
  {
    var result := call(retries);
    if result != Raised(AppOffline) then (result, retries + 1)
    else if retries == 0 then WrappedLoader(call, retries + 1, cached)
    else if cached.Some? then (Returned(cached.value), retries + 1)
    else (result, retries + 1)
  }

  /** The loader is called once, or twice exactly when the first call is AppOffline;
      any other error propagates unchanged; when both calls are offline the
      cached data is returned, and AppOffline escapes only when nothing is cached. */
  lemma {:induction false} WrappedLoaderRetriesOnce(call: nat -> Outcome, cached: Option<Value>)
    ensures var (out, calls) := WrappedLoader(call, 0, cached);
      && 1 <= calls <= 2
      && (calls == 2 <==> call(0) == Raised(AppOffline))
      && (calls == 1 ==> out == call(0))
      && (calls == 2 && call(1) != Raised(AppOffline) ==> out == call(1))
      && (out == Raised(AppOffline) <==> call(0) == call(1) == Raised(AppOffline) && cached.None?)
      && (call(0) == call(1) == Raised(AppOffline) && cached.Some? ==> out == Returned(cached.value))
      && (out.Raised? && out.error != AppOffline ==> out == call(calls - 1))
  {
    if call(0) == Raised(AppOffline) {
      assert WrappedLoader(call, 0, cached) == WrappedLoader(call, 1, cached);
    }
  }

  /** What `await_promise` gives for a promise, given how an in-flight load ends:
      the data, or the error `use_data` re-raises. */
  function AwaitData(p: DataPromise, settled: Outcome): (r: Result<Value, Error>)
    ensures p.Resolved? ==> r == Ok(p.data)
    ensures p.Pending? ==> (r.Ok? <==> settled.Returned?)
    ensures p.Pending? && settled.Raised? ==> r == Err(settled.error)
    ensures p.Pending? && settled.Returned? ==> r == Ok(settled.value)
  {
    match p
    case Resolved(data) => Ok(data)
    case Pending(_) =>
      match settled
      case Returned(v) => Ok(v)
      case Raised(e) => Err(e)
  }

  /** The loader: the shared stores plus its own one-shot flag and load counter. */
  class DataLoader {
    const stores: Stores
    var initialRequest: bool
    var nextId: nat

    constructor (stores: Stores)
      ensures this.stores == stores && initialRequest && nextId == 0
    {
      this.stores := stores;
      initialRequest := true;
      nextId := 0;
    }

    function State(): LoadState
      reads this, stores
    {
      LoadState(initialRequest, stores.cachedData, stores.inFlight, nextId)
    }

    /** `create_in_flight_data_promise()`. */
    method CreateInFlight(m: Match, ctx: RoutingContext) returns (h: Handle)
      modifies this, stores
      ensures (State(), h) == StartOrJoin(old(State()), m, ctx)
      ensures stores.cachedForms == old(stores.cachedForms)
    {
      if m.key in stores.inFlight {
        return stores.inFlight[m.key];
      }
      h := Handle(nextId, m, ctx);
      stores.inFlight := stores.inFlight[m.key := h];
      nextId := nextId + 1;
    }

    /** `load_data_promise(context, force)`. */
    method LoadDataPromise(ctx: RoutingContext, force: bool, now: int) returns (r: Result<DataPromise, Error>)
      modifies this, stores
      ensures var spec := Load(old(State()), ctx.routeMatch, ctx, force, now);
        State() == spec.state && r == spec.promise
      ensures stores.cachedForms == old(stores.cachedForms)
    {
      var m := ctx.routeMatch;
      var isInitial := initialRequest;
      initialRequest := false;
      var key := m.key;
      if key in stores.cachedData && !force {
        var cached := stores.cachedData[key];
        if isInitial {
          r := Ok(Resolved(cached.data));
          if cached.mode == NoCache {
            stores.cachedData := stores.cachedData - {key};
          }
        } else if cached.mode == NoCache {
          stores.cachedData := stores.cachedData - {key};
          var h := CreateInFlight(m, ctx);
          r := Ok(Pending(h));
        } else if cached.mode == CacheFirst {
          r := Ok(Resolved(cached.data));
        } else if cached.mode == NetworkFirst {
          var h := CreateInFlight(m, ctx);
          r := Ok(Pending(h));
        } else if cached.mode == StaleWhileRevalidate {
          r := Ok(Resolved(cached.data));
          if cached.stale || now - cached.fetchedAt > m.route.staleTime {
            var _ := CreateInFlight(m, ctx);
          }
        } else {
          r := Err(UnknownCacheMode);
        }
      } else {
        var h := CreateInFlight(m, ctx);
        r := Ok(Pending(h));
      }
    }

    /** `on_result((data, error))` for the load `h`: drops the in-flight entry,
        caches a success unless the route is NO_CACHE, and hands the result to
        the load's context. */
    method OnResult(h: Handle, outcome: Outcome, now: int)
      modifies stores, h.context
      ensures State() == SettleState(old(State()), h, outcome, now)
      ensures stores.cachedForms == old(stores.cachedForms)
      ensures outcome.Raised? ==> h.context.data == Null && h.context.error == Some(outcome.error)
      ensures outcome.Returned? ==> h.context.data == outcome.value && h.context.error == None
    {
      var key := h.routeMatch.key;
      stores.inFlight := stores.inFlight - {key};
      match outcome {
        case Raised(e) =>
          h.context.SetData(Null, Some(e));
        case Returned(data) =>
          var route := h.routeMatch.route;
          if route.cacheData != NoCache {
            var cached := NewCachedData(data, h.routeMatch.location, route.cacheData, route.gcTime, now);
            stores.cachedData := stores.cachedData[key := cached];
          }
          h.context.SetData(data, None);
      }
    }

    /** `use_data(...)` for the match `m` the navigation arguments resolve to:
        cached data first, then a load in flight, else a new load with a new
        context; the promise is then awaited, `settled` being how an in-flight
        load ends, and its error is raised to the caller. `started` is the load
        the call issued, if any. */
    method UseData(m: Match, settled: Outcome, now: int) returns (r: Result<Value, Error>, ghost started: Option<Handle>)
      modifies this, stores
      ensures stores.cachedForms == old(stores.cachedForms)
      ensures m.key in old(stores.cachedData) ==>
        r == Ok(old(stores.cachedData)[m.key].data) && State() == old(State()) && started.None?
      ensures m.key !in old(stores.cachedData) && m.key in old(stores.inFlight) ==>
        r == AwaitData(Pending(old(stores.inFlight)[m.key]), settled) && State() == old(State()) && started.None?
      ensures m.key !in old(stores.cachedData) && m.key !in old(stores.inFlight) ==>
        && started.Some?
        && fresh(started.value.context)
        && started.value == Handle(old(nextId), m, started.value.context)
        && State() == Load(old(State()), m, started.value.context, false, now).state
        && r == AwaitData(Pending(started.value), settled)
      ensures r.Err? ==> settled.Raised? && r.error == settled.error
    {
      var promise: DataPromise;
      started := None;
      if m.key in stores.cachedData {
        promise := Resolved(stores.cachedData[m.key].data);
      } else if m.key in stores.inFlight {
        promise := Pending(stores.inFlight[m.key]);
      } else {
        var ctx := new RoutingContext(m, [], []);
        var loaded := LoadDataPromise(ctx, false, now);
        promise := loaded.value;
        started := Some(promise.handle);
      }
      r := AwaitData(promise, settled);
    }
  }
}
