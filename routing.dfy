/** The entities the core passes around but whose own modules (segments, the
    matcher, the routing context, the browser history) are not part of this
    model: only the attributes and effects the core uses are kept. */
module Routing {
  import opened Wrappers
  import opened Values
  import opened Constants

  /** A path segment: static text, a `:param`, or another kind the URL builder skips. */
  datatype Segment = Static(value: string) | Param(value: string) | Other(value: string)

  /** `any(segment.is_param() for segment in segments)`. */
  predicate HasParam(segments: seq<Segment>) {
    exists i :: 0 <= i < |segments| && segments[i].Param?
  }

  /** A history location; `path` is None for a location that only changes search or hash. */
  datatype Location = Location(path: Option<string>, search: string, hash: string, key: string)

  /** A `before_load` hook method, by identity. */
  type HookId = nat

  /** A mounted form instance, by identity. */
  type FormRef = nat

  /** The class attributes of a `Route` subclass that the core reads or writes.
      Form attributes are `Null` when unset (None). */
  datatype RouteConfig = RouteConfig(
    id: nat,
    path: Value,
    segments: seq<Segment>,
    form: Value,
    errorForm: Value,
    notFoundForm: Value,
    pendingForm: Value,
    cacheData: CacheMode,
    staleTime: int,
    gcTime: int,
    cacheForm: bool,
    hooks: seq<HookId>)

  /** The defaults of `Route`'s class body for a class with identity `id`. */
  function DefaultRoute(id: nat): (r: RouteConfig)
    ensures r.id == id && r.path == Null && r.segments == [] && r.hooks == []
    ensures r.cacheData == NoCache && r.staleTime == 0 && r.gcTime == 30 * 60 && !r.cacheForm
    ensures r.form == r.errorForm == r.notFoundForm == r.pendingForm == Null
  {
    RouteConfig(id, Null, [], Null, Null, Null, Null, NoCache, 0, 30 * 60, false, [])
  }

  /** A matcher result: the cache key of the location, its route and the location. */
  datatype Match = Match(key: string, route: RouteConfig, location: Location)

  /** The routing context of one navigation: its match, the dicts it carries and
      the `(data, error)` pair the loader or the navigation sets on it. */
  class RoutingContext {
    const routeMatch: Match
    var navContext: seq<(string, Value)>
    var formProperties: seq<(string, Value)>
    var data: Value
    var error: Option<Error>

    constructor (routeMatch: Match, navContext: seq<(string, Value)>, formProperties: seq<(string, Value)>)
      ensures this.routeMatch == routeMatch && this.navContext == navContext && this.formProperties == formProperties
      ensures data == Null && error == None
    {
      this.routeMatch := routeMatch;
      this.navContext := navContext;
      this.formProperties := formProperties;
      data := Null;
      error := None;
    }

    /** `set_data(data, error=None)`. */
    method SetData(data: Value, error: Option<Error>)
      modifies this
      ensures this.data == data && this.error == error
      ensures navContext == old(navContext) && formProperties == old(formProperties)
    {
      this.data := data;
      this.error := error;
    }
  }

  /** An in-flight data load (`call_async(wrapped_loader, ...)`), by identity, with
      what its `on_result` callback closes over. */
  datatype Handle = Handle(id: nat, routeMatch: Match, context: RoutingContext)

  /** A data promise: one already resolved with cached data (`Result(cached.data)`)
      or a load still in flight. */
  datatype DataPromise = Resolved(data: Value) | Pending(handle: Handle)

  /** How a call into application code ended. */
  datatype Outcome = Returned(value: Value) | Raised(error: Error)

  /** A call the router makes on the browser history. */
  datatype HistoryOp = Went(delta: int) | Reloaded | Pushed(location: Location) | Replaced(location: Location)

  /** The browser history: its current location and the calls made on it, in order. */
  class History {
    var location: Location
    var ops: seq<HistoryOp>

    constructor (location: Location)
      ensures this.location == location && ops == []
    {
      this.location := location;
      ops := [];
    }

    /** `history.go(delta)`. */
    method Go(delta: int)
      modifies this
      ensures ops == old(ops) + [Went(delta)] && location == old(location)
    {
      ops := ops + [Went(delta)];
    }

    /** `history.reload()`. */
    method Reload()
      modifies this
      ensures ops == old(ops) + [Reloaded] && location == old(location)
    {
      ops := ops + [Reloaded];
    }

    /** `history.push(location)`. */
    method Push(loc: Location)
      modifies this
      ensures ops == old(ops) + [Pushed(loc)] && location == loc
    {
      ops := ops + [Pushed(loc)];
      location := loc;
    }

    /** `history.replace(location)`. */
    method Replace(loc: Location)
      modifies this
      ensures ops == old(ops) + [Replaced(loc)] && location == loc
    {
      ops := ops + [Replaced(loc)];
      location := loc;
    }
  }
}
