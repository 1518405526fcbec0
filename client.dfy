/** The router client: the navigation and before-unload blockers, the history
    listener's state machine, cache garbage collection, `on_navigate` and the
    decision skeleton of `_do_navigate`. The module globals of the client
    (`waiting`, `undoing`, `redirect`, `current`, the two blocker sets, the
    form-to-context map and the current context) are the fields of one `Client`
    object; what the host does in between (the matcher, form mounting, the
    race between a load and the pending delay, other navigations that move the
    history on) arrives as inputs. */
module Client {
  import opened Wrappers
  import opened Values
  import opened Utils
  import opened Exceptions
  import opened Constants
  import opened Routing
  import opened CachedEntries
  import opened Cached
  import opened Loader
  import opened RouteRegistry

  /** `UnloadBlocker()`: an identity that can hold the before-unload listener. */
  class UnloadBlocker {
    constructor ()
    {
    }
  }

  /** `NavigationBlocker(warn_before_unload)`: an identity, its flag and its own unload blocker. */
  class NavigationBlocker {
    const warnBeforeUnload: bool
    const unloadBlocker: UnloadBlocker

    constructor (warnBeforeUnload: bool)
      ensures this.warnBeforeUnload == warnBeforeUnload && fresh(unloadBlocker)
    {
      this.warnBeforeUnload := warnBeforeUnload;
      unloadBlocker := new UnloadBlocker();
    }
  }

  /** A call on `window` for the `beforeunload` listener. */
  datatype WindowOp = AddedBeforeUnload | RemovedBeforeUnload

  /** The blocker globals as a value: `waiting`, the two sets and the listener calls made so far. */
  datatype Blockers = Blockers(
    waiting: bool,
    navigation: set<NavigationBlocker>,
    beforeUnload: set<UnloadBlocker>,
    windowOps: seq<WindowOp>)

  /** The listener calls alternate, starting with an add: the listener is never installed twice. */
  predicate Alternates(ops: seq<WindowOp>) {
    forall i :: 0 <= i < |ops| ==> ops[i] == if i % 2 == 0 then AddedBeforeUnload else RemovedBeforeUnload
  }

  /** `waiting` mirrors the navigation set, and the listener is installed (an odd
      number of alternating calls) exactly while some unload blocker is held. */
  predicate BlockersValid(b: Blockers) {
    && b.waiting == (b.navigation != {})
    && Alternates(b.windowOps)
    && (b.beforeUnload != {} <==> |b.windowOps| % 2 == 1)
  }

  /** A blocker operation's new state and the error it raised, if any; a raise
      after a partial update keeps that update, as in the source. */
  datatype Step = Step(state: Blockers, error: Option<Error>)

  /** `UnloadBlocker.block()`. */
  function UnloadBlock(b: Blockers, u: UnloadBlocker): Blockers {
    var ops := if b.beforeUnload == {} then b.windowOps + [AddedBeforeUnload] else b.windowOps;
    b.(beforeUnload := b.beforeUnload + {u}, windowOps := ops)
  }

  /** `UnloadBlocker.unblock()`: `set.remove` raises KeyError for a non-member. */
  function UnloadUnblock(b: Blockers, u: UnloadBlocker): Step {
    if u !in b.beforeUnload then Step(b, Some(KeyError))
    else
      var rest := b.beforeUnload - {u};
      var ops := if rest == {} then b.windowOps + [RemovedBeforeUnload] else b.windowOps;
      Step(b.(beforeUnload := rest, windowOps := ops), None)
  }

  /** `NavigationBlocker.block()`. */
  function NavigationBlock(b: Blockers, nb: NavigationBlocker): Blockers {
    var b1 := b.(waiting := true, navigation := b.navigation + {nb});
    if nb.warnBeforeUnload then UnloadBlock(b1, nb.unloadBlocker) else b1
  }

  /** `NavigationBlocker.unblock()`. */
  function NavigationUnblock(b: Blockers, nb: NavigationBlocker): Step {
    if nb !in b.navigation then Step(b, Some(KeyError))
    else
      var rest := b.navigation - {nb};
      var b1 := b.(navigation := rest, waiting := rest != {});
      if nb.warnBeforeUnload then UnloadUnblock(b1, nb.unloadBlocker) else Step(b1, None)
  }

  lemma AlternatesSnoc(ops: seq<WindowOp>, op: WindowOp)
    requires Alternates(ops)
    requires op == if |ops| % 2 == 0 then AddedBeforeUnload else RemovedBeforeUnload
    ensures Alternates(ops + [op])
  {
  }

  /** Blocking adds the listener exactly on the empty to non-empty transition and keeps the invariant. */
  lemma UnloadBlockValid(b: Blockers, u: UnloadBlocker)
    requires BlockersValid(b)
    ensures var r := UnloadBlock(b, u);
      && BlockersValid(r)
      && r.beforeUnload == b.beforeUnload + {u}
      && r.waiting == b.waiting && r.navigation == b.navigation
      && r.windowOps == b.windowOps + (if b.beforeUnload == {} then [AddedBeforeUnload] else [])
  {
    if b.beforeUnload == {} {
      AlternatesSnoc(b.windowOps, AddedBeforeUnload);
    }
  }

  /** Unblocking a member removes the listener exactly on the non-empty to empty
      transition; unblocking a non-member raises KeyError and changes nothing. */
  lemma UnloadUnblockValid(b: Blockers, u: UnloadBlocker)
    requires BlockersValid(b)
    ensures var r := UnloadUnblock(b, u);
      && BlockersValid(r.state)
      && (r.error.Some? <==> u !in b.beforeUnload)
      && (r.error.Some? ==> r.error == Some(KeyError) && r.state == b)
      && (r.error.None? ==>
            && r.state.beforeUnload == b.beforeUnload - {u}
            && r.state.waiting == b.waiting && r.state.navigation == b.navigation
            && r.state.windowOps == b.windowOps + (if r.state.beforeUnload == {} then [RemovedBeforeUnload] else []))
  {
    if u in b.beforeUnload && b.beforeUnload - {u} == {} {
      AlternatesSnoc(b.windowOps, RemovedBeforeUnload);
    }
  }

  /** After `block()` the set holds the blocker and `waiting` is set; the unload
      blocker is touched only when `warn_before_unload` is set. */
  lemma NavigationBlockValid(b: Blockers, nb: NavigationBlocker)
    requires BlockersValid(b)
    ensures var r := NavigationBlock(b, nb);
      && BlockersValid(r)
      && r.waiting && r.navigation == b.navigation + {nb}
      && (nb.warnBeforeUnload ==> r.beforeUnload == b.beforeUnload + {nb.unloadBlocker})
      && (!nb.warnBeforeUnload ==> r.beforeUnload == b.beforeUnload && r.windowOps == b.windowOps)
  {
    var b1 := b.(waiting := true, navigation := b.navigation + {nb});
    if nb.warnBeforeUnload {
      UnloadBlockValid(b1, nb.unloadBlocker);
    }
  }

  /** After `unblock()`, `waiting == bool(navigation_blockers)`; a non-member raises
      KeyError before anything changes. */
  lemma NavigationUnblockValid(b: Blockers, nb: NavigationBlocker)
    requires BlockersValid(b)
    ensures var r := NavigationUnblock(b, nb);
      && BlockersValid(r.state)
      && (nb !in b.navigation ==> r == Step(b, Some(KeyError)))
      && (nb in b.navigation ==>
            && r.state.navigation == b.navigation - {nb}
            && r.state.waiting == (b.navigation - {nb} != {})
            && (!nb.warnBeforeUnload ==> r.error.None? && r.state.beforeUnload == b.beforeUnload && r.state.windowOps == b.windowOps)
            && (nb.warnBeforeUnload ==> (r.error.None? <==> nb.unloadBlocker in b.beforeUnload)))
  {
    if nb in b.navigation {
      var rest := b.navigation - {nb};
      var b1 := b.(navigation := rest, waiting := rest != {});
      if nb.warnBeforeUnload {
        UnloadUnblockValid(b1, nb.unloadBlocker);
      }
    }
  }

  /** A blocker held for the duration of a check (`with NavigationBlocker(...)`)
      leaves the sets and `waiting` as they were, and raises nothing, when it was
      not held before; a warning blocker adds and removes the window listener
      exactly when no unload blocker was held. */
  lemma {:induction false} BlockThenUnblockRestores(b: Blockers, nb: NavigationBlocker)
    requires BlockersValid(b)
    requires nb !in b.navigation
    requires nb.warnBeforeUnload ==> nb.unloadBlocker !in b.beforeUnload
    ensures var r := NavigationUnblock(NavigationBlock(b, nb), nb);
      && r.error.None? && BlockersValid(r.state)
      && r.state.waiting == b.waiting
      && r.state.navigation == b.navigation
      && r.state.beforeUnload == b.beforeUnload
      && r.state.windowOps == b.windowOps + (if nb.warnBeforeUnload && b.beforeUnload == {}
                                             then [AddedBeforeUnload, RemovedBeforeUnload] else [])
  {
    NavigationBlockValid(b, nb);
    var mid := NavigationBlock(b, nb);
    NavigationUnblockValid(mid, nb);
    assert mid.navigation - {nb} == b.navigation;
    if nb.warnBeforeUnload {
      var rest := mid.navigation - {nb};
      var b1 := mid.(navigation := rest, waiting := rest != {});
      UnloadUnblockValid(b1, nb.unloadBlocker);
      assert b1.beforeUnload - {nb.unloadBlocker} == b.beforeUnload;
    }
  }

  /** The listener's flags: `waiting` (derived from the blockers), `undoing`,
      `redirect`, and the delta of the last recorded `current` listener arguments. */
  datatype Flags = Flags(waiting: bool, undoing: bool, redirect: bool, current: Option<int>)

  /** What the listener does with a history event. */
  datatype Reaction = Ignore | Undo(delta: int) | Reload | Navigate

  /** `listener(**listener_args)` for an event with the given delta. */
  function Listen(f: Flags, delta: Option<int>): (Flags, Reaction) {
    if f.undoing then (f.(undoing := false), Ignore)
    else if f.waiting then
      if delta.Some? then (f.(undoing := true), Undo(delta.value)) else (f, Reload)
    else
      var f1 := f.(current := delta);
      if f.redirect then (f1, Navigate) else (f1.(redirect := true), Ignore)
  }

  /** `on_navigate` runs exactly for an event that arrives while nothing is being
      undone or blocked and `redirect` is set. */
  lemma ListenNavigatesIff(f: Flags, delta: Option<int>)
    ensures Listen(f, delta).1 == Navigate <==> !f.undoing && !f.waiting && f.redirect
  {
  }

  /** A blocked move with a delta is rolled back with `go(-delta)`, and the history
      event that the rollback itself causes is swallowed, leaving the flags as
      they were before the blocked move. */
  lemma ListenRollsBack(f: Flags, d: int, next: Option<int>)
    requires f.waiting && !f.undoing
    ensures Listen(f, Some(d)).1 == Undo(d)
    ensures Listen(Listen(f, Some(d)).0, next) == (f, Ignore)
  {
  }

  /** A blocked move without a delta reloads the page and changes no flag. */
  lemma ListenReloads(f: Flags)
    requires f.waiting && !f.undoing
    ensures Listen(f, None) == (f, Reload)
  {
  }

  /** A cleared `redirect` suppresses exactly one navigation: the event is recorded
      as `current`, and the next unblocked event navigates. */
  lemma ListenRedirectOneShot(f: Flags, d: Option<int>, e: Option<int>)
    requires !f.undoing && !f.waiting && !f.redirect
    ensures Listen(f, d) == (f.(current := d, redirect := true), Ignore)
    ensures Listen(Listen(f, d).0, e) == (f.(current := e, redirect := true), Navigate)
  {
  }

  /** `_should_gc` sweep of `gc()` over the data cache. */
  function Collect(data: map<string, CachedData>, now: int): map<string, CachedData> {
    map k | k in data && !ShouldGc(data[k], now) :: data[k]
  }

  /** The matching sweep over the form cache: a form goes with its data entry,
      and a form without a data entry stays. */
  function CollectForms(forms: map<string, FormRef>, data: map<string, CachedData>, now: int): map<string, FormRef> {
    map k | k in forms && !(k in data && ShouldGc(data[k], now)) :: forms[k]
  }

  /** A key leaves both caches exactly when its data entry is eligible; everything else is kept as it was. */
  lemma CollectExactly(forms: map<string, FormRef>, data: map<string, CachedData>, now: int, k: string)
    ensures var d, f := Collect(data, now), CollectForms(forms, data, now);
      && (k in d <==> k in data && !ShouldGc(data[k], now))
      && (k in d ==> d[k] == data[k])
      && (k in f <==> k in forms && !(k in data && ShouldGc(data[k], now)))
      && (k in f ==> f[k] == forms[k])
      && (k in forms && k !in data ==> k in f)
  {
  }

  /** Sweeping twice at the same time is sweeping once. */
  lemma CollectIdempotent(forms: map<string, FormRef>, data: map<string, CachedData>, now: int)
    ensures Collect(Collect(data, now), now) == Collect(data, now)
    ensures CollectForms(CollectForms(forms, data, now), Collect(data, now), now) == CollectForms(forms, data, now)
  {
  }

  /** A later sweep removes at least what an earlier one would. */
  lemma CollectMonotone(data: map<string, CachedData>, t1: int, t2: int)
    requires t1 <= t2
    ensures Collect(data, t2).Keys <= Collect(data, t1).Keys
  {
    forall k | k in Collect(data, t2)
      ensures k in Collect(data, t1)
    {
      if ShouldGc(data[k], t1) {
        ShouldGcMonotone(data[k], t1, t2);
      }
    }
  }

  /** Where a mount happened in `_do_navigate`, and what was mounted; every mount
      of a navigation passes that navigation's context. */
  datatype MountOp =
    | MountErrorForm(form: Value)
    | MountPendingForm(form: Value)
    | MountForm(form: Value)
    | RemountCached(instance: FormRef)

  /** Whether the history had moved to another location (`is_stale()`) at each
      point where `_do_navigate` asks. */
  datatype Moved = Moved(afterBeforeLoad: bool, afterRace: bool, afterAwait: bool, afterMount: bool)

  /** What the host hands to `_do_navigate`: how `before_load` ended, what `meta`
      returned, the open form, the race's result or rejection, what an in-flight
      load settles with, what mounting `route.form` returns or raises, and the
      staleness answers. */
  datatype NavInputs = NavInputs(
    beforeLoad: Option<Raise>,
    meta: Value,
    openForm: Option<FormRef>,
    race: Result<RaceResult, Error>,
    settled: Outcome,
    mounted: Result<FormRef, Error>,
    moved: Moved)

  /** How a navigation ended. */
  datatype NavOutcome =
    | Blocked                                   // the previous context prevented the unload
    | Redirected(redirect: Redirect)            // `navigate(**r.__dict__, replace=True)`
    | Escaped(error: Error)                     // an exception left the router
    | Abandoned                                 // a staleness check ended it
    | ShowedErrorForm(form: Value, error: Error)
    | ReusedCachedForm(instance: FormRef)
    | Mounted(instance: FormRef)

  /** The effects `_do_navigate` decides on: the meta tags it applies, the cached
      context it makes current, whether it asks the loader, the mounts in order,
      the last `(data, error)` it sets on the context, the mounted instance it
      records, and how it ends. */
  datatype Plan = Plan(
    meta: Option<seq<(string, Value)>>,
    current: Option<RoutingContext>,
    loads: bool,
    mounts: seq<MountOp>,
    contextData: Option<(Value, Option<Error>)>,
    recorded: Option<FormRef>,
    outcome: NavOutcome)

  /** The route attribute named by `handle_error`'s `form_attr`. */
  datatype FormAttr = ErrorFormAttr | NotFoundFormAttr

  function FormOf(route: RouteConfig, attr: FormAttr): Value {
    match attr
    case ErrorFormAttr => route.errorForm
    case NotFoundFormAttr => route.notFoundForm
  }

  /** The attribute the `except NotFound` / `except Exception` pairs around
      `before_load`, the race and the await pass: `not_found_form` for NotFound,
      `error_form` otherwise. The mount of `route.form` has no such pair and
      always passes `error_form`. */
  function CaughtAttr(e: Error): FormAttr {
    if e == NotFound then NotFoundFormAttr else ErrorFormAttr
  }

  /** `handle_error(form_attr, error)` applied after the effects in `p`. */
  function HandleError(route: RouteConfig, attr: FormAttr, e: Error, stale: bool, p: Plan): (r: Plan)
    ensures r.meta == p.meta && r.current == p.current && r.loads == p.loads && r.recorded == p.recorded
    ensures stale ==> r == p.(outcome := Abandoned)
    ensures !stale ==> r.contextData == Some((Null, Some(e)))
    ensures !stale && FormOf(route, attr) == Null ==> r.outcome == Escaped(e) && r.mounts == p.mounts
    ensures !stale && FormOf(route, attr) != Null ==>
      r.outcome == ShowedErrorForm(FormOf(route, attr), e) && r.mounts == p.mounts + [MountErrorForm(FormOf(route, attr))]
  {
    if stale then p.(outcome := Abandoned)
    else
      var p1 := p.(contextData := Some((Null, Some(e))));
      var form := FormOf(route, attr);
      if form == Null then p1.(outcome := Escaped(e))
      else p1.(mounts := p.mounts + [MountErrorForm(form)], outcome := ShowedErrorForm(form, e))
  }

  /** `_do_navigate(context)` for the match `m`, given the form cache, the
      form-to-context map, the promise `load_data_promise` would return, and the
      host's inputs. */
  function Decide(m: Match, cachedForms: map<string, FormRef>, formToContext: map<FormRef, RoutingContext>,
                  promise: Result<DataPromise, Error>, inp: NavInputs): Plan
  {
    var route := m.route;
    var none := Plan(None, None, false, [], None, None, Abandoned);
    match inp.beforeLoad
    case Some(Redirecting(rd)) => none.(outcome := Redirected(rd))
    case Some(Throwing(e)) => HandleError(route, CaughtAttr(e), e, inp.moved.afterBeforeLoad, none)
    case None => DecideAfterHooks(m, cachedForms, formToContext, promise, inp)
  }

  /** `_do_navigate` once `before_load` has returned: the meta tags, then the
      cached form or the data load. */
  function DecideAfterHooks(m: Match, cachedForms: map<string, FormRef>, formToContext: map<FormRef, RoutingContext>,
                            promise: Result<DataPromise, Error>, inp: NavInputs): (r: Plan)
    ensures r.contextData.Some? ==> r.loads
  {
    var none := Plan(None, None, false, [], None, None, Abandoned);
    match EnsureDict(inp.meta)
    case Err(e) => none.(outcome := Escaped(e))
    case Ok(meta) =>
      var p0 := none.(meta := Some(meta));
      if m.key in cachedForms then DecideCached(cachedForms[m.key], formToContext, inp, p0)
      else DecideLoad(m.route, promise, inp, p0.(loads := true))
  }

  /** `_do_navigate` when the form cache holds `form` for the key. */
  function DecideCached(form: FormRef, formToContext: map<FormRef, RoutingContext>, inp: NavInputs, p: Plan): (r: Plan)
    ensures r.meta == p.meta && r.loads == p.loads && r.contextData == p.contextData && r.recorded == p.recorded
  {
    if form !in formToContext then p.(outcome := Escaped(ValueError))
    else
      var p1 := p.(current := Some(formToContext[form]), outcome := ReusedCachedForm(form));
      if inp.openForm == Some(form) then p1 else p1.(mounts := p.mounts + [RemountCached(form)])
  }

  /** `_do_navigate` from `load_data_promise` on, after the effects in `p`. */
  function DecideLoad(route: RouteConfig, promise: Result<DataPromise, Error>, inp: NavInputs, p: Plan): (r: Plan)
    ensures r.meta == p.meta && r.current == p.current && r.loads == p.loads
  {
    match promise
    case Err(e) => p.(outcome := Escaped(e))
    case Ok(dp) => DecideRace(route, dp, inp, p)
  }

  /** `_do_navigate` from the race between the data and the pending delay on. */
  function DecideRace(route: RouteConfig, dp: DataPromise, inp: NavInputs, p: Plan): (r: Plan)
    ensures r.meta == p.meta && r.current == p.current && r.loads == p.loads
  {
    match inp.race
    case Err(e) => HandleError(route, CaughtAttr(e), e, inp.moved.afterRace, p)
    case Ok(raced) =>
      if inp.moved.afterRace then p.(outcome := Abandoned)
      else
        var p2 := if route.pendingForm != Null && raced == Timeout
                  then p.(mounts := p.mounts + [MountPendingForm(route.pendingForm)]) else p;
        DecideAwait(route, dp, inp, p2)
  }

  /** `_do_navigate` from `await_promise` on, after the effects in `p`. */
  function DecideAwait(route: RouteConfig, dp: DataPromise, inp: NavInputs, p: Plan): (r: Plan)
    ensures r.meta == p.meta && r.current == p.current && r.loads == p.loads
  {
    match AwaitData(dp, inp.settled)
    case Err(e) => HandleError(route, CaughtAttr(e), e, inp.moved.afterAwait, p.(contextData := Some((Null, Some(e)))))
    case Ok(data) =>
      var p3 := p.(contextData := Some((data, None)));
      if inp.moved.afterAwait then p3.(outcome := Abandoned)
      else DecideMount(route, inp, p3)
  }

  /** `_do_navigate` from mounting `route.form` on. */
  function DecideMount(route: RouteConfig, inp: NavInputs, p: Plan): (r: Plan)
    ensures r.meta == p.meta && r.current == p.current && r.loads == p.loads
  {
    match inp.mounted
    case Err(e) => HandleError(route, ErrorFormAttr, e, inp.moved.afterMount, p)
    case Ok(rv) => p.(mounts := p.mounts + [MountForm(route.form)], recorded := Some(rv), outcome := Mounted(rv))
  }

  /** A Redirect raised by `before_load` becomes a replacing navigation and nothing else happens. */
  lemma DecideRedirect(m: Match, cachedForms: map<string, FormRef>, formToContext: map<FormRef, RoutingContext>,
                       promise: Result<DataPromise, Error>, inp: NavInputs, rd: Redirect)
    requires inp.beforeLoad == Some(Redirecting(rd))
    ensures var p := Decide(m, cachedForms, formToContext, promise, inp);
      p == Plan(None, None, false, [], None, None, Redirected(rd))
  {
  }

  /** A cached form for the key short-circuits the navigation: no data is loaded,
      nothing is recorded, its context becomes current, and it is re-mounted only
      if it is not already the open form. */
  lemma DecideCachedForm(m: Match, cachedForms: map<string, FormRef>, formToContext: map<FormRef, RoutingContext>,
                         promise: Result<DataPromise, Error>, inp: NavInputs)
    requires inp.beforeLoad.None? && EnsureDict(inp.meta).Ok?
    requires m.key in cachedForms && cachedForms[m.key] in formToContext
    ensures var p, form := Decide(m, cachedForms, formToContext, promise, inp), cachedForms[m.key];
      && !p.loads && p.recorded.None? && p.contextData.None?
      && p.current == Some(formToContext[form])
      && p.outcome == ReusedCachedForm(form)
      && (p.mounts == [] <==> inp.openForm == Some(form))
  {
  }

  /** The pending form is mounted, at most once and first, exactly when the
      route has one and the race ended on the timeout. */
  lemma DecidePendingForm(m: Match, cachedForms: map<string, FormRef>, formToContext: map<FormRef, RoutingContext>,
                          promise: Result<DataPromise, Error>, inp: NavInputs)
    requires inp.beforeLoad.None? && EnsureDict(inp.meta).Ok? && m.key !in cachedForms
    requires promise.Ok? && inp.race.Ok? && !inp.moved.afterRace
    ensures var p := Decide(m, cachedForms, formToContext, promise, inp);
      && p.loads
      && ((|p.mounts| > 0 && p.mounts[0].MountPendingForm?) <==> m.route.pendingForm != Null && inp.race.value == Timeout)
      && (forall i :: 0 < i < |p.mounts| ==> !p.mounts[i].MountPendingForm?)
  {
  }

  /** What a plan records is what `route.form`'s mount returned, mounted last,
      after data arrived without error, and the navigation ends with it. */
  predicate RecordsMount(route: RouteConfig, inp: NavInputs, p: Plan) {
    && (p.recorded.Some? <==> p.outcome.Mounted?)
    && (p.recorded.Some? ==>
          && p.outcome == Mounted(p.recorded.value)
          && inp.mounted == Ok(p.recorded.value)
          && |p.mounts| > 0 && p.mounts[|p.mounts| - 1] == MountForm(route.form)
          && p.contextData.Some? && p.contextData.value.1.None?)
  }

  lemma HandleErrorRecordsNothing(route: RouteConfig, attr: FormAttr, e: Error, stale: bool, p: Plan, inp: NavInputs)
    requires p.recorded.None? && !p.outcome.Mounted?
    ensures RecordsMount(route, inp, HandleError(route, attr, e, stale, p))
  {
  }

  lemma DecideAwaitRecords(route: RouteConfig, dp: DataPromise, inp: NavInputs, p: Plan)
    requires p.recorded.None? && !p.outcome.Mounted?
    ensures RecordsMount(route, inp, DecideAwait(route, dp, inp, p))
  {
    match AwaitData(dp, inp.settled)
    case Err(e) =>
      HandleErrorRecordsNothing(route, CaughtAttr(e), e, inp.moved.afterAwait, p.(contextData := Some((Null, Some(e)))), inp);
    case Ok(data) =>
      var p3 := p.(contextData := Some((data, None)));
      if !inp.moved.afterAwait && inp.mounted.Err? {
        HandleErrorRecordsNothing(route, ErrorFormAttr, inp.mounted.error, inp.moved.afterMount, p3, inp);
      }
  }

  lemma DecideRaceRecords(route: RouteConfig, dp: DataPromise, inp: NavInputs, p: Plan)
    requires p.recorded.None? && !p.outcome.Mounted?
    ensures RecordsMount(route, inp, DecideRace(route, dp, inp, p))
  {
    match inp.race
    case Err(e) =>
      HandleErrorRecordsNothing(route, CaughtAttr(e), e, inp.moved.afterRace, p, inp);
    case Ok(raced) =>
      if !inp.moved.afterRace {
        var p2 := if route.pendingForm != Null && raced == Timeout
                  then p.(mounts := p.mounts + [MountPendingForm(route.pendingForm)]) else p;
        DecideAwaitRecords(route, dp, inp, p2);
      }
  }

  /** A mounted instance is recorded only when the route's form itself was mounted,
      as the last mount, after a data load without error, and the navigation then
      ends with it; a cached-form navigation records nothing. */
  lemma {:induction false} DecideRecords(m: Match, cachedForms: map<string, FormRef>, formToContext: map<FormRef, RoutingContext>,
                      promise: Result<DataPromise, Error>, inp: NavInputs)
    ensures var p := Decide(m, cachedForms, formToContext, promise, inp);
      && RecordsMount(m.route, inp, p)
      && (p.recorded.Some? ==> p.loads && m.key !in cachedForms)
  {
    var none := Plan(None, None, false, [], None, None, Abandoned);
    match inp.beforeLoad
    case Some(Redirecting(rd)) =>
    case Some(Throwing(e)) =>
      HandleErrorRecordsNothing(m.route, CaughtAttr(e), e, inp.moved.afterBeforeLoad, none, inp);
    case None =>
      match EnsureDict(inp.meta)
      case Err(_) =>
      case Ok(meta) =>
        if m.key !in cachedForms && promise.Ok? {
          DecideRaceRecords(m.route, promise.value, inp, none.(meta := Some(meta), loads := true));
        }
  }

  /** A failure while mounting `route.form` on a navigation that is still current
      is handled with `error_form`, whatever the error, NotFound included: the
      error is set on the context, nothing is recorded, and the error form is
      mounted last, or the error escapes when the route has none. */
  lemma DecideMountFailure(m: Match, cachedForms: map<string, FormRef>, formToContext: map<FormRef, RoutingContext>,
                           promise: Result<DataPromise, Error>, inp: NavInputs, data: Value)
    requires inp.beforeLoad.None? && EnsureDict(inp.meta).Ok? && m.key !in cachedForms
    requires promise.Ok? && inp.race.Ok? && !inp.moved.afterRace
    requires AwaitData(promise.value, inp.settled) == Ok(data) && !inp.moved.afterAwait
    requires inp.mounted.Err? && !inp.moved.afterMount
    ensures var p, e := Decide(m, cachedForms, formToContext, promise, inp), inp.mounted.error;
      && p.loads && p.recorded.None?
      && p.contextData == Some((Null, Some(e)))
      && (m.route.errorForm == Null ==> p.outcome == Escaped(e))
      && (m.route.errorForm != Null ==>
            && p.outcome == ShowedErrorForm(m.route.errorForm, e)
            && |p.mounts| > 0 && p.mounts[|p.mounts| - 1] == MountErrorForm(m.route.errorForm))
  {
  }

  /** Once the data arrives, `set_data(data, error)` replaces whatever the context held, the
      not-found fallback's NotFound included, unless a failed mount overwrites it in turn. */
  lemma DecideLoadReplacesData(m: Match, cachedForms: map<string, FormRef>, formToContext: map<FormRef, RoutingContext>,
                               promise: Result<DataPromise, Error>, inp: NavInputs, data: Value)
    requires inp.beforeLoad.None? && EnsureDict(inp.meta).Ok? && m.key !in cachedForms
    requires promise.Ok? && inp.race.Ok? && !inp.moved.afterRace
    requires AwaitData(promise.value, inp.settled) == Ok(data)
    requires inp.moved.afterAwait || inp.mounted.Ok?
    ensures Decide(m, cachedForms, formToContext, promise, inp).contextData == Some((data, None))
  {
  }

  /** An error met while the history has moved on is ignored: nothing is mounted
      for it and the context keeps what it had. An error met on a current
      navigation is set on the context and re-raised when the route has no form for it. */
  lemma HandleErrorStaleOrReraise(route: RouteConfig, attr: FormAttr, e: Error, stale: bool, p: Plan)
    ensures stale ==> HandleError(route, attr, e, stale, p).mounts == p.mounts
    ensures stale ==> HandleError(route, attr, e, stale, p).contextData == p.contextData
    ensures !stale && FormOf(route, attr) == Null ==> HandleError(route, attr, e, stale, p).outcome == Escaped(e)
    ensures e == NotFound && !stale && route.notFoundForm != Null ==>
      HandleError(route, CaughtAttr(e), e, stale, p).outcome == ShowedErrorForm(route.notFoundForm, NotFound)
    ensures !stale && route.errorForm != Null ==>
      HandleError(route, ErrorFormAttr, e, stale, p).outcome == ShowedErrorForm(route.errorForm, e)
  {
  }

  /** The environment of one `on_navigate` run: the pending `nav_context` and
      `form_properties`, what the previous context's `_prevent_unload()` answers,
      the matcher and not-found matcher, the `_do_navigate` inputs and the clock. */
  datatype Environment = Environment(
    navContext: seq<(string, Value)>,
    formProperties: seq<(string, Value)>,
    preventUnload: bool,
    matcher: Location -> Option<Match>,
    notFoundMatcher: (Location, RouteConfig) -> Match,
    inputs: NavInputs,
    now: int)

  /** The match `on_navigate` builds its context on, or None when it raises NotFound. */
  function ChooseMatch(location: Location, matcher: Location -> Option<Match>,
                       notFoundMatcher: (Location, RouteConfig) -> Match,
                       defaultNotFound: Option<RouteConfig>): (r: Option<Match>)
    ensures matcher(location).Some? ==> r == matcher(location)
    ensures matcher(location).None? && defaultNotFound.Some? ==> r == Some(notFoundMatcher(location, defaultNotFound.value))
    ensures r.None? <==> matcher(location).None? && defaultNotFound.None?
  {
    if matcher(location).Some? then matcher(location)
    else if defaultNotFound.Some? then Some(notFoundMatcher(location, defaultNotFound.value))
    else None
  }

  /** The client's module globals and the objects it shares with the rest of the router. */
  class Client {
    const stores: Stores
    const loader: DataLoader
    const registry: Registry
    const history: History

    var waiting: bool
    var undoing: bool
    var redirect: bool
    var current: Option<int>
    var navigationBlockers: set<NavigationBlocker>
    var beforeUnloadBlockers: set<UnloadBlocker>
    var windowOps: seq<WindowOp>

    var formToContext: map<FormRef, RoutingContext>
    var currentContext: Option<RoutingContext>
    var metaTags: seq<(string, Value)>
    var mountLog: seq<MountOp>

    /** The state at import time. */
    constructor (stores: Stores, loader: DataLoader, registry: Registry, history: History)
      requires loader.stores == stores
      ensures this.stores == stores && this.loader == loader && this.registry == registry && this.history == history
      ensures !waiting && !undoing && redirect && current.None?
      ensures navigationBlockers == {} && beforeUnloadBlockers == {} && windowOps == []
      ensures formToContext == map[] && currentContext.None? && metaTags == [] && mountLog == []
      ensures BlockersValid(BlockerState())
    {
      this.stores := stores;
      this.loader := loader;
      this.registry := registry;
      this.history := history;
      waiting := false;
      undoing := false;
      redirect := true;
      current := None;
      navigationBlockers := {};
      beforeUnloadBlockers := {};
      windowOps := [];
      formToContext := map[];
      currentContext := None;
      metaTags := [];
      mountLog := [];
    }

    function BlockerState(): Blockers
      reads this
    {
      Blockers(waiting, navigationBlockers, beforeUnloadBlockers, windowOps)
    }

    function FlagState(): Flags
      reads this
    {
      Flags(waiting, undoing, redirect, current)
    }

    /** `get_context(form)`: ValueError for a form with no recorded context. */
    function GetContext(form: FormRef): (r: Result<RoutingContext, Error>)
      reads this
      ensures r.Ok? <==> form in formToContext
      ensures r.Ok? ==> r.value == formToContext[form]
      ensures r.Err? ==> r.error == ValueError
    {
      if form in formToContext then Ok(formToContext[form]) else Err(ValueError)
    }

    /** `UnloadBlocker.block()` on `u`. */
    method BlockUnload(u: UnloadBlocker)
      modifies this
      ensures BlockerState() == UnloadBlock(old(BlockerState()), u)
      ensures undoing == old(undoing) && redirect == old(redirect) && current == old(current)
      ensures formToContext == old(formToContext) && currentContext == old(currentContext) && metaTags == old(metaTags) && mountLog == old(mountLog)
    {
      if beforeUnloadBlockers == {} {
        windowOps := windowOps + [AddedBeforeUnload];
      }
      beforeUnloadBlockers := beforeUnloadBlockers + {u};
    }

    /** `UnloadBlocker.unblock()` on `u`. */
    method UnblockUnload(u: UnloadBlocker) returns (err: Option<Error>)
      modifies this
      ensures Step(BlockerState(), err) == UnloadUnblock(old(BlockerState()), u)
      ensures undoing == old(undoing) && redirect == old(redirect) && current == old(current)
      ensures formToContext == old(formToContext) && currentContext == old(currentContext) && metaTags == old(metaTags) && mountLog == old(mountLog)
    {
      if u !in beforeUnloadBlockers {
        return Some(KeyError);
      }
      beforeUnloadBlockers := beforeUnloadBlockers - {u};
      if beforeUnloadBlockers == {} {
        windowOps := windowOps + [RemovedBeforeUnload];
      }
      err := None;
    }

    /** `NavigationBlocker.block()` on `nb`. */
    method Block(nb: NavigationBlocker)
      modifies this
      ensures BlockerState() == NavigationBlock(old(BlockerState()), nb)
      ensures undoing == old(undoing) && redirect == old(redirect) && current == old(current)
      ensures formToContext == old(formToContext) && currentContext == old(currentContext) && metaTags == old(metaTags) && mountLog == old(mountLog)
    {
      waiting := true;
      navigationBlockers := navigationBlockers + {nb};
      if nb.warnBeforeUnload {
        BlockUnload(nb.unloadBlocker);
      }
    }

    /** `NavigationBlocker.unblock()` on `nb`. */
    method Unblock(nb: NavigationBlocker) returns (err: Option<Error>)
      modifies this
      ensures Step(BlockerState(), err) == NavigationUnblock(old(BlockerState()), nb)
      ensures undoing == old(undoing) && redirect == old(redirect) && current == old(current)
      ensures formToContext == old(formToContext) && currentContext == old(currentContext) && metaTags == old(metaTags) && mountLog == old(mountLog)
    {
      if nb !in navigationBlockers {
        return Some(KeyError);
      }
      navigationBlockers := navigationBlockers - {nb};
      waiting := navigationBlockers != {};
      err := None;
      if nb.warnBeforeUnload {
        err := UnblockUnload(nb.unloadBlocker);
      }
    }

    /** `stop_unload()`: sets `undoing` and rolls back the last recorded move, if it had a delta. */
    method StopUnload()
      modifies this, history
      ensures undoing
      ensures waiting == old(waiting) && navigationBlockers == old(navigationBlockers) && beforeUnloadBlockers == old(beforeUnloadBlockers) && windowOps == old(windowOps)
      ensures redirect == old(redirect) && current == old(current)
      ensures history.ops == old(history.ops) + (if current.Some? then [Went(-current.value)] else [])
      ensures history.location == old(history.location)
      ensures formToContext == old(formToContext) && currentContext == old(currentContext) && metaTags == old(metaTags) && mountLog == old(mountLog)
    {
      undoing := true;
      if current.Some? {
        history.Go(-current.value);
      }
    }

    /** `gc()`: sweeps a snapshot of the data cache, popping each eligible key
        from both caches. */
    method Gc(now: int)
      modifies stores
      ensures stores.cachedData == Collect(old(stores.cachedData), now)
      ensures stores.cachedForms == CollectForms(old(stores.cachedForms), old(stores.cachedData), now)
      ensures stores.inFlight == old(stores.inFlight)
    {
      var snapshot := stores.cachedData;
      var forms := stores.cachedForms;
      var pending := snapshot.Keys;
      while pending != {}
        invariant pending <= snapshot.Keys
        invariant stores.cachedData == map k | k in snapshot && (k in pending || !ShouldGc(snapshot[k], now)) :: snapshot[k]
        invariant stores.cachedForms == map k | k in forms && !(k in snapshot && k !in pending && ShouldGc(snapshot[k], now)) :: forms[k]
        invariant stores.inFlight == old(stores.inFlight)
        decreases pending
      {
        var key :| key in pending;
        if ShouldGc(snapshot[key], now) {
          stores.cachedData := stores.cachedData - {key};
          stores.cachedForms := stores.cachedForms - {key};
        }
        pending := pending - {key};
      }
    }

    /** `_do_navigate(context)`. */
    method DoNavigate(context: RoutingContext, inp: NavInputs, now: int) returns (r: NavOutcome)
      requires loader.stores == stores
      modifies this, stores, loader, context
      ensures var spec := Load(old(loader.State()), context.routeMatch, context, false, now);
        var plan := Decide(context.routeMatch, old(stores.cachedForms), old(formToContext), spec.promise, inp);
        && r == plan.outcome
        && loader.State() == (if plan.loads then spec.state else old(loader.State()))
        && mountLog == old(mountLog) + plan.mounts
        && metaTags == (if plan.meta.Some? then plan.meta.value else old(metaTags))
        && currentContext == (if plan.current.Some? then plan.current else old(currentContext))
        && formToContext == (if plan.recorded.Some? then old(formToContext)[plan.recorded.value := context] else old(formToContext))
        && stores.cachedForms == (if plan.recorded.Some? && context.routeMatch.route.cacheForm
                                  then old(stores.cachedForms)[context.routeMatch.key := plan.recorded.value]
                                  else old(stores.cachedForms))
        && (plan.contextData.Some? ==> (context.data, context.error) == plan.contextData.value)
        && (plan.contextData.None? ==> context.data == old(context.data) && context.error == old(context.error))
      ensures waiting == old(waiting) && navigationBlockers == old(navigationBlockers) && beforeUnloadBlockers == old(beforeUnloadBlockers) && windowOps == old(windowOps)
      ensures undoing == old(undoing) && redirect == old(redirect) && current == old(current)
      ensures context.formProperties == old(context.formProperties)
    {
      match inp.beforeLoad {
        case Some(Redirecting(rd)) =>
          return Redirected(rd);
        case Some(Throwing(e)) =>
          r := OnError(context, CaughtAttr(e), e, inp.moved.afterBeforeLoad, Plan(None, None, false, [], None, None, Abandoned), mountLog);
        case None =>
          r := AfterHooks(context, inp, now);
      }
    }

    /** The part of `_do_navigate(context)` after `before_load` has returned. */
    method AfterHooks(context: RoutingContext, inp: NavInputs, now: int) returns (r: NavOutcome)
      requires loader.stores == stores
      modifies this, stores, loader, context
      ensures var spec := Load(old(loader.State()), context.routeMatch, context, false, now);
        var plan := DecideAfterHooks(context.routeMatch, old(stores.cachedForms), old(formToContext), spec.promise, inp);
        && r == plan.outcome
        && loader.State() == (if plan.loads then spec.state else old(loader.State()))
        && mountLog == old(mountLog) + plan.mounts
        && metaTags == (if plan.meta.Some? then plan.meta.value else old(metaTags))
        && currentContext == (if plan.current.Some? then plan.current else old(currentContext))
        && formToContext == (if plan.recorded.Some? then old(formToContext)[plan.recorded.value := context] else old(formToContext))
        && stores.cachedForms == (if plan.recorded.Some? && context.routeMatch.route.cacheForm
                                  then old(stores.cachedForms)[context.routeMatch.key := plan.recorded.value]
                                  else old(stores.cachedForms))
        && (plan.contextData.Some? ==> (context.data, context.error) == plan.contextData.value)
        && (plan.contextData.None? ==> context.data == old(context.data) && context.error == old(context.error))
      ensures waiting == old(waiting) && navigationBlockers == old(navigationBlockers) && beforeUnloadBlockers == old(beforeUnloadBlockers) && windowOps == old(windowOps)
      ensures undoing == old(undoing) && redirect == old(redirect) && current == old(current)
      ensures context.navContext == old(context.navContext) && context.formProperties == old(context.formProperties)
    {
      var m := context.routeMatch;
      var meta := EnsureDict(inp.meta);
      if meta.Err? {
        return Escaped(meta.error);
      }
      metaTags := meta.value;
      ghost var p0 := Plan(Some(meta.value), None, false, [], None, None, Abandoned);
      if m.key in stores.cachedForms {
        r := CachedPhase(stores.cachedForms[m.key], inp, p0);
      } else {
        var promise := loader.LoadDataPromise(context, false, now);
        if promise.Err? {
          return Escaped(promise.error);
        }
        r := RacePhase(context, promise.value, inp, p0.(loads := true), mountLog);
      }
    }

    /** The cached-form branch of `_do_navigate`: its context becomes current, and
        it is re-mounted with the new context unless it is already open. */
    method CachedPhase(form: FormRef, inp: NavInputs, ghost p: Plan) returns (r: NavOutcome)
      requires p.mounts == [] && p.current.None?
      modifies this
      ensures var plan := DecideCached(form, old(formToContext), inp, p);
        && r == plan.outcome
        && mountLog == old(mountLog) + plan.mounts
        && currentContext == (if plan.current.Some? then plan.current else old(currentContext))
      ensures waiting == old(waiting) && navigationBlockers == old(navigationBlockers) && beforeUnloadBlockers == old(beforeUnloadBlockers) && windowOps == old(windowOps)
      ensures undoing == old(undoing) && redirect == old(redirect) && current == old(current)
      ensures formToContext == old(formToContext) && metaTags == old(metaTags)
    {
      var cachedContext := GetContext(form);
      if cachedContext.Err? {
        return Escaped(cachedContext.error);
      }
      currentContext := Some(cachedContext.value);
      if inp.openForm != Some(form) {
        mountLog := mountLog + [RemountCached(form)];
      }
      r := ReusedCachedForm(form);
    }

    /** The part of `_do_navigate(context)` from the race on, for the promise `dp`;
        `p` is the plan so far and `log0` the mount log before it. */
    method RacePhase(context: RoutingContext, dp: DataPromise, inp: NavInputs, ghost p: Plan, ghost log0: seq<MountOp>) returns (r: NavOutcome)
      requires mountLog == log0 + p.mounts && p.contextData.None? && p.recorded.None?
      modifies this, stores, context
      ensures var plan := DecideRace(context.routeMatch.route, dp, inp, p);
        && r == plan.outcome
        && mountLog == log0 + plan.mounts
        && formToContext == (if plan.recorded.Some? then old(formToContext)[plan.recorded.value := context] else old(formToContext))
        && stores.cachedForms == (if plan.recorded.Some? && context.routeMatch.route.cacheForm
                                  then old(stores.cachedForms)[context.routeMatch.key := plan.recorded.value]
                                  else old(stores.cachedForms))
        && (plan.contextData.Some? ==> (context.data, context.error) == plan.contextData.value)
        && (plan.contextData.None? ==> context.data == old(context.data) && context.error == old(context.error))
      ensures stores.cachedData == old(stores.cachedData) && stores.inFlight == old(stores.inFlight)
      ensures waiting == old(waiting) && navigationBlockers == old(navigationBlockers) && beforeUnloadBlockers == old(beforeUnloadBlockers) && windowOps == old(windowOps)
      ensures undoing == old(undoing) && redirect == old(redirect) && current == old(current)
      ensures currentContext == old(currentContext) && metaTags == old(metaTags)
      ensures context.navContext == old(context.navContext) && context.formProperties == old(context.formProperties)
    {
      var route := context.routeMatch.route;
      match inp.race {
        case Err(e) =>
          r := OnError(context, CaughtAttr(e), e, inp.moved.afterRace, p, log0);
          return;
        case Ok(_) =>
      }
      if inp.moved.afterRace {
        return Abandoned;
      }
      ghost var p2 := p;
      if route.pendingForm != Null && inp.race.value == Timeout {
        mountLog := mountLog + [MountPendingForm(route.pendingForm)];
        p2 := p.(mounts := p.mounts + [MountPendingForm(route.pendingForm)]);
      }
      r := AwaitPhase(context, dp, inp, p2, log0);
    }

    /** The part of `_do_navigate(context)` from `await_promise` on. */
    method AwaitPhase(context: RoutingContext, dp: DataPromise, inp: NavInputs, ghost p: Plan, ghost log0: seq<MountOp>) returns (r: NavOutcome)
      requires mountLog == log0 + p.mounts && p.contextData.None? && p.recorded.None?
      modifies this, stores, context
      ensures var plan := DecideAwait(context.routeMatch.route, dp, inp, p);
        && r == plan.outcome
        && mountLog == log0 + plan.mounts
        && formToContext == (if plan.recorded.Some? then old(formToContext)[plan.recorded.value := context] else old(formToContext))
        && stores.cachedForms == (if plan.recorded.Some? && context.routeMatch.route.cacheForm
                                  then old(stores.cachedForms)[context.routeMatch.key := plan.recorded.value]
                                  else old(stores.cachedForms))
        && plan.contextData.Some? && (context.data, context.error) == plan.contextData.value
      ensures stores.cachedData == old(stores.cachedData) && stores.inFlight == old(stores.inFlight)
      ensures waiting == old(waiting) && navigationBlockers == old(navigationBlockers) && beforeUnloadBlockers == old(beforeUnloadBlockers) && windowOps == old(windowOps)
      ensures undoing == old(undoing) && redirect == old(redirect) && current == old(current)
      ensures currentContext == old(currentContext) && metaTags == old(metaTags)
      ensures context.navContext == old(context.navContext) && context.formProperties == old(context.formProperties)
    {
      match AwaitData(dp, inp.settled) {
        case Err(e) =>
          context.SetData(Null, Some(e));
          r := OnError(context, CaughtAttr(e), e, inp.moved.afterAwait, p.(contextData := Some((Null, Some(e)))), log0);
        case Ok(data) =>
          context.SetData(data, None);
          if inp.moved.afterAwait {
            return Abandoned;
          }
          r := MountPhase(context, inp, p.(contextData := Some((data, None))), log0);
      }
    }

    /** The part of `_do_navigate(context)` that mounts `route.form` and records it. */
    method MountPhase(context: RoutingContext, inp: NavInputs, ghost p: Plan, ghost log0: seq<MountOp>) returns (r: NavOutcome)
      requires mountLog == log0 + p.mounts && p.recorded.None?
      requires p.contextData.Some? && (context.data, context.error) == p.contextData.value
      modifies this, stores, context
      ensures var plan := DecideMount(context.routeMatch.route, inp, p);
        && r == plan.outcome
        && mountLog == log0 + plan.mounts
        && formToContext == (if plan.recorded.Some? then old(formToContext)[plan.recorded.value := context] else old(formToContext))
        && stores.cachedForms == (if plan.recorded.Some? && context.routeMatch.route.cacheForm
                                  then old(stores.cachedForms)[context.routeMatch.key := plan.recorded.value]
                                  else old(stores.cachedForms))
        && plan.contextData.Some? && (context.data, context.error) == plan.contextData.value
      ensures stores.cachedData == old(stores.cachedData) && stores.inFlight == old(stores.inFlight)
      ensures waiting == old(waiting) && navigationBlockers == old(navigationBlockers) && beforeUnloadBlockers == old(beforeUnloadBlockers) && windowOps == old(windowOps)
      ensures undoing == old(undoing) && redirect == old(redirect) && current == old(current)
      ensures currentContext == old(currentContext) && metaTags == old(metaTags)
      ensures context.navContext == old(context.navContext) && context.formProperties == old(context.formProperties)
    {
      var route := context.routeMatch.route;
      match inp.mounted {
        case Err(e) =>
          r := OnError(context, ErrorFormAttr, e, inp.moved.afterMount, p, log0);
        case Ok(rv) =>
          mountLog := mountLog + [MountForm(route.form)];
          formToContext := formToContext[rv := context];
          if route.cacheForm {
            stores.cachedForms := stores.cachedForms[context.routeMatch.key := rv];
          }
          r := Mounted(rv);
      }
    }

    /** `handle_error(form_attr, error)` inside `_do_navigate(context)`, after the
        effects in `p`: ignored when stale, else the error is set on the context
        and either its form is mounted or it is raised again. */
    method OnError(context: RoutingContext, attr: FormAttr, e: Error, stale: bool, ghost p: Plan, ghost log0: seq<MountOp>) returns (r: NavOutcome)
      requires mountLog == log0 + p.mounts
      modifies this, context
      ensures var plan := HandleError(context.routeMatch.route, attr, e, stale, p);
        && r == plan.outcome
        && mountLog == log0 + plan.mounts
        && (!stale ==> (context.data, context.error) == (Null, Some(e)))
        && (stale ==> context.data == old(context.data) && context.error == old(context.error))
      ensures waiting == old(waiting) && navigationBlockers == old(navigationBlockers) && beforeUnloadBlockers == old(beforeUnloadBlockers) && windowOps == old(windowOps)
      ensures undoing == old(undoing) && redirect == old(redirect) && current == old(current)
      ensures formToContext == old(formToContext) && currentContext == old(currentContext) && metaTags == old(metaTags)
      ensures context.navContext == old(context.navContext) && context.formProperties == old(context.formProperties)
    {
      if stale {
        return Abandoned;
      }
      context.SetData(Null, Some(e));
      var form := FormOf(context.routeMatch.route, attr);
      if form == Null {
        return Escaped(e);
      }
      mountLog := mountLog + [MountErrorForm(form)];
      r := ShowedErrorForm(form, e);
    }

    /** `on_navigate()`: returns how it ended and the context it made, if any. */
    method OnNavigate(env: Environment) returns (r: NavOutcome, made: Option<RoutingContext>)
      requires loader.stores == stores
      requires BlockersValid(BlockerState())
      modifies this, history, stores, loader
      ensures var location := old(history.location);
        var target := ChooseMatch(location, env.matcher, env.notFoundMatcher, old(registry.defaultNotFound));
        && (old(currentContext).Some? && env.preventUnload ==>
              && r == Blocked && made.None? && undoing
              && history.ops == old(history.ops) + (if current.Some? then [Went(-current.value)] else [])
              && stores.cachedData == old(stores.cachedData) && stores.cachedForms == old(stores.cachedForms)
              && loader.State() == old(loader.State())
              && currentContext == old(currentContext) && formToContext == old(formToContext)
              && metaTags == old(metaTags) && mountLog == old(mountLog))
        && (!(old(currentContext).Some? && env.preventUnload) && target.None? ==>
              && r == Escaped(NotFound) && made.None? && loader.State() == old(loader.State())
              && stores.cachedData == old(stores.cachedData) && stores.cachedForms == old(stores.cachedForms)
              && currentContext == old(currentContext) && formToContext == old(formToContext)
              && metaTags == old(metaTags) && mountLog == old(mountLog))
        && (made.Some? <==> !(old(currentContext).Some? && env.preventUnload) && target.Some?)
        && (made.Some? ==>
              var ctx := made.value;
              var gcState := LoadState(old(loader.initialRequest), Collect(old(stores.cachedData), env.now),
                                       old(stores.inFlight), old(loader.nextId));
              var spec := Load(gcState, target.value, ctx, false, env.now);
              var swept := CollectForms(old(stores.cachedForms), old(stores.cachedData), env.now);
              var plan := Decide(target.value, swept, old(formToContext), spec.promise, env.inputs);
              && fresh(ctx)
              && ctx.routeMatch == target.value
              && ctx.formProperties == env.formProperties
              && (plan.contextData.None? && env.matcher(location).None? ==> ctx.data == Null && ctx.error == Some(NotFound))
              && (plan.contextData.None? && env.matcher(location).Some? ==> ctx.data == Null && ctx.error == None)
              && (plan.contextData.Some? ==> (ctx.data, ctx.error) == plan.contextData.value)
              && currentContext == (if plan.current.Some? then plan.current else made)
              && r == plan.outcome
              && loader.State() == (if plan.loads then spec.state else gcState)
              && mountLog == old(mountLog) + plan.mounts
              && metaTags == (if plan.meta.Some? then plan.meta.value else old(metaTags))
              && formToContext == (if plan.recorded.Some? then old(formToContext)[plan.recorded.value := ctx] else old(formToContext))
              && stores.cachedForms == (if plan.recorded.Some? && target.value.route.cacheForm
                                        then swept[target.value.key := plan.recorded.value] else swept))
      ensures BlockersValid(BlockerState())
      ensures redirect == old(redirect) && current == old(current)
      ensures !(old(currentContext).Some? && env.preventUnload) ==> undoing == old(undoing)
      ensures BlockerState().(windowOps := []) == old(BlockerState()).(windowOps := [])
      ensures windowOps == old(windowOps) + (if old(currentContext).Some? && old(beforeUnloadBlockers) == {}
                                             then [AddedBeforeUnload, RemovedBeforeUnload] else [])
    {
      var location := history.location;
      var blocked := GuardPrevious(env.preventUnload);
      if blocked {
        return Blocked, None;
      }
      r, made := Start(location, env);
    }

    /** The `with NavigationBlocker(True)` block of `on_navigate`: asks the previous
        context, if any, whether to prevent the unload, and stops it if so. */
    method GuardPrevious(preventUnload: bool) returns (blocked: bool)
      requires BlockersValid(BlockerState())
      modifies this, history
      ensures blocked == (old(currentContext).Some? && preventUnload)
      ensures blocked ==> undoing && history.ops == old(history.ops) + (if current.Some? then [Went(-current.value)] else [])
      ensures !blocked ==> undoing == old(undoing) && history.ops == old(history.ops)
      ensures history.location == old(history.location)
      ensures BlockersValid(BlockerState())
      ensures BlockerState().(windowOps := []) == old(BlockerState()).(windowOps := [])
      ensures redirect == old(redirect) && current == old(current)
      ensures formToContext == old(formToContext) && currentContext == old(currentContext)
      ensures metaTags == old(metaTags) && mountLog == old(mountLog)
      ensures windowOps == old(windowOps) + (if old(currentContext).Some? && old(beforeUnloadBlockers) == {}
                                             then [AddedBeforeUnload, RemovedBeforeUnload] else [])
    {
      blocked := false;
      if currentContext.Some? {
        var blocker := new NavigationBlocker(true);
        ghost var before := BlockerState();
        Block(blocker);
        blocked := preventUnload;
        if blocked {
          StopUnload();
        }
        var err := Unblock(blocker);
        BlockThenUnblockRestores(before, blocker);
        assert err.None?;
      }
    }

    /** `on_navigate` from the match on: the context, `gc()`, then `_do_navigate`. */
    method Start(location: Location, env: Environment) returns (r: NavOutcome, made: Option<RoutingContext>)
      requires loader.stores == stores
      modifies this, stores, loader
      ensures var target := ChooseMatch(location, env.matcher, env.notFoundMatcher, registry.defaultNotFound);
        && (target.None? ==> r == Escaped(NotFound) && made.None? && loader.State() == old(loader.State())
                             && stores.cachedData == old(stores.cachedData) && stores.cachedForms == old(stores.cachedForms)
                             && currentContext == old(currentContext) && formToContext == old(formToContext)
                             && metaTags == old(metaTags) && mountLog == old(mountLog))
        && (made.Some? <==> target.Some?)
        && (made.Some? ==>
              var ctx := made.value;
              var gcState := LoadState(old(loader.initialRequest), Collect(old(stores.cachedData), env.now),
                                       old(stores.inFlight), old(loader.nextId));
              var spec := Load(gcState, target.value, ctx, false, env.now);
              var swept := CollectForms(old(stores.cachedForms), old(stores.cachedData), env.now);
              var plan := Decide(target.value, swept, old(formToContext), spec.promise, env.inputs);
              && fresh(ctx)
              && ctx.routeMatch == target.value
              && ctx.formProperties == env.formProperties
              && (plan.contextData.None? && env.matcher(location).None? ==> ctx.data == Null && ctx.error == Some(NotFound))
              && (plan.contextData.None? && env.matcher(location).Some? ==> ctx.data == Null && ctx.error == None)
              && (plan.contextData.Some? ==> (ctx.data, ctx.error) == plan.contextData.value)
              && currentContext == (if plan.current.Some? then plan.current else made)
              && r == plan.outcome
              && loader.State() == (if plan.loads then spec.state else gcState)
              && mountLog == old(mountLog) + plan.mounts
              && metaTags == (if plan.meta.Some? then plan.meta.value else old(metaTags))
              && formToContext == (if plan.recorded.Some? then old(formToContext)[plan.recorded.value := ctx] else old(formToContext))
              && stores.cachedForms == (if plan.recorded.Some? && target.value.route.cacheForm
                                        then swept[target.value.key := plan.recorded.value] else swept))
      ensures waiting == old(waiting) && navigationBlockers == old(navigationBlockers) && beforeUnloadBlockers == old(beforeUnloadBlockers) && windowOps == old(windowOps)
      ensures undoing == old(undoing) && redirect == old(redirect) && current == old(current)
    {
      var target := ChooseMatch(location, env.matcher, env.notFoundMatcher, registry.defaultNotFound);
      if target.None? {
        return Escaped(NotFound), None;
      }
      var context := new RoutingContext(target.value, env.navContext, env.formProperties);
      if env.matcher(location).None? {
        context.SetData(Null, Some(NotFound));
      }
      currentContext := Some(context);
      made := Some(context);
      r := Proceed(context, env.inputs, env.now);
    }

    /** The tail of `on_navigate` once the new context is current: `gc()`, then
        `_do_navigate(context)`. */
    method Proceed(context: RoutingContext, inp: NavInputs, now: int) returns (r: NavOutcome)
      requires loader.stores == stores
      modifies this, stores, loader, context
      ensures var gcState := LoadState(old(loader.initialRequest), Collect(old(stores.cachedData), now),
                                       old(stores.inFlight), old(loader.nextId));
        var spec := Load(gcState, context.routeMatch, context, false, now);
        var plan := Decide(context.routeMatch, CollectForms(old(stores.cachedForms), old(stores.cachedData), now),
                           old(formToContext), spec.promise, inp);
        var swept := CollectForms(old(stores.cachedForms), old(stores.cachedData), now);
        && r == plan.outcome
        && loader.State() == (if plan.loads then spec.state else gcState)
        && mountLog == old(mountLog) + plan.mounts
        && metaTags == (if plan.meta.Some? then plan.meta.value else old(metaTags))
        && currentContext == (if plan.current.Some? then plan.current else old(currentContext))
        && formToContext == (if plan.recorded.Some? then old(formToContext)[plan.recorded.value := context] else old(formToContext))
        && stores.cachedForms == (if plan.recorded.Some? && context.routeMatch.route.cacheForm
                                  then swept[context.routeMatch.key := plan.recorded.value] else swept)
        && (plan.contextData.Some? ==> (context.data, context.error) == plan.contextData.value)
        && (plan.contextData.None? ==> context.data == old(context.data) && context.error == old(context.error))
      ensures context.formProperties == old(context.formProperties)
      ensures waiting == old(waiting) && navigationBlockers == old(navigationBlockers) && beforeUnloadBlockers == old(beforeUnloadBlockers) && windowOps == old(windowOps)
      ensures undoing == old(undoing) && redirect == old(redirect) && current == old(current)
    {
      Gc(now);
      r := DoNavigate(context, inp, now);
    }

    /** `listener(**listener_args)` for a history event with the given delta; runs
        `on_navigate` in `env` when the state machine says so. */
    method Listener(delta: Option<int>, env: Environment) returns (r: Option<NavOutcome>)
      requires loader.stores == stores
      requires BlockersValid(BlockerState())
      modifies this, history, stores, loader
      ensures var (f, reaction) := Listen(old(FlagState()), delta);
        && (r.Some? <==> reaction == Navigate)
        && (reaction != Navigate ==>
              && FlagState() == f && BlockerState() == old(BlockerState())
              && stores.cachedData == old(stores.cachedData) && loader.State() == old(loader.State())
              && stores.cachedForms == old(stores.cachedForms) && formToContext == old(formToContext)
              && currentContext == old(currentContext) && metaTags == old(metaTags) && mountLog == old(mountLog))
        && (reaction == Navigate ==>
              && redirect && current == delta
              && FlagState() == f.(undoing := r.value == Blocked))
        && (reaction.Undo? ==> history.ops == old(history.ops) + [Went(-reaction.delta)])
        && (reaction == Reload ==> history.ops == old(history.ops) + [Reloaded])
        && (reaction == Ignore ==> history.ops == old(history.ops))
      ensures BlockersValid(BlockerState())
    {
      r := None;
      if undoing {
        undoing := false;
      } else if waiting {
        if delta.Some? {
          undoing := true;
          history.Go(-delta.value);
        } else {
          history.Reload();
        }
      } else {
        current := delta;
        if redirect {
          var outcome, _ := OnNavigate(env);
          r := Some(outcome);
        } else {
          redirect := true;
        }
      }
    }
  }
}
