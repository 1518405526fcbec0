/** Route registration (`Route.__init_subclass__`), the `before_load` hook fold,
    the default not-found route, and `open_form`. The module-level
    `sorted_routes` list and `default_not_found_route_cls` are the fields of a
    `Registry`. */
module RouteRegistry {
  import opened Wrappers
  import opened Values
  import opened Utils
  import opened Exceptions
  import opened Routing

  // ------------------------------------------------------------ hook collection

  /** The hooks met walking the MRO (leaf class first), each class's hook
      attributes in definition order. */
  function Flatten(mro: seq<seq<HookId>>): seq<HookId> {
    if mro == [] then [] else mro[0] + Flatten(mro[1..])
  }

  function Reverse<T>(s: seq<T>): (r: seq<T>)
    ensures |r| == |s|
    ensures forall i :: 0 <= i < |s| ==> r[i] == s[|s| - 1 - i]
  {
    if s == [] then [] else Reverse(s[1..]) + [s[0]]
  }

  lemma {:induction false} ReverseAppend<T>(a: seq<T>, b: seq<T>)
    ensures Reverse(a + b) == Reverse(b) + Reverse(a)
  {
    assert |Reverse(a + b)| == |Reverse(b) + Reverse(a)|;
  }

  /** `cls._before_load_hooks = list(reversed(hooks))`. */
  function CollectHooks(mro: seq<seq<HookId>>): seq<HookId> {
    Reverse(Flatten(mro))
  }

  /** Classes from the base to the leaf, each class's hooks in reverse definition order. */
  function BaseFirst(mro: seq<seq<HookId>>): seq<HookId> {
    if mro == [] then [] else BaseFirst(mro[1..]) + Reverse(mro[0])
  }

  /** Collected hooks run base class first; within one class, last defined first. */
  lemma {:induction false} CollectHooksBaseFirst(mro: seq<seq<HookId>>)
    ensures CollectHooks(mro) == BaseFirst(mro)
  {
    if mro != [] {
      CollectHooksBaseFirst(mro[1..]);
      ReverseAppend(mro[0], Flatten(mro[1..]));
    }
  }

  /** Two hooks defined in one class run in the reverse of their definition order. */
  lemma CollectHooksWithinClass(first: HookId, second: HookId)
    ensures CollectHooks([[first, second]]) == [second, first]
  {
    assert Flatten([[first, second]]) == [first, second];
  }

  // ----------------------------------------------------------- before_load fold

  /** One element of the sequence given to `dict.update`: a two-element list,
      string or dict is a key/value pair (a dict gives its two keys); any other
      length is a ValueError and a non-iterable a TypeError. */
  function UpdatePair(item: Value): Result<(string, Value), Raise> {
    match item
    case List(xs) =>
      if |xs| != 2 then Err(Throwing(ValueError))
      else if xs[0].Str? then Ok((xs[0].s, xs[1]))
      else Err(Throwing(TypeError))
    case Str(s) => if |s| != 2 then Err(Throwing(ValueError)) else Ok(([s[0]], Str([s[1]])))
    case Dict(es) => if |es| != 2 then Err(Throwing(ValueError)) else Ok((es[0].0, Str(es[1].0)))
    case _ => Err(Throwing(TypeError))
  }

  /** The pairs of a sequence given to `dict.update`, in order; the first bad element raises. */
  function UpdatePairs(items: seq<Value>): Result<seq<(string, Value)>, Raise>
  {
    if items == [] then Ok([])
    else
      var p :- UpdatePair(items[0]);
      var rest :- UpdatePairs(items[1..]);
      Ok([p] + rest)
  }

  /** The sequence is accepted exactly when every element is a pair, and then the
      i-th pair comes from the i-th element. */
  lemma {:induction false} UpdatePairsAccepts(items: seq<Value>)
    ensures UpdatePairs(items).Ok? <==> forall i :: 0 <= i < |items| ==> UpdatePair(items[i]).Ok?
    ensures UpdatePairs(items).Ok? ==>
      && |UpdatePairs(items).value| == |items|
      && forall i :: 0 <= i < |items| ==> UpdatePairs(items).value[i] == UpdatePair(items[i]).value
  {
    if items != [] {
      UpdatePairsAccepts(items[1..]);
      if UpdatePair(items[0]).Ok? && UpdatePairs(items[1..]).Ok? {
        forall i | 0 <= i < |items|
          ensures UpdatePairs(items).value[i] == UpdatePair(items[i]).value
        {
          if i > 0 {
            assert items[i] == items[1..][i - 1];
          }
        }
      } else if UpdatePair(items[0]).Ok? {
        var j :| 0 <= j < |items[1..]| && UpdatePair(items[1..][j]).Err?;
        assert UpdatePair(items[j + 1]).Err?;
      }
    }
  }

  /** `ctx.update(result)` for a truthy `result`: a dict is merged; a list is
      merged as its sequence of pairs; a non-empty string raises ValueError (its
      elements have length 1); anything else is not iterable and raises TypeError. */
  function Merge(ctx: seq<(string, Value)>, result: Value): Result<seq<(string, Value)>, Raise> {
    match result
    case Dict(entries) => Ok(Update(ctx, entries))
    case List(items) =>
      var pairs :- UpdatePairs(items);
      Ok(Update(ctx, pairs))
    case Str(_) => Err(Throwing(ValueError))
    case _ => Err(Throwing(TypeError))
  }

  /** A hook's effect on the accumulated dict (`if result: ctx.update(result)`). */
  function ApplyHook(h: HookId, ctx: seq<(string, Value)>,
                     run: (HookId, seq<(string, Value)>) -> Result<Value, Raise>): (r: Result<seq<(string, Value)>, Raise>)
  {
    var result :- run(h, ctx);
    if !Truthy(result) then Ok(ctx) else Merge(ctx, result)
  }

  /** The hooks applied in list order, each to the dict left by the ones before. */
  function FoldHooks(hooks: seq<HookId>, ctx: seq<(string, Value)>,
                     run: (HookId, seq<(string, Value)>) -> Result<Value, Raise>): Result<seq<(string, Value)>, Raise>
    decreases |hooks|
  {
    if hooks == [] then Ok(ctx)
    else
      var prev :- FoldHooks(hooks[..|hooks| - 1], ctx, run);
      ApplyHook(hooks[|hooks| - 1], prev, run)
  }

  /** Running `a + b` is running `a`, then `b` on what `a` left; a raise stops the rest. */
  lemma {:induction false} FoldHooksAppend(a: seq<HookId>, b: seq<HookId>, ctx: seq<(string, Value)>,
                                           run: (HookId, seq<(string, Value)>) -> Result<Value, Raise>)
    ensures FoldHooks(a + b, ctx, run) ==
      match FoldHooks(a, ctx, run)
      case Ok(mid) => FoldHooks(b, mid, run)
      case Err(e) => Err(e)
    decreases |b|
  {
    if b == [] {
      assert a + b == a;
    } else {
      var b' := b[..|b| - 1];
      assert (a + b)[..|a + b| - 1] == a + b';
      assert (a + b)[|a + b| - 1] == b[|b| - 1];
      FoldHooksAppend(a, b', ctx, run);
    }
  }

  /** Hooks only add or overwrite keys: every key of the starting dict is still there. */
  lemma {:induction false} FoldHooksKeepsKeys(hooks: seq<HookId>, ctx: seq<(string, Value)>,
                                              run: (HookId, seq<(string, Value)>) -> Result<Value, Raise>)
    requires FoldHooks(hooks, ctx, run).Ok?
    ensures KeySet(ctx) <= KeySet(FoldHooks(hooks, ctx, run).value)
    decreases |hooks|
  {
    if hooks != [] {
      FoldHooksKeepsKeys(hooks[..|hooks| - 1], ctx, run);
    }
  }

  /** The last hook's dict result wins for each of its keys; other keys keep what
      the earlier hooks left. */
  lemma LastHookWins(earlier: seq<HookId>, last: HookId, ctx: seq<(string, Value)>,
                     run: (HookId, seq<(string, Value)>) -> Result<Value, Raise>, mid: seq<(string, Value)>,
                     d: seq<(string, Value)>, k: string)
    requires FoldHooks(earlier, ctx, run) == Ok(mid)
    requires run(last, mid) == Ok(Dict(d)) && DistinctKeys(d)
    ensures FoldHooks(earlier + [last], ctx, run).Ok?
    ensures Get(FoldHooks(earlier + [last], ctx, run).value, k) == if k in KeySet(d) then Get(d, k) else Get(mid, k)
  {
    var hooks := earlier + [last];
    assert hooks[..|earlier|] == earlier;
    assert FoldHooks(hooks, ctx, run) == ApplyHook(last, mid, run);
    if d == [] {
      assert ApplyHook(last, mid, run) == Ok(mid);
      assert k !in KeySet(d);
    } else {
      assert ApplyHook(last, mid, run) == Ok(Update(mid, d));
      UpdateGet(mid, d, k);
    }
  }

  /** One more hook: the fold over `hooks[..i + 1]` applies `hooks[i]` to the fold over `hooks[..i]`. */
  lemma FoldHooksSnoc(hooks: seq<HookId>, i: nat, ctx: seq<(string, Value)>,
                      run: (HookId, seq<(string, Value)>) -> Result<Value, Raise>)
    requires i < |hooks| && FoldHooks(hooks[..i], ctx, run).Ok?
    ensures FoldHooks(hooks[..i + 1], ctx, run) == ApplyHook(hooks[i], FoldHooks(hooks[..i], ctx, run).value, run)
  {
    assert hooks[..i + 1][..i] == hooks[..i];
  }

  /** A raise on a prefix of the hooks is the raise of the whole fold. */
  lemma FoldHooksErrPrefix(hooks: seq<HookId>, i: nat, ctx: seq<(string, Value)>,
                           run: (HookId, seq<(string, Value)>) -> Result<Value, Raise>)
    requires i <= |hooks| && FoldHooks(hooks[..i], ctx, run).Err?
    ensures FoldHooks(hooks, ctx, run) == FoldHooks(hooks[..i], ctx, run)
  {
    FoldHooksAppend(hooks[..i], hooks[i..], ctx, run);
    assert hooks[..i] + hooks[i..] == hooks;
  }

  /** `Route.before_load(**loader_args)`: starts from the passed `nav_context`
      (or `{}`), runs the class's hooks in order and merges each truthy result. */
  method BeforeLoad(route: RouteConfig, navContext: Option<seq<(string, Value)>>,
                    run: (HookId, seq<(string, Value)>) -> Result<Value, Raise>)
    returns (r: Result<seq<(string, Value)>, Raise>)
    ensures r == FoldHooks(route.hooks, if navContext.Some? then navContext.value else [], run)
  {
    var start := if navContext.Some? then navContext.value else [];
    var ctx := start;
    var i := 0;
    while i < |route.hooks|
      invariant 0 <= i <= |route.hooks|
      invariant FoldHooks(route.hooks[..i], start, run) == Ok(ctx)
    {
      var hook := route.hooks[i];
      FoldHooksSnoc(route.hooks, i, start, run);
      var result := run(hook, ctx);
      if result.Err? {
        FoldHooksErrPrefix(route.hooks, i + 1, start, run);
        return Err(result.error);
      }
      if Truthy(result.value) {
        var merged := Merge(ctx, result.value);
        if merged.Err? {
          FoldHooksErrPrefix(route.hooks, i + 1, start, run);
          return Err(merged.error);
        }
        ctx := merged.value;
      }
      i := i + 1;
    }
    assert route.hooks[..i] == route.hooks;
    r := Ok(ctx);
  }

  // ------------------------------------------------------------------ registry

  /** An argument to `set_default_not_found`: a `Route` subclass, or anything else. */
  datatype ClassArg = RouteClass(cls: RouteConfig) | NotARoute

  /** A request to `navigate(path=..., form_properties=...)`. */
  datatype NavRequest = NavRequest(path: Value, formProperties: seq<(string, Value)>)

  /** Index of the first route whose `form` is `form`. */
  function FirstWithForm(routes: seq<RouteConfig>, form: Value): (r: Option<nat>)
    ensures r.Some? ==> r.value < |routes| && routes[r.value].form == form
    ensures r.Some? ==> forall j :: 0 <= j < r.value ==> routes[j].form != form
    ensures r.None? ==> forall j :: 0 <= j < |routes| ==> routes[j].form != form
  {
    if routes == [] then None
    else if routes[0].form == form then Some(0)
    else
      match FirstWithForm(routes[1..], form)
      case None => None
      case Some(i) => Some(i + 1)
  }

  class Registry {
    var sortedRoutes: seq<RouteConfig>
    var defaultNotFound: Option<RouteConfig>

    constructor ()
      ensures sortedRoutes == [] && defaultNotFound == None
    {
      sortedRoutes := [];
      defaultNotFound := None;
    }

    /** `Route.set_default_not_found(not_found_route)`. */
    method SetDefaultNotFound(arg: ClassArg) returns (r: Result<(), Error>)
      modifies this
      ensures sortedRoutes == old(sortedRoutes)
      ensures arg.NotARoute? ==> r == Err(TypeError)
      ensures arg.RouteClass? && arg.cls.path != Null ==> r == Err(AssertionError)
      ensures r.Err? ==> defaultNotFound == old(defaultNotFound)
      ensures r.Ok? <==> arg.RouteClass? && arg.cls.path == Null
      ensures r.Ok? ==> defaultNotFound == Some(arg.cls)
    {
      match arg {
        case NotARoute =>
          r := Err(TypeError);
        case RouteClass(cls) =>
          if cls.path != Null {
            return Err(AssertionError);
          }
          defaultNotFound := Some(cls);
          r := Ok(());
      }
    }

    /** `Route.__init_subclass__` for a new class `cls` (its attributes as
        resolved through inheritance). `ownDefaultNotFound` is a truthy
        `default_not_found` in the class's own body, `mro` its hook attributes
        per class of the MRO, and `parse` the segment parser. The returned
        class carries the attributes the hook sets. */
    method RegisterSubclass(cls: RouteConfig, ownDefaultNotFound: bool, mro: seq<seq<HookId>>,
                            parse: string -> seq<Segment>)
      returns (r: Result<RouteConfig, Error>)
      modifies this
      ensures r.Ok? ==> r.value.hooks == CollectHooks(mro) && r.value.id == cls.id
      ensures ownDefaultNotFound && cls.path != Null ==>
        r == Err(AssertionError) && sortedRoutes == old(sortedRoutes) && defaultNotFound == old(defaultNotFound)
      ensures ownDefaultNotFound && cls.path == Null ==> defaultNotFound == Some(cls.(hooks := CollectHooks(mro)))
      ensures !ownDefaultNotFound ==> defaultNotFound == old(defaultNotFound)
      ensures cls.path == Null ==>
        r == Ok(cls.(hooks := CollectHooks(mro))) && sortedRoutes == old(sortedRoutes)
      ensures !ownDefaultNotFound && cls.path != Null ==>
        && (r.Ok? <==> ValidAbsolutePath(cls.path).Ok?)
        && (r.Err? ==> r.error == ValidAbsolutePath(cls.path).error && sortedRoutes == old(sortedRoutes))
        && (r.Ok? ==>
              && r.value.path == Str(ValidAbsolutePath(cls.path).value)
              && r.value.segments == parse(Trim(cls.path.s))
              && sortedRoutes == old(sortedRoutes) + [r.value])
    {
      var c := cls.(hooks := CollectHooks(mro));
      if ownDefaultNotFound {
        var registered := SetDefaultNotFound(RouteClass(c));
        if registered.Err? {
          return Err(registered.error);
        }
      }
      if c.path == Null {
        return Ok(c);
      }
      if !c.path.Str? {
        return Err(TypeError);
      }
      var trimmed := Trim(c.path.s);
      c := c.(segments := parse(trimmed));
      if trimmed != [] && trimmed[0] == '.' {
        return Err(ValueError);
      }
      // `trimmed` never starts with '/', so the path always gains exactly one.
      c := c.(path := Str("/" + trimmed));
      sortedRoutes := sortedRoutes + [c];
      r := Ok(c);
    }

    /** `open_form(form, **form_properties)`: navigates to the path of the first
        registered route whose form is `form`, which must take no path params. */
    method OpenForm(form: Value, formProperties: seq<(string, Value)>) returns (r: Result<NavRequest, Error>)
      ensures !form.Str? ==> r == Err(TypeError)
      ensures form.Str? && FirstWithForm(sortedRoutes, form).None? ==> r == Err(ValueError)
      ensures form.Str? && FirstWithForm(sortedRoutes, form).Some? ==>
        var route := sortedRoutes[FirstWithForm(sortedRoutes, form).value];
        r == if HasParam(route.segments) then Err(ValueError) else Ok(NavRequest(route.path, formProperties))
    {
      if !form.Str? {
        return Err(TypeError);
      }
      var i := 0;
      while i < |sortedRoutes|
        invariant 0 <= i <= |sortedRoutes|
        invariant forall j :: 0 <= j < i ==> sortedRoutes[j].form != form
      {
        var route := sortedRoutes[i];
        if route.form == form {
          FirstWithFormIs(sortedRoutes, form, i);
          var j := 0;
          while j < |route.segments|
            invariant 0 <= j <= |route.segments|
            invariant forall k :: 0 <= k < j ==> !route.segments[k].Param?
          {
            if route.segments[j].Param? {
              return Err(ValueError);
            }
            j := j + 1;
          }
          return Ok(NavRequest(route.path, formProperties));
        }
        i := i + 1;
      }
      r := Err(ValueError);
    }
  }

  /** The first index holding `form`, found by a scan, is `FirstWithForm`'s. */
  lemma {:induction false} FirstWithFormIs(routes: seq<RouteConfig>, form: Value, i: nat)
    requires i < |routes| && routes[i].form == form
    requires forall j :: 0 <= j < i ==> routes[j].form != form
    ensures FirstWithForm(routes, form) == Some(i)
  {
    if i > 0 {
      FirstWithFormIs(routes[1..], form, i - 1);
    }
  }

  /** `open_form` decides on the first route with the form: when that one takes
      path params it fails, whatever later routes with the same form look like. */
  lemma OpenFormFirstMatchDecides(routes: seq<RouteConfig>, form: Value, i: nat)
    requires i < |routes| && routes[i].form == form && HasParam(routes[i].segments)
    requires forall j :: 0 <= j < i ==> routes[j].form != form
    ensures FirstWithForm(routes, form) == Some(i)
  {
    FirstWithFormIs(routes, form, i);
  }
}
