# Client-side router core, modelled in Dafny

This project models the core of the `routing` package of Anvil: a client-side router for
Python web apps. The modelled parts are:

- **Data loader and its cache policy**: `load_data_promise` chooses per key between cached
  data and a load. The choice depends on the one-shot initial-request flag and the cached
  entry's mode (NO_CACHE, CACHE_FIRST, NETWORK_FIRST, STALE_WHILE_REVALIDATE). At most one
  load is in flight per key. `on_result` settles a load. `wrapped_loader` retries once on
  AppOfflineError. `use_data` is also modelled.
- **The three shared stores** (cached forms, cached data, in-flight loads) and `clear_cache`.
- **The router client**:
  - the navigation and before-unload blockers;
  - the history listener's state machine (`waiting`, `undoing`, `redirect`, `current`);
  - `stop_unload`, and `gc` over both caches;
  - `on_navigate`;
  - the decision skeleton of `_do_navigate`: before-load hooks, redirect, meta tags,
    cached-form reuse, data load, the race against the pending delay, the pending form,
    await, mount and record, and `handle_error` with its staleness checks;
  - `get_context`.
- **Route registration**:
  - `__init_subclass__`: hook collection over the MRO, the default not-found route, path
    checks and normalisation, and the `sorted_routes` registry;
  - the `before_load` hook fold;
  - `set_default_not_found` and `open_form`.
- **Utilities**:
  - `trim_path`, `valid_absolute_path`, `ensure_dict`;
  - `make_key` / `decode_key` over the canonical serialiser `dumps` (sorted keys);
  - `default_hook` / `object_hook`;
  - the `EventEmitter` subscriber table.
- **`Redirect`**, whose dict fields are normalised by `ensure_dict`.
- **The legacy URL builder `navigate.py`**:
  - path from segments and path params;
  - search params JSON-encoded in sorted key order;
  - an early exit when nothing changed;
  - push or replace.

Where the source changes state in place, the model does too:

- `Cached.Stores` holds the three dicts.
- `Loader.DataLoader` holds `_initial_request` and the load counter, over the shared stores.
- `Client.Client` holds the client's module globals, the form-to-context map and the
  current context.
- `RouteRegistry.Registry` holds `sorted_routes` and the default not-found route.
- `Utils.EventEmitter` holds `_subscribers`.
- `Routing.History` is the browser history.

Every such method is proved against a specification function:

- `load_data_promise` against `Loader.Load`, and `on_result` against `Loader.SettleState`.
- `_do_navigate` against `Client.Decide`, which returns a `Plan`. A plan holds the meta tags
  applied, the cached context made current, whether the loader is asked, the mounts in
  order, the `(data, error)` set on the context, the instance recorded, and the outcome.
- The blocker methods against `Client.UnloadBlock`, `Client.NavigationUnblock` and the
  other blocker functions.
- `listener` against `Client.Listen`.
- `gc` against `Client.Collect` and `Client.CollectForms`.
- `before_load` against `RouteRegistry.FoldHooks`.
- `trim_path` against `Utils.Trim`.
- `navigate`'s loops against `LegacyNavigate.BuildPath` and `LegacyNavigate.BuildSearch`.

The properties the router relies on are lemmas about these functions.

Python dicts are insertion-ordered association lists `seq<(string, Value)>`. So the claim
"equal dicts give equal keys under `sort_keys=True`" is a real theorem here
(`Utils.MakeKeyIgnoresInsertionOrder`), not a tautology. Time is an integer clock `now`, in
seconds. The matcher, the segment parser, `url_encode`, `str` and `encode_search_params`
are function parameters.

Some application code is not part of this model: the route's hooks, loaders and form
mounting, and `_prevent_unload`. It enters as inputs:

- `RouteRegistry.FoldHooks` gets `run`.
- `Loader.WrappedLoader` gets `call`.
- `Client.Decide` gets `NavInputs`.
- `Client.Client.OnNavigate` gets `Environment`.

The staleness answers of `is_stale()` at each checkpoint are inputs too, and so are the
race's result and the open form.

Three places worth knowing when reading the model:

- **Hook order.** The `before_load` docstring (`_route.py` line 108) says hooks run in the
  order they are defined. The code reverses the whole MRO walk (`_route.py` lines 197-203).
  Base-class hooks therefore do run first, but within one class the hooks run last-defined
  first. The model follows the code: see `RouteRegistry.CollectHooksWithinClass`.
- **Uncaught stages.** `_do_navigate` catches errors only around `before_load`, the race,
  the await and the mount of `route.form`. Nothing catches `route.meta` / `ensure_dict`
  (`_router/client.py` lines 158-160) or `load_data_promise` (line 186). So a `meta` result
  that is not a dict (TypeError) and an unknown cache mode both leave the router. The
  model ends both as `Escaped`.
- **Not-found data.** For the default not-found route, `on_navigate` sets the context's data
  to `(None, NotFound)` (`_router/client.py` line 261). `_do_navigate` then calls
  `context.set_data(data, error)` (line 209) on every path that reaches the await, which
  replaces both fields. So the NotFound survives only a redirect, an escape, a cached form or
  a stale exit before the await. The model follows the code: see `Client.DecideLoadReplacesData`.

## Model

| member | source | states |
|---|---|---|
| CachedEntries.NewCachedData | client_code/router/_loader.py:21-27 | a new entry keeps data, location, mode and gc_time as given, has `fetched_at == now` and is not stale |
| CachedEntries.ShouldGc | client_code/router/_loader.py:29-30 | specification of `_should_gc`; its properties are stated by `ShouldGcAtTtl`, `ShouldGcMonotone`, `DeserializedNotCollected` and `NewAndDeserializedAgree` |
| CachedEntries.ShouldGcAtTtl | client_code/router/_loader.py:29-30 | the inequality is strict: an entry exactly `gc_time` old survives, one second later it is collectable |
| CachedEntries.ShouldGcMonotone | client_code/router/_loader.py:29-30 | once collectable, an entry stays collectable as time advances |
| CachedEntries.Deserialized | client_code/router/_loader.py:32-33 | every serialised field is restored and `fetched_at` is reset to now |
| CachedEntries.DeserializedNotCollected | client_code/router/_loader.py:29-33 | an entry arriving with the startup data is never collected at once, whatever its age on the server |
| CachedEntries.NewAndDeserializedAgree | client_code/router/_loader.py:21-33 | a new entry and a deserialised one made at the same time are collectable at exactly the same times |
| Cached.Stores.constructor | client_code/router/_cached.py:6-8 | the three stores start empty |
| Cached.Stores.ClearCache | client_code/router/_cached.py:11-14 | all three stores are empty afterwards, in place on the one shared object; the result does not depend on the state before, so clearing twice is clearing once |
| Exceptions.NewRedirect | client_code/router/_exceptions.py:11-27 | path, query, params and hash are stored verbatim; a None dict field becomes `{}` and a dict is kept; a non-dict dict field is a TypeError |
| Exceptions.NewRedirectFromFields | client_code/router/_exceptions.py:22-27 | rebuilding a redirect from its own fields (`navigate(**r.__dict__)`) gives the same redirect |
| Exceptions.NewRedirectDefaults | client_code/router/_exceptions.py:12-21 | with no argument every field is None and both dicts are empty |
| Routing.DefaultRoute | client_code/router/_route.py:116-131 | the class defaults of `Route`: no path, no segments, no forms, NO_CACHE, stale_time 0, gc_time 30 minutes, no form caching, no hooks |
| Loader.StartOrJoin | client_code/router/_loader.py:98-107 | joins the handle in flight for the key unchanged; otherwise issues one new handle with the next identity and files it under the key; the data cache and the initial flag are untouched |
| Loader.Load | client_code/router/_loader.py:42-49 | every request clears the initial-request flag |
| Loader.LoadInitialHit | client_code/router/_loader.py:109-124 | on the first request a cache hit returns the cached data and starts no load; a NO_CACHE entry is dropped, any other entry is kept |
| Loader.LoadCachedPolicy | client_code/router/_loader.py:125-144 | after the first request the entry's own mode decides: NO_CACHE drops it and waits on a load; CACHE_FIRST changes nothing and returns the data; NETWORK_FIRST waits on a load and keeps the cache; STALE_WHILE_REVALIDATE returns the data; any other mode raises |
| Loader.LoadRevalidates | client_code/router/_loader.py:135-142 | STALE_WHILE_REVALIDATE starts a background load exactly when the entry is marked stale or older than `stale_time` |
| Loader.LoadMiss | client_code/router/_loader.py:146-148 | with no entry for the key, or with `force`, the request waits on the key's in-flight load and the cache is unchanged |
| Loader.LoadDeduplicates | client_code/router/_loader.py:98-101 | while a load for the key is in flight no load is issued, and a pending answer is that same handle |
| Loader.LoadKeepsInFlightKeyed | client_code/router/_loader.py:98-107 | a request issues at most one load and keeps every in-flight load filed under its own key |
| Loader.SettleState | client_code/router/_loader.py:62-81 | settling changes neither the initial flag nor the load counter |
| Loader.SettleEffects | client_code/router/_loader.py:56-81 | the key's in-flight entry is always removed and no other; the cache changes only on success of a non-NO_CACHE route, and then only at the key, with a fresh entry holding the data and the route's mode |
| Loader.SettleKeepsInFlightKeyed | client_code/router/_loader.py:56-65 | settling keeps every remaining in-flight load filed under its key |
| Loader.WrappedLoaderRetriesOnce | client_code/router/_loader.py:83-96 | the loader is called twice exactly when the first call is AppOffline, else once; other errors propagate unchanged; when both calls are offline a cached key answers with its cached data, and AppOffline escapes only when nothing is cached |
| Loader.AwaitData | client_code/router/_loader.py:184-187 | awaiting resolved data gives it; awaiting a load gives its value, or its error to re-raise |
| Loader.DataLoader.constructor | client_code/router/_loader.py:42 | the loader starts with the initial-request flag set |
| Loader.DataLoader.CreateInFlight | client_code/router/_loader.py:98-107 | the new loader state and handle are `StartOrJoin` of the old state; the form cache is untouched |
| Loader.DataLoader.LoadDataPromise | client_code/router/_loader.py:45-150 | the new loader state and the promise are exactly those of `Load` on the old state; the form cache is untouched |
| Loader.DataLoader.OnResult | client_code/router/_loader.py:62-81 | the new state is `SettleState` of the old one, and the context receives `(data, None)` or `(None, error)` |
| Loader.DataLoader.UseData | client_code/router/_loader.py:158-187 | cached data first, then the load in flight, else one new load from a fresh context as `Load` states; the result is awaited, and an error is the load's own error |
| Values.UpdateGet | client_code/router/_route.py:153 | after `ctx.update(result)` a key of the result holds the result's value and every other key keeps its old value |
| Json.SortByKey | client_code/router/_utils/__init__.py:129-130 | the entries in ascending key order, a permutation keeping the same keys |
| Json.Dumps | client_code/router/_utils/__init__.py:129-130 | specification of `dumps` with `sort_keys=True`; its properties are stated by `DumpsIgnoresInsertionOrder`, `Utils.DictDumpFails` and `Utils.MakeKeyRejectsUnserialisable` |
| Json.SortedUnique | client_code/router/_utils/__init__.py:129-130 | two key-sorted arrangements of the same entries of a dict are equal |
| Json.DumpsIgnoresInsertionOrder | client_code/router/_utils/__init__.py:129-130 | with `sort_keys=True`, the same dict built in any insertion order serialises to the same text |
| Utils.StripLeadingShape | client_code/router/_utils/__init__.py:56-57 | stripping leading slashes leaves a suffix that does not start with '/', and removes only slashes |
| Utils.StripTrailingShape | client_code/router/_utils/__init__.py:58-59 | stripping trailing slashes leaves a prefix that does not end with '/', and removes only slashes |
| Utils.Trim | client_code/router/_utils/__init__.py:53-60 | the trimmed path neither starts nor ends with '/' |
| Utils.TrimShape | client_code/router/_utils/__init__.py:53-60 | the trimmed path is a contiguous part of the path, and only slashes are dropped around it |
| Utils.TrimIdempotent | client_code/router/_utils/__init__.py:53-60 | trimming twice is trimming once |
| Utils.TrimPath | client_code/router/_utils/__init__.py:53-60 | the two `while` loops moving `start` and `end` compute `Trim(path)` |
| Utils.ValidAbsolutePath | client_code/router/_utils/__init__.py:63-69 | a non-string is a TypeError; a trimmed path starting with '.' is a ValueError; otherwise the result is "/" + the trimmed path: it starts with exactly one '/' and does not end with '/' |
| Utils.ValidAbsolutePathIdempotent | client_code/router/_utils/__init__.py:63-69 | an accepted path is its own normal form |
| Utils.EnsureDict | client_code/router/_utils/__init__.py:72-77 | None gives `{}`, a dict is returned unchanged, anything else is a TypeError |
| Utils.MakeKey | client_code/router/_utils/__init__.py:80-89 | a key is the path, then ':', then the serialised deps; every failure is a TypeError |
| Utils.MakeKeyOfNone | client_code/router/_utils/__init__.py:80-89 | None deps and empty deps both give `path + ":{}"` |
| Utils.MakeKeyIgnoresInsertionOrder | client_code/router/_utils/__init__.py:80-89 | equal deps dicts built in different insertion orders give the same key |
| Utils.DictDumpFails | client_code/router/_utils/__init__.py:129-130 | a dict with one member that JSON cannot represent cannot be serialised either |
| Utils.MakeKeyRejectsUnserialisable | client_code/router/_utils/__init__.py:82-87 | deps holding a date or another non-JSON value are refused with TypeError |
| Utils.DecodeKey | client_code/router/_utils/__init__.py:92-95 | splits at the first ':'; a key without ':' cannot be unpacked (ValueError) |
| Utils.DecodeMakeKey | client_code/router/_utils/__init__.py:92-95 | decoding a made key gives back its path and deps text exactly when the path has no ':' |
| Utils.DefaultHook | client_code/router/_utils/__init__.py:106-113 | only dates and datetimes are accepted; anything else is a TypeError |
| Utils.ObjectHook | client_code/router/_utils/__init__.py:116-126 | a one-key dict tagged `$$_datetime` or `$$_date` becomes that value when `fromisoformat` accepts its text; a non-string is a TypeError and a non-ISO string a ValueError; every other dict comes back unchanged |
| Utils.ObjectHookInvertsDefaultHook | client_code/router/_utils/__init__.py:106-126 | the two hooks are inverse on every value `default_hook` accepts, given that `fromisoformat` reads back what `isoformat` writes |
| Utils.EventEmitter.constructor | client_code/router/_utils/__init__.py:140-143 | each emitter starts with its own empty subscriber table |
| Utils.EventEmitter.Validate | client_code/router/_utils/__init__.py:145-151 | a non-string name is a TypeError, a name not in `_events` is a ValueError, and only valid names pass |
| Utils.EventEmitter.AddEventHandler | client_code/router/_utils/__init__.py:153-155 | an invalid name changes nothing; otherwise the handler joins the name's set, so adding twice is adding once |
| Utils.EventEmitter.RemoveEventHandler | client_code/router/_utils/__init__.py:157-160 | an invalid name changes nothing; otherwise the handler leaves the name's set, and removing an absent handler or name is a no-op |
| Utils.EventEmitter.RaiseEvent | client_code/router/_utils/__init__.py:162-168 | every subscriber of the name is called, with the caller's kwargs plus `event_name` and `sender` |
| RouteRegistry.CollectHooksBaseFirst | client_code/router/_route.py:197-203 | collected hooks run base class first, each class's hooks in reverse definition order |
| RouteRegistry.CollectHooksWithinClass | client_code/router/_route.py:197-203 | two hooks defined in one class run in the reverse of their definition order |
| RouteRegistry.UpdatePair | client_code/router/_route.py:153 | one element of the sequence `ctx.update` is given; stated through `UpdatePairsAccepts` |
| RouteRegistry.UpdatePairs | client_code/router/_route.py:153 | the pairs of a sequence given to `ctx.update`; `UpdatePairsAccepts` states when it is accepted and what the pairs are |
| RouteRegistry.Merge | client_code/router/_route.py:153 | `ctx.update(result)` for a truthy result; `UpdateGet` and `UpdatePairsAccepts` state its effect on each key |
| RouteRegistry.ApplyHook | client_code/router/_route.py:151-153 | one hook run and merged; stated through `FoldHooksAppend`, `FoldHooksKeepsKeys` and `LastHookWins` |
| RouteRegistry.FoldHooks | client_code/router/_route.py:148-154 | specification of the `before_load` loop; `BeforeLoad` is proved equal to it, and `FoldHooksAppend`, `FoldHooksKeepsKeys` and `LastHookWins` state its properties |
| RouteRegistry.FoldHooksAppend | client_code/router/_route.py:148-154 | running `a + b` is running `a` and then `b` on what `a` left; a raise stops the rest |
| RouteRegistry.FoldHooksKeepsKeys | client_code/router/_route.py:149-153 | hooks only add or overwrite keys: every starting key survives |
| RouteRegistry.LastHookWins | client_code/router/_route.py:149-153 | the last hook's dict result wins for each of its keys, and every other key keeps what the earlier hooks left |
| RouteRegistry.BeforeLoad | client_code/router/_route.py:145-154 | the loop computes the fold of the class's hooks from the passed `nav_context` (or `{}`), including where a hook or `ctx.update` raises |
| RouteRegistry.UpdatePairsAccepts | client_code/router/_route.py:152-153 | `ctx.update` accepts a list result exactly when every element is a pair, and then merges the pairs in order |
| RouteRegistry.FirstWithForm | client_code/router/_route.py:254-256 | the index of the first route with the form; none before it has the form, and none at all when there is none |
| RouteRegistry.Registry.constructor | client_code/router/_route.py:18-20 | the registry starts empty, with no default not-found route |
| RouteRegistry.Registry.SetDefaultNotFound | client_code/router/_route.py:179-188 | a non-Route argument is a TypeError and a route with a path an AssertionError, both leaving the default unchanged; otherwise the class becomes the default |
| RouteRegistry.Registry.RegisterSubclass | client_code/router/_route.py:193-229 | hooks are collected; a class with its own `default_not_found` registers itself or fails; a pathless class is not registered; a bad path fails as `valid_absolute_path` does and registers nothing; otherwise the class is appended once, with path "/" + trimmed and segments parsed from the trimmed path |
| RouteRegistry.Registry.OpenForm | client_code/router/_route.py:247-266 | a non-string form is a TypeError; no route with the form is a ValueError; otherwise the first such route decides: a ValueError if it takes path params, else a navigation to its path with the form properties |
| RouteRegistry.FirstWithFormIs | client_code/router/_route.py:254-256 | the index a scan stops at is the first route with the form |
| RouteRegistry.OpenFormFirstMatchDecides | client_code/router/_route.py:254-262 | a first matching route that takes path params is the one `open_form` reports, whatever later routes with the form look like |
| LegacyNavigate.Piece | client_code/router/navigate.py:19-26 | a segment fails exactly when it is a param with no value, and the error names that param |
| LegacyNavigate.BuildPath | client_code/router/navigate.py:16-26 | specification of the segment loop; `RealPath` is proved equal to it, and `BuildPathAppend` and `BuildPathFails` state its properties |
| LegacyNavigate.BuildPathAppend | client_code/router/navigate.py:19-26 | building `a + b` is building `a` and then `b`, and the first failure is the one reported |
| LegacyNavigate.BuildPathFails | client_code/router/navigate.py:19-26 | building fails exactly when some param segment has no value, and then the error names the first such param |
| LegacyNavigate.DumpValues | client_code/router/navigate.py:30-31 | a failure to encode a value is a TypeError |
| LegacyNavigate.DumpValuesKeys | client_code/router/navigate.py:29-31 | encoding succeeds exactly when every value encodes, keeps the keys in order and pairs each with its value's text |
| LegacyNavigate.BuildSearch | client_code/router/navigate.py:27-33 | no search params give an empty search string |
| LegacyNavigate.SearchKeysSorted | client_code/router/navigate.py:29-31 | the pairs handed to `encode_search_params` are in ascending key order |
| LegacyNavigate.BuildSearchIgnoresInsertionOrder | client_code/router/navigate.py:27-33 | the same search params in any insertion order give the same search string |
| LegacyNavigate.Target | client_code/router/navigate.py:9-35 | without a path the target succeeds exactly when the search builds, and has no path; with a path it succeeds exactly when both the path and the search build; a path failure is reported before a search failure; the hash is kept and the search is `BuildSearch` |
| LegacyNavigate.RealPath | client_code/router/navigate.py:16-26 | the segment loop computes `BuildPath`, stopping at the first missing param |
| LegacyNavigate.RealSearch | client_code/router/navigate.py:27-33 | the sorted-key loop computes `BuildSearch` |
| LegacyNavigate.Navigate | client_code/router/navigate.py:9-50 | fails exactly when the target fails, and then touches no history; a target with the same path, search and hash as the current location touches no history; otherwise exactly one replace (when `replace`) or push of the target |
| Client.NavigationBlocker.constructor | client_code/router/_router/client.py:76-78 | a blocker keeps its flag and owns a fresh unload blocker |
| Client.UnloadBlock | client_code/router/_router/client.py:64-67 | specification of `UnloadBlocker.block`; stated by `UnloadBlockValid` and implemented by `Client.Client.BlockUnload` |
| Client.UnloadUnblock | client_code/router/_router/client.py:69-72 | specification of `UnloadBlocker.unblock`; stated by `UnloadUnblockValid` and implemented by `Client.Client.UnblockUnload` |
| Client.NavigationBlock | client_code/router/_router/client.py:88-93 | specification of `NavigationBlocker.block`; stated by `NavigationBlockValid` and implemented by `Client.Client.Block` |
| Client.NavigationUnblock | client_code/router/_router/client.py:95-100 | specification of `NavigationBlocker.unblock`; stated by `NavigationUnblockValid` and `BlockThenUnblockRestores`, and implemented by `Client.Client.Unblock` |
| Client.UnloadBlockValid | client_code/router/_router/client.py:64-67 | blocking keeps the blocker invariant, and the listener is added exactly on the empty to non-empty transition |
| Client.UnloadUnblockValid | client_code/router/_router/client.py:69-72 | unblocking a member removes the listener exactly on the non-empty to empty transition; a non-member raises KeyError and changes nothing |
| Client.NavigationBlockValid | client_code/router/_router/client.py:88-93 | after `block()` the set holds the blocker, `waiting` is set and the invariant holds; the unload blocker is used only when `warn_before_unload` is set |
| Client.NavigationUnblockValid | client_code/router/_router/client.py:95-100 | after `unblock()`, `waiting == bool(navigation_blockers)` and the invariant holds; a non-member raises KeyError before anything changes |
| Client.BlockThenUnblockRestores | client_code/router/_router/client.py:241-245 | a fresh blocker held around a check leaves `waiting` and both sets as they were, and raises nothing |
| Client.Listen | client_code/router/_router/client.py:277-296 | specification of the listener's state machine; stated by `ListenNavigatesIff`, `ListenRollsBack`, `ListenReloads` and `ListenRedirectOneShot`, and implemented by `Client.Client.Listener` |
| Client.ListenNavigatesIff | client_code/router/_router/client.py:277-296 | `on_navigate` runs exactly when nothing is being undone or blocked and `redirect` is set |
| Client.ListenRollsBack | client_code/router/_router/client.py:280-286 | a blocked move with a delta is rolled back with `go(-delta)`, and the event the rollback causes is swallowed, restoring the flags |
| Client.ListenReloads | client_code/router/_router/client.py:282-289 | a blocked move without a delta reloads and changes no flag |
| Client.ListenRedirectOneShot | client_code/router/_router/client.py:290-296 | a cleared `redirect` suppresses exactly one navigation, while recording the event as `current` |
| Client.Collect | client_code/router/_router/client.py:112-117 | specification of the data-cache sweep of `gc`; stated by `CollectExactly`, `CollectIdempotent` and `CollectMonotone`, and implemented by `Client.Client.Gc` |
| Client.CollectForms | client_code/router/_router/client.py:112-117 | specification of the form-cache sweep of `gc`; stated by `CollectExactly` and implemented by `Client.Client.Gc` |
| Client.CollectExactly | client_code/router/_router/client.py:112-117 | a key leaves both caches exactly when its data entry is collectable; everything else is kept as it was, including a cached form with no data entry |
| Client.CollectIdempotent | client_code/router/_router/client.py:112-117 | sweeping twice at the same time is sweeping once |
| Client.CollectMonotone | client_code/router/_router/client.py:112-117 | a later sweep removes at least what an earlier one would |
| Client.HandleError | client_code/router/_router/client.py:135-146 | stale: nothing happens; otherwise the error is set on the context, then the form named by `form_attr` is mounted, or the error is re-raised when the route has none |
| Client.Decide | client_code/router/_router/client.py:120-230 | specification of `_do_navigate`; stated by `DecideRedirect`, `DecideCachedForm`, `DecidePendingForm`, `DecideMountFailure`, `DecideLoadReplacesData` and `DecideRecords`, and implemented by `Client.Client.DoNavigate` |
| Client.DecideAfterHooks | client_code/router/_router/client.py:157-186 | context data is set only on the path that asks the loader |
| Client.DecideCached | client_code/router/_router/client.py:171-183 | the cached-form branch applies no meta, loads nothing, sets no data and records nothing beyond what came before |
| Client.DecideLoad | client_code/router/_router/client.py:186-193 | the steps after the load keep the meta, the current context and the loads flag decided before |
| Client.DecideRace | client_code/router/_router/client.py:188-205 | the steps from the race keep the meta, the current context and the loads flag decided before |
| Client.DecideAwait | client_code/router/_router/client.py:207-219 | the steps from the await keep the meta, the current context and the loads flag decided before |
| Client.DecideMount | client_code/router/_router/client.py:221-230 | the mount step keeps the meta, the current context and the loads flag decided before |
| Client.DecideMountFailure | client_code/router/_router/client.py:221-230 | a failed mount of `route.form` on a current navigation goes to `error_form` for every error, NotFound included: the error is set on the context, nothing is recorded, and the error form is mounted last or the error escapes |
| Client.DecideLoadReplacesData | client_code/router/_router/client.py:207-230 | once the data promise settles with data and the navigation either moves on at once or mounts `route.form`, the context's data is that data with no error, whatever was set before (the not-found fallback's NotFound included) |
| Client.DecideRedirect | client_code/router/_router/client.py:148-151 | a Redirect from `before_load` becomes a replacing navigation, and nothing else happens |
| Client.DecideCachedForm | client_code/router/_router/client.py:171-183 | a cached form for the key means: no data load, nothing recorded, no data set, its context made current, and a re-mount exactly when it is not the open form |
| Client.DecidePendingForm | client_code/router/_router/client.py:198-205 | the pending form is mounted, first and at most once, exactly when the route has one and the race ended on the timeout |
| Client.HandleErrorRecordsNothing | client_code/router/_router/client.py:135-146 | `handle_error` records no instance |
| Client.DecideAwaitRecords | client_code/router/_router/client.py:207-230 | from the await on, an instance is recorded only as the last mount, that of `route.form`, after data without error |
| Client.DecideRaceRecords | client_code/router/_router/client.py:188-230 | the same holds from the race on |
| Client.DecideRecords | client_code/router/_router/client.py:120-230 | a navigation records an instance only when `route.form` was mounted last, after a data load without error, and then ends with that instance; a cached-form navigation records nothing |
| Client.HandleErrorStaleOrReraise | client_code/router/_router/client.py:135-153 | a stale error mounts nothing and leaves the context's data alone; a current one re-raises when the route has no form for it; a NotFound caught by an `except NotFound` clause shows `not_found_form`, and `error_form` shows for any error handed to it |
| Client.ChooseMatch | client_code/router/_router/client.py:247-255 | the matcher's match; else the default not-found route's match; none (NotFound raised) exactly when neither exists |
| Routing.RoutingContext.SetData | client_code/router/_router/client.py:139 | `context.set_data(data, error)` as the router calls it: the context then holds exactly that pair, and its `nav_context` and `form_properties` keep their values |
| Client.Client.constructor | client_code/router/_router/client.py:33-41 | the globals at import time: nothing waiting or undone, `redirect` set, no delta, no blockers, no contexts |
| Client.Client.GetContext | client_code/router/_router/client.py:44-48 | the recorded context of a form, or ValueError when it has none |
| Client.Client.BlockUnload | client_code/router/_router/client.py:64-67 | the new blocker state is `UnloadBlock` of the old; the listener flags are untouched |
| Client.Client.UnblockUnload | client_code/router/_router/client.py:69-72 | the new blocker state and error are `UnloadUnblock` of the old |
| Client.Client.Block | client_code/router/_router/client.py:88-93 | the new blocker state is `NavigationBlock` of the old |
| Client.Client.Unblock | client_code/router/_router/client.py:95-100 | the new blocker state and error are `NavigationUnblock` of the old |
| Client.Client.StopUnload | client_code/router/_router/client.py:103-109 | sets `undoing`, and calls `go(-delta)` exactly when the last recorded delta is not None |
| Client.Client.Gc | client_code/router/_router/client.py:112-117 | the loop over a snapshot leaves the data cache `Collect` and the form cache `CollectForms` of the old ones; loads in flight are untouched |
| Client.Client.DoNavigate | client_code/router/_router/client.py:120-230 | the outcome, the loader state (`Load` exactly when the plan loads), the mounts, meta tags, current context, recorded instance, the `CACHED_FORMS` entry (only with `cache_form`) and the context's data are those of `Decide` |
| Client.Client.AfterHooks | client_code/router/_router/client.py:157-230 | the same, stated through `DecideAfterHooks`, once `before_load` has returned |
| Client.Client.CachedPhase | client_code/router/_router/client.py:171-183 | outcome, mounts and current context as `DecideCached` says |
| Client.Client.RacePhase | client_code/router/_router/client.py:188-205 | outcome, mounts, recorded instance, form cache and context data as `DecideRace` says; the data cache is untouched |
| Client.Client.AwaitPhase | client_code/router/_router/client.py:207-219 | the same as `DecideAwait` says; the context always receives the awaited `(data, error)` |
| Client.Client.MountPhase | client_code/router/_router/client.py:221-230 | the same as `DecideMount` says: on success the instance is recorded with its context and cached only with `cache_form`; on failure `handle_error("error_form", e)` |
| Client.Client.OnError | client_code/router/_router/client.py:135-146 | outcome and mounts as `HandleError` says for the given `form_attr`; the context gets `(None, error)` unless stale |
| Client.Client.OnNavigate | client_code/router/_router/client.py:233-274 | blocked by the previous context: the unload is stopped, no context is created and no cache, form, meta tag or current context changes; no match and no default: NotFound with nothing changed; otherwise a fresh context on the match (data `(None, NotFound)` for the default route) becomes current, `gc` runs, and the outcome, loader state, mounts, meta tags, current context, recorded instance, form cache (swept, plus the `cache_form` record) and the context's data are those `Decide` gives over the swept caches; the blocker sets and `waiting` are as before, and the window listener is added and removed once exactly when a previous context was checked with no unload blocker held; `redirect` and `current` never change, and `undoing` changes only when the unload is blocked |
| Client.Client.GuardPrevious | client_code/router/_router/client.py:239-245 | blocks exactly when there is a previous context that prevents the unload, and then stops it; the blocker held for the check is released, adding and removing the window listener exactly when no unload blocker was held |
| Client.Client.Start | client_code/router/_router/client.py:247-271 | no match and no default: NotFound with nothing changed; otherwise the new context, `gc` and every effect of `_do_navigate` as stated for `OnNavigate`; the listener flags, blocker sets and window listener are unchanged |
| Client.Client.Proceed | client_code/router/_router/client.py:265-271 | `gc` and then `_do_navigate`: outcome, loader state (over the swept data cache), mounts, meta tags, current context, recorded instance, form cache (the swept one plus the `cache_form` record) and context data are those of `Decide` over the swept caches; the listener flags, blocker sets and window listener are unchanged |
| Client.Client.Listener | client_code/router/_router/client.py:277-296 | the reaction and new flags are `Listen` of the old flags; an undo calls `go(-delta)`, a reload calls `reload()`, an ignored event adds no history call; every reaction other than a navigation leaves the data and form caches, the loader, the blockers, the current context, the instance map, meta tags and mounts as they were; on a navigation `current` is `delta`, `redirect` stays set, and `undoing` is set exactly when `on_navigate` was blocked |

## Left out

- Async machinery is not modelled concurrently: `call_async`, `Promise.race`, `await_promise`, `sleep` (the one-second retry pause, `pending_min`, `sleep(0)`), `setTimeout` and `clearTimeout`. A load is a start event (`LoadDataPromise`) and a settle event (`OnResult`), and the race result is an input. So `pending_delay` and `pending_min` are not fields of the route.
- `Client.Client.DoNavigate`: the settle event of a load the navigation starts is not part of the navigation. How the load ends is an input (`NavInputs.settled`), and `OnResult` runs separately.
- The `navigate`, `pending` and `idle` events that `on_navigate` raises, and the `_NavigationEmitter` instance, are left out because they are timers around the navigation. `Utils.EventEmitter` is modelled on its own.
- Mounting a form is recorded as a `MountOp`, and `route.load_form` and `ViewTransition` are not modelled. A failure while mounting the error, pending or cached form is assumed not to happen; only the mount of `route.form` may fail.
- `anvil.get_open_form()` is an input, and `is_stale()` answers are inputs (`Moved`) rather than comparisons of history keys.
- `RoutingContext._update(context)` on a reused cached form's context is not modelled; its context is only made current. The routing context module is not part of this model.
- `update_meta_tags` is the `metaTags` field. `form_to_context` (a WeakMap) is a map that never forgets an instance.
- The route's hooks mutating the shared `nav_context` dict themselves, or keeping aliases to it, is not modelled: a hook sees the dict and returns its result.
- `Client.Client.Listener` records only the `delta` of the listener arguments as `current`, because `stop_unload` reads nothing else.
- `Client.Client.Listener`: when `on_navigate` runs, the flags are stated, but what the navigation did to caches, mounts and history is stated by `Client.Client.OnNavigate` and not repeated.
- `Client.Client.DoNavigate`: a Redirect is reported as `Redirected(redirect)`. The nested `navigate(..., replace=True)` it triggers is left out, because the navigation entry point is not part of this model.
- `launch` (startup data merged into the data cache, history listener installed) is left out. It only wires the listener and merges a dict.
- `dumps` writes JSON text with `", "` and `": "` separators and escapes only `"` and `\`. Control-character and non-ASCII escaping are left out. A date, datetime or other object is not serialisable: `default=dumps` recurses on it without end, and `make_key` turns that into TypeError.
- `loads` is not modelled, so `Utils.DecodeKey` returns the deps as text.
- The segment parser (`Segment.from_path`), `url_encode`, `str`, `encode_search_params` and the matcher are function parameters. The segments and matcher modules are not part of this model.
- `navigate.py` also prints the target locations; the output is left out.
- `Route.create`, `_create_server_route`, the server-call `load_data` installed by `__init_subclass__`, the warning printed for a class that overrides `before_load` while having hooks, and `TemplateWithContainerRoute` are left out. They are server responses, foreign calls and UI mounting.
- `Route.__init_subclass__`: the branch that keeps a trimmed path starting with '/' cannot run, because the trimmed path never starts with '/'. The model adds the slash unconditionally.
- RouteRegistry.BeforeLoad: a hook result pair whose key is not a string is reported as TypeError. Python would merge it, but the model's dicts have string keys. An object result is treated as not iterable.
- Utils.ObjectHook: which strings `datetime.fromisoformat` and `date.fromisoformat` accept is a parameter, not a grammar.
- Client.Client.DoNavigate: the dict `before_load` builds by `ctx.update` on the context's `nav_context` is not modelled. How `before_load` ends is an input, and no contract says what `context.nav_context` holds after a navigation. The same goes for `Client.Client.Proceed`, `Client.Client.Start` and `Client.Client.OnNavigate`.
- Floats and tuples are not values of the model. A float in `cache_deps` or in search params, which Python serialises, can only be an `Object` here, and the model refuses it with TypeError.
- Time is whole seconds. `timedelta` and `total_seconds()` fractions are not modelled.
- Python's integer-valued `gc_time` and `stale_time` are assumed. Non-numeric values are not modelled.
