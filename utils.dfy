/** The helpers of client_code/router/_utils: path trimming and validation,
    `ensure_dict`, cache keys, the date hooks of the serialiser and the
    `EventEmitter` subscriber table. */
module Utils {
  import opened Wrappers
  import opened Values
  import opened Json

  // ---------------------------------------------------------------- trim_path

  /** Drops every leading '/'. */
  function StripLeading(s: string): string {
    if s != [] && s[0] == '/' then StripLeading(s[1..]) else s
  }

  /** Drops every trailing '/'. */
  function StripTrailing(s: string): string {
    if s != [] && s[|s| - 1] == '/' then StripTrailing(s[..|s| - 1]) else s
  }

  lemma {:induction false} StripLeadingShape(s: string)
    ensures var r := StripLeading(s);
      && |r| <= |s| && r == s[|s| - |r|..]
      && (forall i :: 0 <= i < |s| - |r| ==> s[i] == '/')
      && (r != [] ==> r[0] != '/')
  {
    if s != [] && s[0] == '/' {
      var t := s[1..];
      StripLeadingShape(t);
      var r := StripLeading(t);
      assert StripLeading(s) == r;
      assert t[|t| - |r|..] == s[|s| - |r|..];
      forall i | 0 <= i < |s| - |r| ensures s[i] == '/' {
        if i > 0 { assert s[i] == t[i - 1]; }
      }
    }
  }

  lemma {:induction false} StripTrailingShape(s: string)
    ensures var r := StripTrailing(s);
      && |r| <= |s| && r == s[..|r|]
      && (forall i :: |r| <= i < |s| ==> s[i] == '/')
      && (r != [] ==> r[|r| - 1] != '/')
  {
    if s != [] && s[|s| - 1] == '/' {
      var t := s[..|s| - 1];
      StripTrailingShape(t);
      var r := StripTrailing(t);
      assert StripTrailing(s) == r;
      assert t[..|r|] == s[..|r|];
      forall i | |r| <= i < |s| ensures s[i] == '/' {
        if i < |t| { assert s[i] == t[i]; }
      }
    }
  }

  /** The value of `trim_path(path)`: `path` without its leading and trailing
      slashes (see `TrimShape`). */
  function Trim(path: string): (r: string)
    ensures r != [] ==> r[0] != '/' && r[|r| - 1] != '/'
  {
    StripLeadingShape(path);
    StripTrailingShape(StripLeading(path));
    StripTrailing(StripLeading(path))
  }

  /** `Trim` keeps a contiguous part of `path` and drops only slashes around it. */
  lemma TrimShape(path: string)
    ensures var r, lead := Trim(path), |path| - |StripLeading(path)|;
      && 0 <= lead && lead + |r| <= |path|
      && r == path[lead..lead + |r|]
      && (forall i :: 0 <= i < lead ==> path[i] == '/')
      && (forall i :: lead + |r| <= i < |path| ==> path[i] == '/')
  {
    StripLeadingShape(path);
    StripTrailingShape(StripLeading(path));
  }

  lemma TrimIdempotent(path: string)
    ensures Trim(Trim(path)) == Trim(path)
  {
  }

  lemma StripLeadingStep(path: string, start: nat)
    requires start < |path| && path[start] == '/'
    ensures StripLeading(path[start..]) == StripLeading(path[start + 1..])
  {
    assert path[start..][1..] == path[start + 1..];
  }

  lemma StripTrailingStep(path: string, start: nat, end: nat)
    requires start < end <= |path| && path[end - 1] == '/'
    ensures StripTrailing(path[start..end]) == StripTrailing(path[start..end - 1])
  {
    assert path[start..end][..end - 1 - start] == path[start..end - 1];
  }

  /** `trim_path`, moving `start` forward and `end` backward over slashes. */
  method TrimPath(path: string) returns (r: string)
    ensures r == Trim(path)
  {
    var start, end := 0, |path|;
    while start < end && path[start] == '/'
      invariant 0 <= start <= end == |path|
      invariant StripLeading(path[start..]) == StripLeading(path)
    {
      StripLeadingStep(path, start);
      start := start + 1;
    }
    assert StripLeading(path) == path[start..];
    assert path[start..end] == path[start..];
    while end > start && path[end - 1] == '/'
      invariant start <= end <= |path|
      invariant StripTrailing(path[start..end]) == StripTrailing(path[start..])
    {
      StripTrailingStep(path, start, end);
      end := end - 1;
    }
    r := path[start..end];
  }

  // ------------------------------------------------------- valid_absolute_path

  /** A path that, once trimmed, starts with '.' is relative. */
  predicate IsRelative(trimmed: string) {
    trimmed != [] && trimmed[0] == '.'
  }

  /** `valid_absolute_path(path)`. */
  function ValidAbsolutePath(path: Value): (r: Result<string, Error>)
    ensures !path.Str? ==> r == Err(TypeError)
    ensures path.Str? && IsRelative(Trim(path.s)) ==> r == Err(ValueError)
    ensures r.Ok? <==> path.Str? && !IsRelative(Trim(path.s))
    ensures r.Ok? ==> |r.value| >= 1 && r.value[0] == '/'
    ensures r.Ok? && |r.value| > 1 ==> r.value[1] != '/' && r.value[|r.value| - 1] != '/'
  {
    if !path.Str? then Err(TypeError)
    else
      var trimmed := Trim(path.s);
      if IsRelative(trimmed) then Err(ValueError) else Ok("/" + trimmed)
  }

  /** A path accepted by `valid_absolute_path` is its own normal form. */
  lemma {:induction false} ValidAbsolutePathIdempotent(path: Value)
    requires ValidAbsolutePath(path).Ok?
    ensures ValidAbsolutePath(Str(ValidAbsolutePath(path).value)) == ValidAbsolutePath(path)
  {
    var t := Trim(path.s);
    assert StripLeading("/" + t) == StripLeading(t) by {
      assert ("/" + t)[1..] == t;
    }
  }

  // ---------------------------------------------------------------- ensure_dict

  /** `ensure_dict(value, name)`: the dict's entries, `{}` for None, TypeError otherwise. */
  function EnsureDict(value: Value): (r: Result<seq<(string, Value)>, Error>)
    ensures r.Ok? <==> value.Null? || value.Dict?
    ensures r.Err? ==> r.error == TypeError
    ensures value.Dict? ==> r == Ok(value.entries)
    ensures value.Null? ==> r == Ok([])
  {
    match value
    case Null => Ok([])
    case Dict(entries) => Ok(entries)
    case _ => Err(TypeError)
  }

  // ---------------------------------------------------- make_key / decode_key

  /** `make_key(path, deps)`: `path + ":" + dumps(deps)`. */
  function MakeKey(path: string, deps: Value): (r: Result<string, Error>)
    ensures r.Err? ==> r.error == TypeError
    ensures r.Ok? ==> |r.value| > |path| && r.value[..|path|] == path && r.value[|path|] == ':'
  {
    var d :- EnsureDict(deps);
    match Dumps(Dict(d))
    case None => Err(TypeError)
    case Some(text) => Ok(path + ":" + text)
  }

  lemma MakeKeyOfNone(path: string)
    ensures MakeKey(path, Null) == MakeKey(path, Dict([])) == Ok(path + ":{}")
  {
    var e: seq<(string, Value)> := [];
    assert SortByKey(e) == [];
    assert DumpMembers([], Dict(e)) == Some("");
    assert "{" + "" + "}" == "{}";
    assert Dumps(Dict(e)) == Some("{}");
    assert EnsureDict(Null) == Ok(e);
    assert path + ":" + "{}" == path + ":{}";
  }

  /** Deps that are the same dict built in a different insertion order give the same key. */
  lemma {:induction false} MakeKeyIgnoresInsertionOrder(path: string, d1: seq<(string, Value)>, d2: seq<(string, Value)>)
    requires DistinctKeys(d1)
    requires multiset(d1) == multiset(d2)
    ensures MakeKey(path, Dict(d1)) == MakeKey(path, Dict(d2))
  {
    DumpsIgnoresInsertionOrder(d1, d2);
  }

  /** One member that JSON cannot represent makes the whole dict unserialisable. */
  lemma {:induction false} DumpMembersFails(members: seq<(string, Value)>, parent: Value, i: nat)
    requires parent.Dict? && forall x :: x in members ==> x in parent.entries
    requires i < |members| && members[i] in parent.entries && Dumps(members[i].1).None?
    ensures DumpMembers(members, parent).None?
  {
    assert members[0] in members;
    if i > 0 {
      DumpMembersFails(members[1..], parent, i - 1);
    }
  }

  /** A dict with one member JSON cannot represent cannot be represented either. */
  lemma DictDumpFails(entries: seq<(string, Value)>, x: (string, Value))
    requires x in entries && Dumps(x.1).None?
    ensures Dumps(Dict(entries)).None?
  {
    var sorted := SortByKey(entries);
    SortedEntriesFromDict(entries);
    assert x in multiset(entries);
    assert x in multiset(sorted);
    var i :| 0 <= i < |sorted| && sorted[i] == x;
    DumpMembersFails(sorted, Dict(entries), i);
  }

  /** Deps holding a date (or any non-JSON object) are refused with TypeError. */
  lemma MakeKeyRejectsUnserialisable(path: string, deps: seq<(string, Value)>, k: string)
    requires Get(deps, k).Some? && Dumps(Get(deps, k).value).None?
    ensures MakeKey(path, Dict(deps)) == Err(TypeError)
  {
    DictDumpFails(deps, (k, Get(deps, k).value));
  }

  /** Index of the first occurrence of `c` in `s`. */
  function FirstIndex(s: string, c: char): (r: Option<nat>)
    ensures r.Some? ==> r.value < |s| && s[r.value] == c && c !in s[..r.value]
    ensures r.None? <==> c !in s
  {
    if s == [] then None
    else if s[0] == c then Some(0)
    else
      match FirstIndex(s[1..], c)
      case None => None
      case Some(i) =>
        assert s[..i + 1] == [s[0]] + s[1..][..i];
        Some(i + 1)
  }

  /** `decode_key(key)`: splits at the first ':' (`key.split(":", 1)`); a key with
      no ':' cannot be unpacked into two parts. The deps part is returned as text. */
  function DecodeKey(key: string): (r: Result<(string, string), Error>)
    ensures r.Err? <==> ':' !in key
    ensures r.Err? ==> r.error == ValueError
    ensures r.Ok? ==> key == r.value.0 + ":" + r.value.1 && ':' !in r.value.0
  {
    match FirstIndex(key, ':')
    case None => Err(ValueError)
    case Some(i) =>
      assert key == key[..i] + ":" + key[i + 1..];
      Ok((key[..i], key[i + 1..]))
  }

  /** The first ':' of `a + ":" + b` is the one after `a` when `a` has none. */
  lemma {:induction false} FirstIndexAfter(a: string, b: string, c: char)
    requires c !in a
    ensures FirstIndex(a + [c] + b, c) == Some(|a|)
  {
    if a != [] {
      assert (a + [c] + b)[1..] == a[1..] + [c] + b;
      FirstIndexAfter(a[1..], b, c);
    }
  }

  /** Decoding a key gives back its path exactly when the path has no ':'. */
  lemma {:induction false} DecodeMakeKey(path: string, deps: Value)
    requires MakeKey(path, deps).Ok?
    ensures var text := Dumps(Dict(EnsureDict(deps).value)).value;
      DecodeKey(MakeKey(path, deps).value) == Ok((path, text)) <==> ':' !in path
  {
    var text := Dumps(Dict(EnsureDict(deps).value)).value;
    var key := MakeKey(path, deps).value;
    assert key == path + [':'] + text;
    if ':' !in path {
      FirstIndexAfter(path, text, ':');
      assert key[..|path|] == path && key[|path| + 1..] == text;
    } else {
      assert DecodeKey(key).Ok?;
    }
  }

  // ------------------------------------------------- default_hook / object_hook

  const DATETIME_KEY := "$$_datetime"
  const DATE_KEY := "$$_date"

  /** `default_hook(obj)`: a datetime or date becomes a one-key tagged dict. */
  function DefaultHook(obj: Value): (r: Result<Value, Error>)
    ensures r.Ok? <==> obj.DateTime? || obj.Date?
    ensures r.Err? ==> r.error == TypeError
  {
    match obj
    case DateTime(iso) => Ok(Dict([(DATETIME_KEY, Str(iso))]))
    case Date(iso) => Ok(Dict([(DATE_KEY, Str(iso))]))
    case _ => Err(TypeError)
  }

  /** `object_hook(obj)`: a one-key dict tagged `$$_datetime` or `$$_date` is
      turned back into that value by `fromisoformat`, which refuses a non-string
      with TypeError and a string that is not in ISO format with ValueError
      (`isoDateTime` and `isoDate` say which strings each parser accepts); every
      other dict comes back unchanged. */
  function ObjectHook(obj: seq<(string, Value)>, isoDateTime: string -> bool, isoDate: string -> bool): (r: Result<Value, Error>)
    ensures !(|obj| == 1 && obj[0].0 in {DATETIME_KEY, DATE_KEY}) ==> r == Ok(Dict(obj))
    ensures |obj| == 1 && obj[0].0 == DATETIME_KEY ==>
      r == (if !obj[0].1.Str? then Err(TypeError)
            else if isoDateTime(obj[0].1.s) then Ok(DateTime(obj[0].1.s))
            else Err(ValueError))
    ensures |obj| == 1 && obj[0].0 == DATE_KEY ==>
      r == (if !obj[0].1.Str? then Err(TypeError)
            else if isoDate(obj[0].1.s) then Ok(Date(obj[0].1.s))
            else Err(ValueError))
  {
    if |obj| != 1 then Ok(Dict(obj))
    else
      var (key, value) := obj[0];
      if key == DATETIME_KEY then
        if !value.Str? then Err(TypeError)
        else if isoDateTime(value.s) then Ok(DateTime(value.s)) else Err(ValueError)
      else if key == DATE_KEY then
        if !value.Str? then Err(TypeError)
        else if isoDate(value.s) then Ok(Date(value.s)) else Err(ValueError)
      else Ok(Dict(obj))
  }

  /** The two hooks are inverse on the values `default_hook` accepts, given that
      `fromisoformat` accepts what `isoformat` writes. */
  lemma ObjectHookInvertsDefaultHook(obj: Value, isoDateTime: string -> bool, isoDate: string -> bool)
    requires DefaultHook(obj).Ok?
    requires obj.DateTime? ==> isoDateTime(obj.iso)
    requires obj.Date? ==> isoDate(obj.iso)
    ensures ObjectHook(DefaultHook(obj).value.entries, isoDateTime, isoDate) == Ok(obj)
  {
  }

  // -------------------------------------------------------------- EventEmitter

  type Handler = nat

  /** An event emitter: the valid event names are fixed per emitter, and each
      name maps to the set of its subscribed handlers. */
  class EventEmitter {
    const events: seq<string>
    const id: nat   // the emitter's identity, passed to handlers as `sender`
    var subscribers: map<string, set<Handler>>

    constructor (events: seq<string>, id: nat)
      ensures this.events == events && this.id == id && subscribers == map[]
    {
      this.events := events;
      this.id := id;
      subscribers := map[];
    }

    /** `_validate_event(event_name)`. */
    function Validate(eventName: Value): (r: Result<string, Error>)
      ensures !eventName.Str? ==> r == Err(TypeError)
      ensures eventName.Str? && eventName.s !in events ==> r == Err(ValueError)
      ensures r.Ok? <==> eventName.Str? && eventName.s in events
      ensures r.Ok? ==> r.value == eventName.s
    {
      if !eventName.Str? then Err(TypeError)
      else if eventName.s !in events then Err(ValueError)
      else Ok(eventName.s)
    }

    function SubscribersOf(name: string): set<Handler>
      reads this
    {
      if name in subscribers then subscribers[name] else {}
    }

    /** `add_event_handler`: set-like, so adding a handler twice subscribes it once. */
    method AddEventHandler(eventName: Value, handler: Handler) returns (r: Result<(), Error>)
      modifies this
      ensures r.Err? <==> Validate(eventName).Err?
      ensures r.Err? ==> r.error == Validate(eventName).error && subscribers == old(subscribers)
      ensures r.Ok? ==>
        subscribers == old(subscribers)[eventName.s := old(SubscribersOf(eventName.s)) + {handler}]
    {
      var name :- Validate(eventName);
      subscribers := subscribers[name := SubscribersOf(name) + {handler}];
      r := Ok(());
    }

    /** `remove_event_handler`: removing a handler that is not subscribed changes nothing. */
    method RemoveEventHandler(eventName: Value, handler: Handler) returns (r: Result<(), Error>)
      modifies this
      ensures r.Err? <==> Validate(eventName).Err?
      ensures r.Err? ==> r.error == Validate(eventName).error && subscribers == old(subscribers)
      ensures r.Ok? && eventName.s in old(subscribers) ==>
        subscribers == old(subscribers)[eventName.s := old(subscribers)[eventName.s] - {handler}]
      ensures r.Ok? && eventName.s !in old(subscribers) ==> subscribers == old(subscribers)
    {
      var name :- Validate(eventName);
      if name in subscribers {
        subscribers := subscribers[name := subscribers[name] - {handler}];
      }
      r := Ok(());
    }

    /** `raise_event(event_name, **kwargs)`: the handlers called, and the keyword
        arguments each receives (the caller's plus `event_name` and `sender`). */
    method RaiseEvent(eventName: Value, kwargs: seq<(string, Value)>)
      returns (r: Result<(set<Handler>, seq<(string, Value)>), Error>)
      ensures r.Err? <==> Validate(eventName).Err?
      ensures r.Err? ==> r.error == Validate(eventName).error
      ensures r.Ok? ==> r.value.0 == SubscribersOf(eventName.s)
      ensures r.Ok? ==> Get(r.value.1, "event_name") == Some(eventName)
      ensures r.Ok? ==> Get(r.value.1, "sender") == Some(Object(id))
      ensures r.Ok? ==> forall k :: k != "event_name" && k != "sender" ==> Get(r.value.1, k) == Get(kwargs, k)
    {
      var name :- Validate(eventName);
      var args := Set(Set(kwargs, "event_name", Str(name)), "sender", Object(id));
      r := Ok((SubscribersOf(name), args));
    }
  }
}
