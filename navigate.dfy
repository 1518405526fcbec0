/** The legacy URL builder `navigate(path, search_params, path_params, hash,
    replace)`: the path is rebuilt from its segments and the path params, the
    search params are JSON-encoded in sorted key order, and history is pushed
    or replaced unless nothing changed. The segment parser, `url_encode`,
    `str` and `encode_search_params` are parameters. */
module LegacyNavigate {
  import opened Wrappers
  import opened Values
  import opened Json
  import opened Utils
  import opened Routing

  // ------------------------------------------------------------------- path

  /** What one segment adds to the path: `"/" + url_encode(...)` for a static
      segment or a supplied param, nothing for another kind of segment. */
  function Piece(segment: Segment, pathParams: seq<(string, Value)>,
                 urlEncode: string -> string, str: Value -> string): (r: Result<string, Error>)
    ensures r.Err? <==> segment.Param? && segment.value !in KeySet(pathParams)
    ensures r.Err? ==> r.error == NoPathParam(segment.value)
  {
    match segment
    case Static(value) => Ok("/" + urlEncode(value))
    case Param(name) =>
      (match Get(pathParams, name)
       case None => Err(NoPathParam(name))
       case Some(v) => Ok("/" + urlEncode(str(v))))
    case Other(_) => Ok("")
  }

  /** The path built from `segments`, one piece after another. */
  function BuildPath(segments: seq<Segment>, pathParams: seq<(string, Value)>,
                     urlEncode: string -> string, str: Value -> string): Result<string, Error>
    decreases |segments|
  {
    if segments == [] then Ok("")
    else
      var prefix :- BuildPath(segments[..|segments| - 1], pathParams, urlEncode, str);
      var piece :- Piece(segments[|segments| - 1], pathParams, urlEncode, str);
      Ok(prefix + piece)
  }

  /** `r` followed by `s`: the first failure, or both strings joined. */
  function Then(r: Result<string, Error>, s: Result<string, Error>): Result<string, Error> {
    match r
    case Err(e) => Err(e)
    case Ok(p) =>
      match s
      case Err(e) => Err(e)
      case Ok(q) => Ok(p + q)
  }

  lemma ThenAssociative(r: Result<string, Error>, s: Result<string, Error>, t: Result<string, Error>)
    ensures Then(Then(r, s), t) == Then(r, Then(s, t))
  {
    if r.Ok? && s.Ok? && t.Ok? {
      assert r.value + s.value + t.value == r.value + (s.value + t.value);
    }
  }

  /** Building `a + b` is building `a` then `b`; the first failure is the one reported. */
  lemma {:induction false} BuildPathAppend(a: seq<Segment>, b: seq<Segment>, pathParams: seq<(string, Value)>,
                                           urlEncode: string -> string, str: Value -> string)
    ensures BuildPath(a + b, pathParams, urlEncode, str) ==
      Then(BuildPath(a, pathParams, urlEncode, str), BuildPath(b, pathParams, urlEncode, str))
    decreases |b|
  {
    var pa := BuildPath(a, pathParams, urlEncode, str);
    if b == [] {
      assert a + b == a;
      if pa.Ok? {
        assert pa.value + "" == pa.value;
      }
    } else {
      var b' := b[..|b| - 1];
      var piece := Piece(b[|b| - 1], pathParams, urlEncode, str);
      assert (a + b)[..|a + b| - 1] == a + b';
      assert (a + b)[|a + b| - 1] == b[|b| - 1];
      assert BuildPath(a + b, pathParams, urlEncode, str) == Then(BuildPath(a + b', pathParams, urlEncode, str), piece);
      assert BuildPath(b, pathParams, urlEncode, str) == Then(BuildPath(b', pathParams, urlEncode, str), piece);
      BuildPathAppend(a, b', pathParams, urlEncode, str);
      ThenAssociative(pa, BuildPath(b', pathParams, urlEncode, str), piece);
    }
  }

  /** Building the path fails exactly when some param segment has no value, and
      then the error names the first such param. */
  lemma {:induction false} BuildPathFails(segments: seq<Segment>, pathParams: seq<(string, Value)>,
                                          urlEncode: string -> string, str: Value -> string)
    ensures var r := BuildPath(segments, pathParams, urlEncode, str);
      r.Err? <==> exists i :: 0 <= i < |segments| && segments[i].Param? && segments[i].value !in KeySet(pathParams)
    ensures var r := BuildPath(segments, pathParams, urlEncode, str);
      r.Err? ==> exists i :: (0 <= i < |segments| && r.error == NoPathParam(segments[i].value)
        && segments[i].Param? && segments[i].value !in KeySet(pathParams)
        && forall j :: 0 <= j < i ==> !(segments[j].Param? && segments[j].value !in KeySet(pathParams)))
    decreases |segments|
  {
    if segments != [] {
      var n := |segments| - 1;
      BuildPathFails(segments[..n], pathParams, urlEncode, str);
      if BuildPath(segments[..n], pathParams, urlEncode, str).Err? {
        var i :| 0 <= i < n && segments[..n][i].Param? && segments[..n][i].value !in KeySet(pathParams);
        assert segments[i] == segments[..n][i];
      } else {
        forall i | 0 <= i < n
          ensures !(segments[i].Param? && segments[i].value !in KeySet(pathParams))
        {
          assert segments[i] == segments[..n][i];
        }
      }
    }
  }

  // ----------------------------------------------------------------- search

  /** Each value JSON-encoded (`json.dumps(value, sort_keys=True)`), keys kept in order. */
  function DumpValues(entries: seq<(string, Value)>, dump: Value -> Option<string>): (r: Result<seq<(string, string)>, Error>)
    ensures r.Err? ==> r.error == TypeError
  {
    if entries == [] then Ok([])
    else
      match dump(entries[0].1)
      case None => Err(TypeError)
      case Some(text) =>
        var rest :- DumpValues(entries[1..], dump);
        Ok([(entries[0].0, text)] + rest)
  }

  /** The `search` string: empty for no params, else `encode_search_params` of the
      params in sorted key order with JSON-encoded values. */
  function BuildSearch(searchParams: seq<(string, Value)>,
                       encode: seq<(string, string)> -> string): (r: Result<string, Error>)
    ensures searchParams == [] ==> r == Ok("")
  {
    if searchParams == [] then Ok("")
    else
      var encoded :- DumpValues(SortByKey(searchParams), Dumps);
      Ok(encode(encoded))
  }

  /** Encoding keeps the keys, in their order, and fails on the first value JSON cannot represent. */
  lemma {:induction false} DumpValuesKeys(entries: seq<(string, Value)>, dump: Value -> Option<string>)
    ensures var r := DumpValues(entries, dump);
      r.Ok? <==> forall i :: 0 <= i < |entries| ==> dump(entries[i].1).Some?
    ensures var r := DumpValues(entries, dump);
      r.Ok? ==> (|r.value| == |entries| &&
        forall i :: 0 <= i < |entries| ==> r.value[i] == (entries[i].0, dump(entries[i].1).value))
  {
    if entries != [] {
      DumpValuesKeys(entries[1..], dump);
      if !dump(entries[0].1).Some? {
      } else if DumpValues(entries, dump).Ok? {
        var r := DumpValues(entries, dump).value;
        var rest := DumpValues(entries[1..], dump).value;
        assert r == [(entries[0].0, dump(entries[0].1).value)] + rest;
        forall i | 0 <= i < |entries|
          ensures r[i] == (entries[i].0, dump(entries[i].1).value)
        {
          if i > 0 { assert r[i] == rest[i - 1] && entries[i] == entries[1..][i - 1]; }
        }
      } else {
        var i :| 0 <= i < |entries[1..]| && !dump(entries[1..][i].1).Some?;
        assert entries[i + 1] == entries[1..][i];
      }
    }
  }

  /** The pairs handed to `encode_search_params` are in ascending key order. */
  lemma SearchKeysSorted(searchParams: seq<(string, Value)>)
    requires DumpValues(SortByKey(searchParams), Dumps).Ok?
    ensures SortedByKey(DumpValues(SortByKey(searchParams), Dumps).value)
  {
    DumpValuesKeys(SortByKey(searchParams), Dumps);
  }

  /** The same search params built in a different insertion order give the same search string. */
  lemma {:induction false} BuildSearchIgnoresInsertionOrder(d1: seq<(string, Value)>, d2: seq<(string, Value)>,
                                                            encode: seq<(string, string)> -> string)
    requires DistinctKeys(d1)
    requires multiset(d1) == multiset(d2)
    ensures BuildSearch(d1, encode) == BuildSearch(d2, encode)
  {
    assert |d1| == |multiset(d1)| == |multiset(d2)| == |d2|;
    var s1, s2 := SortByKey(d1), SortByKey(d2);
    DistinctKeysCard(d1);
    DistinctKeysCard(s1);
    assert |s1| == |multiset(s1)| == |d1|;
    SortedUnique(s1, s2);
  }

  // ------------------------------------------------------------------ target

  /** The location `navigate` aims for; its key is left to the history. */
  function Target(path: Option<string>, searchParams: seq<(string, Value)>, pathParams: seq<(string, Value)>,
                  hash: string, parse: string -> seq<Segment>, urlEncode: string -> string,
                  str: Value -> string, encode: seq<(string, string)> -> string): (r: Result<Location, Error>)
    ensures path.None? ==> (r.Ok? <==> BuildSearch(searchParams, encode).Ok?)
    ensures path.None? && r.Ok? ==> r.value.path == None
    ensures r.Ok? ==> r.value.hash == hash && BuildSearch(searchParams, encode).Ok?
    ensures r.Ok? ==> r.value.search == BuildSearch(searchParams, encode).value
    ensures path.Some? ==> (r.Ok? <==> BuildPath(parse(Trim(path.value)), pathParams, urlEncode, str).Ok?
                                       && BuildSearch(searchParams, encode).Ok?)
    ensures path.Some? && BuildPath(parse(Trim(path.value)), pathParams, urlEncode, str).Err? ==>
      r == Err(BuildPath(parse(Trim(path.value)), pathParams, urlEncode, str).error)
    ensures r.Err? && !(path.Some? && BuildPath(parse(Trim(path.value)), pathParams, urlEncode, str).Err?) ==>
      r == Err(BuildSearch(searchParams, encode).error)
    ensures path.Some? && r.Ok? ==> r.value.path == Some(BuildPath(parse(Trim(path.value)), pathParams, urlEncode, str).value)
  {
    var realPath :- if path.None? then Ok(None)
                    else match BuildPath(parse(Trim(path.value)), pathParams, urlEncode, str)
                         case Err(e) => Err(e)
                         case Ok(p) => Ok(Some(p));
    var search :- BuildSearch(searchParams, encode);
    Ok(Location(realPath, search, hash, ""))
  }

  /** The early-exit test: same path, search and hash as the current location. */
  predicate SameUrl(a: Location, b: Location) {
    a.path == b.path && a.search == b.search && a.hash == b.hash
  }

  lemma BuildPathSnoc(segments: seq<Segment>, i: nat, pathParams: seq<(string, Value)>,
                      urlEncode: string -> string, str: Value -> string)
    requires i < |segments|
    ensures BuildPath(segments[..i + 1], pathParams, urlEncode, str) ==
      match BuildPath(segments[..i], pathParams, urlEncode, str)
      case Err(e) => Err(e)
      case Ok(p) =>
        match Piece(segments[i], pathParams, urlEncode, str)
        case Err(e) => Err(e)
        case Ok(q) => Ok(p + q)
  {
    assert segments[..i + 1][..i] == segments[..i];
  }

  /** A failure on a prefix is the failure of the whole path. */
  lemma BuildPathErrPrefix(segments: seq<Segment>, i: nat, pathParams: seq<(string, Value)>,
                           urlEncode: string -> string, str: Value -> string)
    requires i <= |segments| && BuildPath(segments[..i], pathParams, urlEncode, str).Err?
    ensures BuildPath(segments, pathParams, urlEncode, str) == BuildPath(segments[..i], pathParams, urlEncode, str)
  {
    BuildPathAppend(segments[..i], segments[i..], pathParams, urlEncode, str);
    assert segments[..i] + segments[i..] == segments;
  }

  /** The loop that builds `real_path` from the segments. */
  method RealPath(segments: seq<Segment>, pathParams: seq<(string, Value)>,
                  urlEncode: string -> string, str: Value -> string) returns (r: Result<string, Error>)
    ensures r == BuildPath(segments, pathParams, urlEncode, str)
  {
    var acc := "";
    var i := 0;
    while i < |segments|
      invariant 0 <= i <= |segments|
      invariant BuildPath(segments[..i], pathParams, urlEncode, str) == Ok(acc)
    {
      BuildPathSnoc(segments, i, pathParams, urlEncode, str);
      var segment := segments[i];
      if segment.Static? {
        assert Piece(segment, pathParams, urlEncode, str) == Ok("/" + urlEncode(segment.value));
        acc := acc + ("/" + urlEncode(segment.value));
      } else if segment.Param? {
        var value := Get(pathParams, segment.value);
        if value.None? {
          assert Piece(segment, pathParams, urlEncode, str) == Err(NoPathParam(segment.value));
          BuildPathErrPrefix(segments, i + 1, pathParams, urlEncode, str);
          return Err(NoPathParam(segment.value));
        }
        assert Piece(segment, pathParams, urlEncode, str) == Ok("/" + urlEncode(str(value.value)));
        acc := acc + ("/" + urlEncode(str(value.value)));
      } else {
        assert Piece(segment, pathParams, urlEncode, str) == Ok("");
        assert acc + "" == acc;
      }
      i := i + 1;
    }
    assert segments[..i] == segments;
    r := Ok(acc);
  }

  /** The loop that builds `real_search_params` in sorted key order, then `search`. */
  method RealSearch(searchParams: seq<(string, Value)>, encode: seq<(string, string)> -> string)
    returns (r: Result<string, Error>)
    ensures r == BuildSearch(searchParams, encode)
  {
    if searchParams == [] {
      return Ok("");
    }
    var keys := SortByKey(searchParams);
    var encoded: seq<(string, string)> := [];
    var j := 0;
    while j < |keys|
      invariant 0 <= j <= |keys|
      invariant DumpValues(keys[..j], Dumps) == Ok(encoded)
    {
      var text := Dumps(keys[j].1);
      DumpValuesSnoc(keys, j, Dumps);
      if text.None? {
        DumpValuesKeys(keys, Dumps);
        return Err(TypeError);
      }
      encoded := encoded + [(keys[j].0, text.value)];
      j := j + 1;
    }
    assert keys[..j] == keys;
    r := Ok(encode(encoded));
  }

  /** `navigate(path, search_params, path_params, hash, replace)`; None params are
      passed as empty dicts. */
  method Navigate(history: History, path: Option<string>, searchParams: seq<(string, Value)>,
                  pathParams: seq<(string, Value)>, hash: string, replace: bool,
                  parse: string -> seq<Segment>, urlEncode: string -> string,
                  str: Value -> string, encode: seq<(string, string)> -> string)
    returns (r: Result<(), Error>)
    modifies history
    ensures var target := Target(path, searchParams, pathParams, hash, parse, urlEncode, str, encode);
      && (r.Err? <==> target.Err?)
      && (r.Err? ==> r.error == target.error)
      && (target.Err? || SameUrl(old(history.location), target.value) ==>
            history.ops == old(history.ops) && history.location == old(history.location))
      && (target.Ok? && !SameUrl(old(history.location), target.value) ==>
            && history.ops == old(history.ops) + [if replace then Replaced(target.value) else Pushed(target.value)]
            && history.location == target.value)
  {
    var realPath: Option<string> := None;
    if path.Some? {
      var trimmed := TrimPath(path.value);
      var built := RealPath(parse(trimmed), pathParams, urlEncode, str);
      if built.Err? {
        return Err(built.error);
      }
      realPath := Some(built.value);
    }
    var search := RealSearch(searchParams, encode);
    if search.Err? {
      return Err(search.error);
    }
    var location := Location(realPath, search.value, hash, "");
    if SameUrl(history.location, location) {
      return Ok(());
    }
    if replace {
      history.Replace(location);
    } else {
      history.Push(location);
    }
    r := Ok(());
  }

  lemma DumpValuesSingle(entry: (string, Value), dump: Value -> Option<string>)
    ensures DumpValues([entry], dump) ==
      if dump(entry.1).Some? then Ok([(entry.0, dump(entry.1).value)]) else Err(TypeError)
  {
    assert [entry][1..] == [];
    if dump(entry.1).Some? {
      var pair := (entry.0, dump(entry.1).value);
      assert [pair] + [] == [pair];
    }
  }

  lemma DumpValuesSnoc(entries: seq<(string, Value)>, j: nat, dump: Value -> Option<string>)
    requires j < |entries|
    ensures DumpValues(entries[..j + 1], dump) ==
      match DumpValues(entries[..j], dump)
      case Err(e) => Err(e)
      case Ok(p) => if dump(entries[j].1).Some? then Ok(p + [(entries[j].0, dump(entries[j].1).value)]) else Err(TypeError)
  {
    DumpValuesAppend(entries[..j], [entries[j]], dump);
    DumpValuesSingle(entries[j], dump);
    assert entries[..j + 1] == entries[..j] + [entries[j]];
  }

  /** Encoding `a + b` is encoding `a` then `b`. */
  lemma {:induction false} DumpValuesAppend(a: seq<(string, Value)>, b: seq<(string, Value)>,
                                            dump: Value -> Option<string>)
    ensures DumpValues(a + b, dump) ==
      match DumpValues(a, dump)
      case Err(e) => Err(e)
      case Ok(ra) =>
        match DumpValues(b, dump)
        case Err(e) => Err(e)
        case Ok(rb) => Ok(ra + rb)
  {
    if a != [] {
      assert (a + b)[0] == a[0] && (a + b)[1..] == a[1..] + b;
      DumpValuesAppend(a[1..], b, dump);
      if DumpValues(a, dump).Ok? && DumpValues(b, dump).Ok? {
        var ra, rb, ra' := DumpValues(a, dump).value, DumpValues(b, dump).value, DumpValues(a[1..], dump).value;
        assert ra == [(a[0].0, dump(a[0].1).value)] + ra';
        assert ra + rb == [(a[0].0, dump(a[0].1).value)] + (ra' + rb);
      }
    } else {
      assert a + b == b;
      if DumpValues(b, dump).Ok? {
        assert [] + DumpValues(b, dump).value == DumpValues(b, dump).value;
      }
    }
  }
}
