/** Python values as the router sees them: `None`, booleans, integers, strings,
    lists, dicts (insertion-ordered, one entry per key), dates and opaque objects,
    together with the dict operations the router uses (`get`, item assignment,
    `update`) and Python truthiness. */
module Values {
  import opened Wrappers

  /** The exception classes the core raises, catches or routes. */
  datatype Error =
    | TypeError
    | ValueError
    | KeyError
    | AttributeError
    | AssertionError
    | NotFound               // the router's NotFound signal
    | InvalidPathParams      // the router's InvalidPathParams error
    | AppOffline             // anvil.server.AppOfflineError
    | UnknownCacheMode       // Exception("Unknown cache mode")
    | NoPathParam(name: string) // Exception("No path param for ...")
    | UserError(code: nat)   // any other exception raised by application code

  /** A Python value. `Object` stands for any other object (a form, a function, ...). */
  datatype Value =
    | Null                   // Python None
    | Bool(b: bool)
    | Int(i: int)
    | Str(s: string)
    | List(items: seq<Value>)
    | Dict(entries: seq<(string, Value)>)
    | Date(iso: string)
    | DateTime(iso: string)
    | Object(id: nat)

  /** Python truthiness (`if value:`). */
  predicate Truthy(v: Value) {
    match v
    case Null => false
    case Bool(b) => b
    case Int(i) => i != 0
    case Str(s) => s != ""
    case List(items) => items != []
    case Dict(entries) => entries != []
    case _ => true
  }

  /** The keys of a dict. */
  function KeySet<T>(d: seq<(string, T)>): set<string> {
    if d == [] then {} else {d[0].0} + KeySet(d[1..])
  }

  /** A Python dict never holds two entries with the same key. */
  predicate DistinctKeys<T>(d: seq<(string, T)>) {
    d == [] || (d[0].0 !in KeySet(d[1..]) && DistinctKeys(d[1..]))
  }

  /** `d.get(k)`: the value stored under `k`, if any. */
  function Get(d: seq<(string, Value)>, k: string): (r: Option<Value>)
    ensures r.Some? <==> k in KeySet(d)
    ensures r.Some? ==> (k, r.value) in d
  {
    if d == [] then None
    else if d[0].0 == k then Some(d[0].1)
    else Get(d[1..], k)
  }

  /** `d[k] = v`: replaces the value of an existing key where it stands, or appends a new entry. */
  function Set(d: seq<(string, Value)>, k: string, v: Value): (r: seq<(string, Value)>)
    ensures Get(r, k) == Some(v)
    ensures forall k' :: k' != k ==> Get(r, k') == Get(d, k')
    ensures KeySet(r) == KeySet(d) + {k}
    ensures DistinctKeys(d) ==> DistinctKeys(r)
  {
    if d == [] then [(k, v)]
    else if d[0].0 == k then [(k, v)] + d[1..]
    else [d[0]] + Set(d[1..], k, v)
  }

  /** `d.update(other)`: assigns every entry of `other` into `d`, in `other`'s order. */
  function Update(d: seq<(string, Value)>, other: seq<(string, Value)>): (r: seq<(string, Value)>)
    ensures KeySet(r) == KeySet(d) + KeySet(other)
    ensures DistinctKeys(d) ==> DistinctKeys(r)
    decreases |other|
  {
    if other == [] then d else Update(Set(d, other[0].0, other[0].1), other[1..])
  }

  /** After `d.update(other)` a key of `other` holds `other`'s value and every other key keeps `d`'s. */
  lemma {:induction false} UpdateGet(d: seq<(string, Value)>, other: seq<(string, Value)>, k: string)
    requires DistinctKeys(other)
    ensures Get(Update(d, other), k) == if k in KeySet(other) then Get(other, k) else Get(d, k)
    decreases |other|
  {
    if other != [] {
      var d' := Set(d, other[0].0, other[0].1);
      var rest := other[1..];
      assert DistinctKeys(rest);
      UpdateGet(d', rest, k);
    }
  }
}
