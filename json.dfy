/** The canonical serialiser `dumps(obj)` = `json.dumps(obj, sort_keys=True, ...)`:
    JSON text with Python's default separators (", " and ": ") and the members
    of every object written in ascending key order. Python's string order is
    the code-point lexicographic order `StrLt`. */
module Json {
  import opened Wrappers
  import opened Values

  /** Python's `a < b` on strings. */
  predicate StrLt(a: string, b: string) {
    if a == [] then b != []
    else if b == [] then false
    else if a[0] != b[0] then a[0] < b[0]
    else StrLt(a[1..], b[1..])
  }

  lemma {:induction false} StrLtIrreflexive(a: string)
    ensures !StrLt(a, a)
  {
    if a != [] { StrLtIrreflexive(a[1..]); }
  }

  lemma {:induction false} StrLtTotal(a: string, b: string)
    ensures a == b || StrLt(a, b) || StrLt(b, a)
  {
    if a != [] && b != [] && a[0] == b[0] {
      StrLtTotal(a[1..], b[1..]);
      if a[1..] == b[1..] {
        assert a == [a[0]] + a[1..] && b == [b[0]] + b[1..];
      }
    }
  }

  lemma {:induction false} StrLtAsymmetric(a: string, b: string)
    ensures !(StrLt(a, b) && StrLt(b, a))
  {
    if a != [] && b != [] && a[0] == b[0] { StrLtAsymmetric(a[1..], b[1..]); }
  }

  /** Entries in ascending key order (ties kept in place). */
  predicate SortedByKey<T>(s: seq<(string, T)>) {
    forall i, j :: 0 <= i < j < |s| ==> !StrLt(s[j].0, s[i].0)
  }

  /** Inserts `e` after every entry whose key is not greater than `e`'s. */
  function Insert<T>(e: (string, T), s: seq<(string, T)>): (r: seq<(string, T)>)
    ensures |r| == |s| + 1
  {
    if s == [] then [e]
    else if !StrLt(e.0, s[0].0) then [s[0]] + Insert(e, s[1..])
    else [e] + s
  }

  lemma {:induction false} InsertPermutes<T>(e: (string, T), s: seq<(string, T)>)
    ensures multiset(Insert(e, s)) == multiset(s) + multiset{e}
    ensures KeySet(Insert(e, s)) == KeySet(s) + {e.0}
  {
    var r := Insert(e, s);
    if s != [] && !StrLt(e.0, s[0].0) {
      InsertPermutes(e, s[1..]);
      HeadAndTail(s);
      assert r[1..] == Insert(e, s[1..]);
      HeadAndTail(r);
    } else if s != [] {
      assert r[1..] == s;
      HeadAndTail(r);
    }
  }

  lemma {:induction false} InsertSorted<T>(e: (string, T), s: seq<(string, T)>)
    requires SortedByKey(s)
    ensures SortedByKey(Insert(e, s))
  {
    if s == [] {
    } else if !StrLt(e.0, s[0].0) {
      SortedTail(s);
      InsertSorted(e, s[1..]);
      InsertAfterHead(e, s);
    } else {
      InsertBeforeHead(e, s);
    }
  }

  /** Every entry of `Insert(e, s)` is `e` or an entry of `s`. */
  lemma {:induction false} InsertFrom<T>(e: (string, T), s: seq<(string, T)>, j: nat)
    requires j < |Insert(e, s)|
    ensures Insert(e, s)[j] == e || exists m :: 0 <= m < |s| && s[m] == Insert(e, s)[j]
  {
    if s != [] && !StrLt(e.0, s[0].0) && j > 0 {
      InsertFrom(e, s[1..], j - 1);
      if Insert(e, s)[j] != e {
        var m :| 0 <= m < |s[1..]| && s[1..][m] == Insert(e, s[1..])[j - 1];
        assert s[m + 1] == Insert(e, s)[j];
      }
    } else if s != [] && StrLt(e.0, s[0].0) && j > 0 {
      assert Insert(e, s)[j] == s[j - 1];
    }
  }

  /** A head no greater than any entry of a sorted tail gives a sorted sequence. */
  lemma ConsSorted<T>(h: (string, T), rest: seq<(string, T)>)
    requires SortedByKey(rest)
    requires forall j :: 0 <= j < |rest| ==> !StrLt(rest[j].0, h.0)
    ensures SortedByKey([h] + rest)
  {
    forall i, j | 0 <= i < j < |[h] + rest|
      ensures !StrLt(([h] + rest)[j].0, ([h] + rest)[i].0)
    {
      assert ([h] + rest)[j] == rest[j - 1];
      if i > 0 {
        assert ([h] + rest)[i] == rest[i - 1];
      }
    }
  }

  /** Inserting past the head keeps the head first. */
  lemma InsertAfterHead<T>(e: (string, T), s: seq<(string, T)>)
    requires SortedByKey(s) && s != [] && !StrLt(e.0, s[0].0)
    requires SortedByKey(Insert(e, s[1..]))
    ensures SortedByKey(Insert(e, s))
  {
    var rest := Insert(e, s[1..]);
    assert Insert(e, s) == [s[0]] + rest;
    forall j | 0 <= j < |rest| ensures !StrLt(rest[j].0, s[0].0) {
      InsertFrom(e, s[1..], j);
      if rest[j] != e {
        var m :| 0 <= m < |s[1..]| && s[1..][m] == rest[j];
        assert s[m + 1] == rest[j];
      }
    }
    ConsSorted(s[0], rest);
  }

  /** An entry smaller than the head goes first. */
  lemma InsertBeforeHead<T>(e: (string, T), s: seq<(string, T)>)
    requires SortedByKey(s) && s != [] && StrLt(e.0, s[0].0)
    ensures SortedByKey(Insert(e, s))
  {
    assert Insert(e, s) == [e] + s;
    forall j | 0 <= j < |s| ensures !StrLt(s[j].0, e.0) {
      StrLtAsymmetric(e.0, s[0].0);
      StrLtTotal(e.0, s[j].0);
      StrLtTransitive(e.0, s[0].0, s[j].0);
      StrLtAsymmetric(s[j].0, e.0);
      if j > 0 {
        StrLtTotal(s[0].0, s[j].0);
      }
    }
    ConsSorted(e, s);
  }

  lemma {:induction false} StrLtTransitive(a: string, b: string, c: string)
    ensures StrLt(a, b) && StrLt(b, c) ==> StrLt(a, c)
  {
    if a != [] && b != [] && c != [] && a[0] == b[0] && b[0] == c[0] {
      StrLtTransitive(a[1..], b[1..], c[1..]);
    }
  }

  /** `sorted(d.items())` by key: an insertion sort, stable on equal keys. */
  function SortByKey<T>(d: seq<(string, T)>): (r: seq<(string, T)>)
    ensures SortedByKey(r)
    ensures multiset(r) == multiset(d)
    ensures KeySet(r) == KeySet(d)
  {
    if d == [] then []
    else
      var rest := SortByKey(d[1..]);
      InsertSorted(d[0], rest);
      InsertPermutes(d[0], rest);
      HeadAndTail(d);
      Insert(d[0], rest)
  }

  /** A nonempty dict's entries and keys are those of its head and its tail. */
  lemma HeadAndTail<T>(d: seq<(string, T)>)
    requires d != []
    ensures multiset(d) == multiset(d[1..]) + multiset{d[0]}
    ensures KeySet(d) == KeySet(d[1..]) + {d[0].0}
  {
    assert d == [d[0]] + d[1..];
  }

  lemma {:induction false} InKeySet<T>(d: seq<(string, T)>, i: nat)
    requires i < |d|
    ensures d[i].0 in KeySet(d)
  {
    if i > 0 { InKeySet(d[1..], i - 1); }
  }

  /** A dict's entries admit exactly one arrangement in key order: two sorted
      arrangements of the same entries are equal. */
  lemma {:induction false} SortedUnique<T>(s: seq<(string, T)>, t: seq<(string, T)>)
    requires SortedByKey(s) && SortedByKey(t)
    requires multiset(s) == multiset(t)
    requires DistinctKeys(s)
    ensures s == t
  {
    if s == [] {
      assert |multiset(t)| == 0;
    } else {
      SortedTails(s, t);
      SortedUnique(s[1..], t[1..]);
      assert s == [s[0]] + s[1..];
      assert t == [t[0]] + t[1..];
    }
  }

  /** Two nonempty sorted arrangements of the same entries share their head, and their tails are again two such arrangements. */
  lemma SortedTails<T>(s: seq<(string, T)>, t: seq<(string, T)>)
    requires SortedByKey(s) && SortedByKey(t)
    requires multiset(s) == multiset(t)
    requires DistinctKeys(s) && s != []
    ensures t != [] && s[0] == t[0]
    ensures SortedByKey(s[1..]) && SortedByKey(t[1..]) && DistinctKeys(s[1..])
    ensures multiset(s[1..]) == multiset(t[1..])
  {
    assert |t| == |s| by {
      assert |multiset(t)| == |multiset(s)|;
    }
    SortedHeads(s, t);
    TailMultiset(s);
    TailMultiset(t);
    SortedTail(s);
    SortedTail(t);
  }

  lemma SortedTail<T>(s: seq<(string, T)>)
    requires SortedByKey(s) && s != []
    ensures SortedByKey(s[1..])
  {
    forall i, j | 0 <= i < j < |s[1..]|
      ensures !StrLt(s[1..][j].0, s[1..][i].0)
    {
      assert s[1..][j] == s[j + 1] && s[1..][i] == s[i + 1];
    }
  }

  lemma SortedHeads<T>(s: seq<(string, T)>, t: seq<(string, T)>)
    requires SortedByKey(s) && SortedByKey(t)
    requires multiset(s) == multiset(t)
    requires DistinctKeys(s)
    requires s != [] && t != []
    ensures s[0] == t[0]
  {
    assert s[0] in multiset(t);
    var j :| 0 <= j < |t| && t[j] == s[0];
    assert t[0] in multiset(s);
    var i :| 0 <= i < |s| && s[i] == t[0];
    if i != 0 && j != 0 {
      StrLtTotal(s[0].0, t[0].0);
      InKeySet(s[1..], i - 1);
      assert false;
    }
  }

  lemma {:induction false} DistinctKeysCard<T>(d: seq<(string, T)>)
    ensures |KeySet(d)| <= |d|
    ensures DistinctKeys(d) <==> |KeySet(d)| == |d|
  {
    if d != [] {
      DistinctKeysCard(d[1..]);
    }
  }

  lemma TailMultiset<T>(s: seq<(string, T)>)
    requires s != []
    ensures multiset(s[1..]) == multiset(s) - multiset{s[0]}
  {
    assert s == [s[0]] + s[1..];
  }

  function NatToString(n: nat): (r: string)
    ensures r != []
  {
    if n < 10 then ["0123456789"[n]] else NatToString(n / 10) + ["0123456789"[n % 10]]
  }

  function IntToString(i: int): string {
    if i < 0 then "-" + NatToString(-i) else NatToString(i)
  }

  /** Backslash-escapes `"` and `\`. */
  function Escape(s: string): string {
    if s == [] then ""
    else (if s[0] == '"' || s[0] == '\\' then ['\\', s[0]] else [s[0]]) + Escape(s[1..])
  }

  function Quote(s: string): string {
    "\"" + Escape(s) + "\""
  }

  /** `dumps(v)`; `None` when `v` holds something JSON cannot represent (a date,
      a datetime or another object: `default=dumps` recurses on it without end). */
  function Dumps(v: Value): (r: Option<string>)
    decreases v, 1
  {
    match v
    case Null => Some("null")
    case Bool(b) => Some(if b then "true" else "false")
    case Int(i) => Some(IntToString(i))
    case Str(s) => Some(Quote(s))
    case List(items) =>
      var body :- DumpItems(items, v);
      Some("[" + body + "]")
    case Dict(entries) =>
      SortedEntriesFromDict(entries);
      var body :- DumpMembers(SortByKey(entries), v);
      Some("{" + body + "}")
    case _ => None
  }

  lemma SortedEntriesFromDict(entries: seq<(string, Value)>)
    ensures forall x :: x in SortByKey(entries) ==> x in entries
  {
    var sorted := SortByKey(entries);
    forall x | x in sorted ensures x in entries {
      assert x in multiset(sorted);
    }
  }

  /** The items of a list, separated by ", ". */
  function DumpItems(items: seq<Value>, ghost parent: Value): Option<string>
    requires parent.List? && forall x :: x in items ==> x in parent.items
    decreases parent, 0, |items|
  {
    if items == [] then Some("")
    else
      assert items[0] in items;
      assert items[0] in parent.items;
      var first :- Dumps(items[0]);
      var rest :- DumpItems(items[1..], parent);
      Some(first + (if |items| > 1 then ", " else "") + rest)
  }

  /** `"key": value` for each member, in the order given, separated by ", ". */
  function DumpMembers(members: seq<(string, Value)>, ghost parent: Value): Option<string>
    requires parent.Dict? && forall x :: x in members ==> x in parent.entries
    decreases parent, 0, |members|
  {
    if members == [] then Some("")
    else
      assert members[0] in members;
      assert members[0] in parent.entries;
      var first :- Dumps(members[0].1);
      var rest :- DumpMembers(members[1..], parent);
      Some(Quote(members[0].0) + ": " + first + (if |members| > 1 then ", " else "") + rest)
  }

  /** `sort_keys=True`: a dict's text does not depend on its insertion order. */
  lemma {:induction false} DumpsIgnoresInsertionOrder(d1: seq<(string, Value)>, d2: seq<(string, Value)>)
    requires DistinctKeys(d1)
    requires multiset(d1) == multiset(d2)
    ensures Dumps(Dict(d1)) == Dumps(Dict(d2))
  {
    var s1, s2 := SortByKey(d1), SortByKey(d2);
    assert |s1| == |multiset(s1)| == |d1|;
    DistinctKeysCard(d1);
    DistinctKeysCard(s1);
    SortedUnique(s1, s2);
    SortedEntriesFromDict(d1);
    SortedEntriesFromDict(d2);
    DumpMembersIgnoresParent(s1, Dict(d1), Dict(d2));
    assert Dumps(Dict(d1)) == Dumps(Dict(d2));
  }

  lemma {:induction false} DumpMembersIgnoresParent(members: seq<(string, Value)>, p1: Value, p2: Value)
    requires p1.Dict? && forall x :: x in members ==> x in p1.entries
    requires p2.Dict? && forall x :: x in members ==> x in p2.entries
    ensures DumpMembers(members, p1) == DumpMembers(members, p2)
  {
    if members != [] {
      DumpMembersIgnoresParent(members[1..], p1, p2);
    }
  }
}
