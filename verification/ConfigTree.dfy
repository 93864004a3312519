/** Trees: when flattening loses nothing, and what deep merge does to flat maps. */
module ConfigTree {
  import opened Values
  import PyText
  import opened ConfigDiff

  /* ---- deep merge ---- */

  function MergeValue(current: Option<Value>, v: Value): Value
    decreases v, 0
  {
    if current.Some? && current.value.Map? && v.Map? then Map(MergeSpec(current.value.entries, v.entries)) else v
  }

  function MergeEntry(merged: seq<Entry>, e: Entry): seq<Entry>
    decreases e, 0
  {
    Put(merged, e.key, MergeValue(Get(merged, e.key), e.value))
  }

  function MergeSpec(merged: seq<Entry>, override: seq<Entry>): seq<Entry>
    decreases override, 0
  {
    if override == [] then merged else MergeSpec(MergeEntry(merged, override[0]), override[1..])
  }

  method DeepMerge(base: seq<Entry>, override: seq<Entry>) returns (merged: seq<Entry>)
    ensures merged == MergeSpec(base, override)
    decreases override, 0
  {
    merged := base;
    for i := 0 to |override|
      invariant MergeSpec(merged, override[i..]) == MergeSpec(base, override)
    {
      var e := override[i];
      ghost var next := MergeEntry(merged, e);
      assert override[i..][1..] == override[i + 1..];
      assert MergeSpec(merged, override[i..]) == MergeSpec(next, override[i + 1..]);
      var current := Get(merged, e.key);
      if current.Some? && current.value.Map? && e.value.Map? {
        var sub := DeepMerge(current.value.entries, e.value.entries);
        assert MergeValue(current, e.value) == Map(sub);
        merged := Put(merged, e.key, Map(sub));
      } else {
        assert MergeValue(current, e.value) == e.value;
        merged := Put(merged, e.key, e.value);
      }
      assert merged == next;
    }
  }

  /* ---- lookup ---- */

  lemma GetPut(entries: seq<Entry>, key: string, v: Value, k: string)
    ensures Get(Put(entries, key, v), k) == if k == key then Some(v) else Get(entries, k)
  {
    var i := IndexOf(entries, key);
    var r := Put(entries, key, v);
    var j, j' := IndexOf(entries, k), IndexOf(r, k);
    if i < |entries| {
      assert forall n :: 0 <= n < |entries| ==> r[n].key == entries[n].key;
    } else {
      assert forall n :: 0 <= n < |entries| ==> r[n] == entries[n];
    }
    if j < j' { assert r[j].key != k; }
  }

  lemma PutSame(entries: seq<Entry>, key: string, v: Value)
    requires Get(entries, key) == Some(v)
    ensures Put(entries, key, v) == entries
  {}

  lemma PutDistinct(entries: seq<Entry>, key: string, v: Value)
    requires DistinctKeys(entries)
    ensures DistinctKeys(Put(entries, key, v))
  {}

  /** What a key holds after a merge. */
  lemma {:induction false} GetMerge(merged: seq<Entry>, override: seq<Entry>, k: string)
    requires DistinctKeys(override)
    ensures Get(MergeSpec(merged, override), k) ==
            if Get(override, k).Some? then Some(MergeValue(Get(merged, k), Get(override, k).value)) else Get(merged, k)
    decreases |override|
  {
    hide MergeValue;
    if override == [] {
    } else {
      var e, rest := override[0], override[1..];
      GetPut(merged, e.key, MergeValue(Get(merged, e.key), e.value), k);
      GetMerge(MergeEntry(merged, e), rest, k);
      GetCons(override, k);
      if e.key == k {
        assert forall n :: 0 <= n < |rest| ==> rest[n] == override[n + 1] && rest[n].key != k;
      }
    }
  }

  lemma GetCons(entries: seq<Entry>, k: string)
    requires entries != []
    ensures Get(entries, k) == if entries[0].key == k then Some(entries[0].value) else Get(entries[1..], k)
  {}

  /* ---- idempotence ---- */

  lemma {:induction false} MergeSelfValue(v: Value)
    requires IsValue(v)
    ensures MergeValue(Some(v), v) == v
    decreases v, 1
  {
    if v.Map? {
      forall e | e in v.entries ensures MergeValue(Get(v.entries, e.key), e.value) == e.value
        && Get(v.entries, e.key) == Some(e.value) {
        GetMember(v.entries, e);
        MergeSelfValue(e.value);
      }
      MergeFixed(v.entries, v.entries);
    }
  }

  /** Merging entries that are already there changes nothing, not even the order. */
  lemma {:induction false} MergeFixed(merged: seq<Entry>, override: seq<Entry>)
    requires forall e | e in override ::
               var current := Get(merged, e.key); current.Some? && MergeValue(current, e.value) == current.value
    ensures MergeSpec(merged, override) == merged
    decreases |override|
  {
    hide MergeValue, Get;
    if override == [] {
    } else {
      var e := override[0];
      assert e in override;
      PutSame(merged, e.key, Get(merged, e.key).value);
      MergeFixed(merged, override[1..]);
    }
  }

  lemma {:induction false} MergeValueTwice(current: Option<Value>, v: Value)
    requires IsValue(v)
    ensures MergeValue(Some(MergeValue(current, v)), v) == MergeValue(current, v)
    decreases v, 2
  {
    if v.Map? && current.Some? && current.value.Map? {
      MergeIdempotent(current.value.entries, v.entries);
    } else {
      MergeSelfValue(v);
    }
  }

  /** merge(merge(a, b), b) == merge(a, b), for every dictionary b. */
  lemma {:induction false} MergeIdempotent(base: seq<Entry>, override: seq<Entry>)
    requires IsDict(override)
    ensures MergeSpec(MergeSpec(base, override), override) == MergeSpec(base, override)
    decreases override, 3
  {
    var merged := MergeSpec(base, override);
    forall e | e in override
      ensures Get(merged, e.key).Some? && MergeValue(Get(merged, e.key), e.value) == Get(merged, e.key).value
    {
      GetMerge(base, override, e.key);
      GetMember(override, e);
      MergeValueTwice(Get(base, e.key), e.value);
    }
    MergeFixed(merged, override);
  }

  /* ---- when flattening loses nothing ---- */

  ghost predicate CleanKey(key: string) { key != "" && '.' !in key }

  /** Dictionaries with non-empty dot-free keys and no empty sub-mapping. */
  ghost predicate Clean(entries: seq<Entry>)
    decreases entries, 1
  {
    DistinctKeys(entries) && forall e | e in entries :: CleanEntry(e)
  }

  ghost predicate CleanEntry(e: Entry)
    decreases e, 0
  {
    CleanKey(e.key) && (e.value.Map? ==> e.value.entries != [] && Clean(e.value.entries))
  }

  function Root(prefix: string): string { if prefix == "" then "" else prefix + "." }

  // The key, under `prefix`, that the path goes through.
  ghost predicate Through(prefix: string, key: string, path: string) {
    path == Root(prefix) + key || Root(prefix) + key + "." <= path
  }

  lemma ThroughKeyIs(prefix: string, key: string, path: string)
    requires CleanKey(key) && Through(prefix, key, path)
    ensures |Root(prefix)| <= |path|
    ensures var tail := path[|Root(prefix)|..]; key == tail[..PyText.Find(tail, '.')]
  {
    var tail := path[|Root(prefix)|..];
    assert tail[..|key|] == key;
    assert forall k :: 0 <= k < |key| ==> tail[k] == key[k];
    assert |key| < |tail| ==> tail[|key|] == (Root(prefix) + key + ".")[|Root(prefix)| + |key|];
    PyText.FindIs(tail, '.', |key|);
  }

  lemma ThroughOneKey(prefix: string, k1: string, k2: string, path: string)
    requires CleanKey(k1) && CleanKey(k2) && Through(prefix, k1, path) && Through(prefix, k2, path)
    ensures k1 == k2
  {
    ThroughKeyIs(prefix, k1, path);
    ThroughKeyIs(prefix, k2, path);
  }

  /** Whatever the keys, a nested path extends its prefix by a dot. */
  lemma {:induction false} FlattenBelow(entries: seq<Entry>, prefix: string, path: string)
    requires prefix != "" && path in FlattenSpec(entries, prefix)
    ensures prefix + "." <= path
    decreases entries, 0
  {
    var e := entries[0];
    if path in FlattenEntry(e, prefix) {
      if e.value.Map? {
        FlattenBelow(e.value.entries, Path(prefix, e.key), path);
        assert prefix + "." <= Path(prefix, e.key) + ".";
      }
    } else {
      FlattenBelow(entries[1..], prefix, path);
    }
  }

  lemma EntryThrough(e: Entry, prefix: string, path: string)
    requires CleanKey(e.key) && path in FlattenEntry(e, prefix)
    ensures Through(prefix, e.key, path)
    ensures path == Path(prefix, e.key) <==> !e.value.Map?
  {
    assert Path(prefix, e.key) == Root(prefix) + e.key;
    if e.value.Map? { FlattenBelow(e.value.entries, Path(prefix, e.key), path); }
  }

  /** What one key of the dictionary flattens to. */
  ghost function Part(entries: seq<Entry>, key: string, prefix: string): Flat {
    match Get(entries, key)
    case None => map[]
    case Some(v) => FlattenEntry(Entry(key, v), prefix)
  }

  /** On the paths through one key, a clean tree flattens to that key's entry and nothing else. */
  lemma {:induction false} FlattenAt(entries: seq<Entry>, prefix: string, key: string, path: string)
    requires Clean(entries) && CleanKey(key) && Through(prefix, key, path)
    ensures SameAt(FlattenSpec(entries, prefix), Part(entries, key, prefix), path)
    decreases |entries|
  {
    hide Through, CleanKey, FlattenEntry;
    if entries == [] {
    } else {
      var e, rest := entries[0], entries[1..];
      assert CleanEntry(e);
      GetCons(entries, key);
      assert Clean(rest);
      FlattenAt(rest, prefix, key, path);
      if e.key == key {
        assert Get(rest, key).None? by {
          forall n | 0 <= n < |rest| ensures rest[n].key != key { assert rest[n] == entries[n + 1]; }
        }
        assert e == Entry(key, e.value);
      } else if path in FlattenEntry(e, prefix) {
        EntryThrough(e, prefix, path);
        ThroughOneKey(prefix, e.key, key, path);
      }
    }
  }

  /** Every flattened path goes through a key of the dictionary. */
  lemma {:induction false} FlattenThrough(entries: seq<Entry>, prefix: string, path: string) returns (e: Entry)
    requires Clean(entries) && path in FlattenSpec(entries, prefix)
    ensures e in entries && path in FlattenEntry(e, prefix) && Through(prefix, e.key, path)
    decreases |entries|
  {
    hide Through, CleanKey, FlattenEntry;
    assert CleanEntry(entries[0]);
    if path in FlattenEntry(entries[0], prefix) {
      e := entries[0];
      EntryThrough(e, prefix, path);
    } else {
      assert Clean(entries[1..]);
      e := FlattenThrough(entries[1..], prefix, path);
    }
  }

  /** A clean entry flattens to something. */
  lemma {:induction false} EntryHasPath(e: Entry, prefix: string) returns (path: string)
    requires CleanEntry(e)
    ensures path in FlattenEntry(e, prefix)
    decreases e
  {
    if e.value.Map? {
      assert e.value.entries[0] in e.value.entries;
      path := EntryHasPath(e.value.entries[0], Path(prefix, e.key));
    } else {
      path := Path(prefix, e.key);
    }
  }

  /** Equality of dictionaries up to the order of their entries; leaves, lists among them, as the diff takes them. */
  ghost predicate SameDict(a: seq<Entry>, b: seq<Entry>)
    decreases a, 1
  {
    && (forall e | e in a :: Get(b, e.key).Some? && SameValue(e.value, Get(b, e.key).value))
    && (forall e | e in b :: Get(a, e.key).Some?)
  }

  ghost predicate SameValue(v: Value, w: Value)
    decreases v, 0
  {
    if v.Map? && w.Map? then SameDict(v.entries, w.entries) else v == w
  }

  lemma CleanGet(entries: seq<Entry>, key: string)
    requires Clean(entries) && Get(entries, key).Some?
    ensures CleanEntry(Entry(key, Get(entries, key).value)) && Entry(key, Get(entries, key).value) in entries
  {
    var i := IndexOf(entries, key);
    assert entries[i] in entries;
  }

  lemma CleanMember(entries: seq<Entry>, e: Entry)
    requires Clean(entries) && e in entries
    ensures CleanEntry(e) && CleanKey(e.key) && Get(entries, e.key) == Some(e.value)
  {
    GetMember(entries, e);
  }

  lemma PartThrough(entries: seq<Entry>, key: string, prefix: string, path: string)
    requires Clean(entries) && path in Part(entries, key, prefix)
    ensures CleanKey(key) && Through(prefix, key, path)
  {
    CleanGet(entries, key);
    EntryThrough(Entry(key, Get(entries, key).value), prefix, path);
  }

  /** Two clean trees with the same flat map have the same part under every key. */
  lemma SameParts(a: seq<Entry>, b: seq<Entry>, prefix: string, key: string)
    requires Clean(a) && Clean(b) && FlattenSpec(a, prefix) == FlattenSpec(b, prefix)
    ensures Part(a, key, prefix) == Part(b, key, prefix)
  {
    hide Part, Clean, CleanKey, Through;
    var f, g := Part(a, key, prefix), Part(b, key, prefix);
    forall p | p in f || p in g ensures SameAt(f, g, p) {
      if p in f { PartThrough(a, key, prefix, p); } else { PartThrough(b, key, prefix, p); }
      FlattenAt(a, prefix, key, p);
      FlattenAt(b, prefix, key, p);
    }
    SameEverywhere(f, g);
  }

  lemma SameEverywhere(f: Flat, g: Flat)
    requires forall p | p in f || p in g :: SameAt(f, g, p)
    ensures f == g
  {
    assert f.Keys == g.Keys;
  }

  /** A clean entry's flat map tells its value, up to the order of dictionaries. */
  lemma {:induction false} EntryInjective(e: Entry, f: Entry, prefix: string)
    requires CleanEntry(e) && CleanEntry(f) && e.key == f.key
    requires FlattenEntry(e, prefix) == FlattenEntry(f, prefix)
    ensures SameValue(e.value, f.value)
    decreases e, 0
  {
    var path := EntryHasPath(e, prefix);
    EntryThrough(e, prefix, path);
    EntryThrough(f, prefix, path);
    if e.value.Map? {
      FlatEqualMeansSame(e.value.entries, f.value.entries, Path(prefix, e.key));
    } else {
      assert FlattenEntry(e, prefix)[path] == e.value && FlattenEntry(f, prefix)[path] == f.value;
    }
  }

  lemma {:induction false} FlatEqualMeansSame(a: seq<Entry>, b: seq<Entry>, prefix: string)
    requires Clean(a) && Clean(b) && FlattenSpec(a, prefix) == FlattenSpec(b, prefix)
    ensures SameDict(a, b)
    decreases a, 1
  {
    forall e | e in a ensures Get(b, e.key).Some? && SameValue(e.value, Get(b, e.key).value) {
      CleanMember(a, e);
      SameParts(a, b, prefix, e.key);
      var path := EntryHasPath(e, prefix);
      CleanGet(b, e.key);
      EntryInjective(e, Entry(e.key, Get(b, e.key).value), prefix);
    }
    forall e | e in b ensures Get(a, e.key).Some? {
      CleanMember(b, e);
      SameParts(a, b, prefix, e.key);
      var path := EntryHasPath(e, prefix);
    }
  }

  lemma {:induction false} SameMeansPart(a: seq<Entry>, b: seq<Entry>, prefix: string, key: string)
    requires Clean(a) && Clean(b) && SameDict(a, b) && Get(a, key).Some? && Get(b, key).Some?
    ensures Part(a, key, prefix) == Part(b, key, prefix)
    decreases a, 0
  {
    var v, w := Get(a, key).value, Get(b, key).value;
    CleanGet(a, key);
    CleanGet(b, key);
    assert SameValue(Entry(key, v).value, w);
    if v.Map? { SameMeansFlatEqual(v.entries, w.entries, Path(prefix, key)); }
  }

  lemma {:induction false} SameMeansFlatEqual(a: seq<Entry>, b: seq<Entry>, prefix: string)
    requires Clean(a) && Clean(b) && SameDict(a, b)
    ensures FlattenSpec(a, prefix) == FlattenSpec(b, prefix)
    decreases a, 1
  {
    var f, g := FlattenSpec(a, prefix), FlattenSpec(b, prefix);
    forall p | p in f || p in g ensures SameAt(f, g, p) {
      var e;
      if p in f {
        e := FlattenThrough(a, prefix, p);
        CleanMember(a, e);
      } else {
        e := FlattenThrough(b, prefix, p);
        CleanMember(b, e);
      }
      SameMeansPart(a, b, prefix, e.key);
      FlattenAt(a, prefix, e.key, p);
      FlattenAt(b, prefix, e.key, p);
    }
    SameEverywhere(f, g);
  }

  /** Flattening is injective on clean trees, so their diff is empty exactly when they are equal. */
  lemma DiffEmptyIffSame(a: seq<Entry>, b: seq<Entry>)
    requires Clean(a) && Clean(b)
    ensures DiffSpec(FlattenSpec(a, ""), FlattenSpec(b, "")) == [] <==> SameDict(a, b)
  {
    hide DiffSpec, FlattenSpec, Clean, SameDict;
    DiffEmptyIffEqual(FlattenSpec(a, ""), FlattenSpec(b, ""));
    if FlattenSpec(a, "") == FlattenSpec(b, "") { FlatEqualMeansSame(a, b, ""); }
    if SameDict(a, b) { SameMeansFlatEqual(a, b, ""); }
  }

  /* ---- what the diff cannot see ---- */

  /** Dictionaries with non-empty dot-free keys, whatever they hold. */
  ghost predicate DotFree(entries: seq<Entry>)
    decreases entries, 1
  {
    DistinctKeys(entries) && forall e | e in entries :: DotFreeEntry(e)
  }

  ghost predicate DotFreeEntry(e: Entry)
    decreases e, 0
  {
    CleanKey(e.key) && (e.value.Map? ==> DotFree(e.value.entries))
  }

  /** The tree without the mappings that flatten to nothing, at any depth. */
  function Pruned(entries: seq<Entry>): seq<Entry>
    decreases entries, 0
  {
    if entries == [] then [] else PrunedEntry(entries[0]) + Pruned(entries[1..])
  }

  function PrunedEntry(e: Entry): seq<Entry>
    decreases e, 0
  {
    if !e.value.Map? then [e]
    else
      var inner := Pruned(e.value.entries);
      if inner == [] then [] else [Entry(e.key, Map(inner))]
  }

  lemma {:induction false} PrunedKeys(entries: seq<Entry>, p: Entry)
    requires p in Pruned(entries)
    ensures exists e :: e in entries && e.key == p.key
    decreases |entries|
  {
    hide PrunedEntry;
    var e := entries[0];
    if p in PrunedEntry(e) {
      PrunedEntryKey(e, p);
      assert e in entries;
    } else {
      PrunedKeys(entries[1..], p);
    }
  }

  lemma PrunedEntryKey(e: Entry, p: Entry)
    requires p in PrunedEntry(e)
    ensures p.key == e.key && |PrunedEntry(e)| == 1
  {}

  /** Pruning leaves a clean tree. */
  lemma {:induction false} PrunedClean(entries: seq<Entry>)
    requires DotFree(entries)
    ensures Clean(Pruned(entries))
    decreases entries, 1
  {
    hide CleanKey;
    if entries == [] {
    } else {
      var e, rest := entries[0], entries[1..];
      assert DotFreeEntry(e);
      assert DotFree(rest);
      PrunedClean(rest);
      if e.value.Map? { PrunedClean(e.value.entries); }
      forall p | p in PrunedEntry(e) ensures CleanEntry(p) { PrunedEntryKey(e, p); }
      FirstKeyIsFresh(entries);
    }
  }

  /** Prepending an entry with a new key keeps keys distinct through pruning. */
  lemma FirstKeyIsFresh(entries: seq<Entry>)
    requires entries != [] && DistinctKeys(entries)
    ensures DistinctKeys(Pruned(entries[1..])) ==> DistinctKeys(Pruned(entries))
  {
    hide Pruned, PrunedEntry;
    PrunedCons(entries);
    var head, tail := PrunedEntry(entries[0]), Pruned(entries[1..]);
    if head != [] { PrunedEntryKey(entries[0], head[0]); }
    forall p | p in tail ensures p.key != entries[0].key {
      PrunedKeys(entries[1..], p);
      var e :| e in entries[1..] && e.key == p.key;
      var k :| 0 <= k < |entries[1..]| && entries[1..][k] == e;
      assert entries[k + 1] == e;
    }
  }

  lemma PrunedCons(entries: seq<Entry>)
    requires entries != []
    ensures Pruned(entries) == PrunedEntry(entries[0]) + Pruned(entries[1..]) && |PrunedEntry(entries[0])| <= 1
  {}

  /** A clean tree has nothing to prune. */
  lemma {:induction false} CleanIsPruned(entries: seq<Entry>)
    requires Clean(entries)
    ensures Pruned(entries) == entries
    decreases entries, 1
  {
    if entries == [] {
    } else {
      var e := entries[0];
      assert CleanEntry(e);
      assert Clean(entries[1..]);
      CleanIsPruned(entries[1..]);
      if e.value.Map? { CleanIsPruned(e.value.entries); }
      assert PrunedEntry(e) == [e];
    }
  }

  /** Flattening does not see what pruning drops. */
  lemma {:induction false} PrunedFlattensAlike(entries: seq<Entry>, prefix: string)
    ensures FlattenSpec(Pruned(entries), prefix) == FlattenSpec(entries, prefix)
    decreases entries, 1
  {
    if entries == [] {
    } else {
      var e := entries[0];
      PrunedFlattensAlike(entries[1..], prefix);
      if e.value.Map? { PrunedFlattensAlike(e.value.entries, Path(prefix, e.key)); }
      var head, tail := PrunedEntry(e), Pruned(entries[1..]);
      if head == [] {
        assert head + tail == tail;
      } else {
        assert (head + tail)[1..] == tail;
      }
    }
  }

  /** For all dictionaries with non-empty dot-free keys, the diff is empty exactly when they are equal once the
      mappings that flatten to nothing are dropped. */
  lemma DiffEmptyIffPrunedSame(a: seq<Entry>, b: seq<Entry>)
    requires DotFree(a) && DotFree(b)
    ensures DiffSpec(FlattenSpec(a, ""), FlattenSpec(b, "")) == [] <==> SameDict(Pruned(a), Pruned(b))
  {
    hide DiffSpec, FlattenSpec, Clean, DotFree, SameDict, Pruned;
    PrunedClean(a);
    PrunedClean(b);
    PrunedFlattensAlike(a, "");
    PrunedFlattensAlike(b, "");
    DiffEmptyIffSame(Pruned(a), Pruned(b));
  }

  /** The smallest trees it is blind to: an empty sub-mapping, and, with other keys, a dot in a key and an empty key. */
  lemma EmptyMappingCollides()
    ensures !SameDict([Entry("a", Map([]))], []) && FlattenSpec([Entry("a", Map([]))], "") == FlattenSpec([], "")
  {
    assert Get([], "a").None?;
    assert Entry("a", Map([])) in [Entry("a", Map([]))];
  }

  lemma DottedKeyCollides(v: Value)
    requires !v.Map?
    ensures var dotted, nested := [Entry("a.b", v)], [Entry("a", Map([Entry("b", v)]))];
            !SameDict(dotted, nested) && FlattenSpec(dotted, "") == FlattenSpec(nested, "")
  {
    var dotted, inner := [Entry("a.b", v)], [Entry("b", v)];
    assert dotted[0] in dotted && IndexOf([Entry("a", Map(inner))], "a.b") == 1;
    assert Path("a", "b") == "a.b";
    assert FlattenSpec(inner[1..], "a") == map[];
    assert FlattenSpec(inner, "a") == FlattenEntry(inner[0], "a");
  }

  lemma EmptyKeyCollides(v: Value)
    requires !v.Map?
    ensures var hidden, plain := [Entry("", Map([Entry("a", v)]))], [Entry("a", v)];
            !SameDict(hidden, plain) && FlattenSpec(hidden, "") == FlattenSpec(plain, "")
  {
    var plain := [Entry("a", v)];
    var hidden := [Entry("", Map(plain))];
    assert hidden[0] in hidden && IndexOf(plain, "") == 1;
    assert Path("", "") == "" && FlattenSpec(hidden[1..], "") == map[];
    assert FlattenEntry(hidden[0], "") == FlattenSpec(plain, "");
  }

  /* ---- merge as overlay ---- */

  /** Wherever both trees have a key, both hold mappings or neither does. */
  ghost predicate Compatible(a: seq<Entry>, b: seq<Entry>)
    decreases b
  {
    forall e | e in b ::
      match Get(a, e.key)
      case None => true
      case Some(v) => (v.Map? <==> e.value.Map?) && (e.value.Map? && v.Map? ==> Compatible(v.entries, e.value.entries))
  }

  lemma {:induction false} CleanMerge(a: seq<Entry>, b: seq<Entry>)
    requires Clean(a) && Clean(b)
    ensures Clean(MergeSpec(a, b)) && (a != [] ==> MergeSpec(a, b) != [])
    decreases b, 0
  {
    if b == [] {
    } else {
      var e := b[0];
      var v := MergeValue(Get(a, e.key), e.value);
      var next := MergeEntry(a, e);
      CleanMember(b, e);
      if Get(a, e.key).Some? { CleanGet(a, e.key); }
      if Get(a, e.key).Some? && Get(a, e.key).value.Map? && e.value.Map? {
        CleanMerge(Get(a, e.key).value.entries, e.value.entries);
      }
      assert CleanEntry(Entry(e.key, v));
      PutDistinct(a, e.key, v);
      assert forall x | x in next :: x in a || x == Entry(e.key, v);
      assert Clean(b[1..]);
      CleanMerge(next, b[1..]);
    }
  }

  ghost predicate IsOverlay(a: seq<Entry>, b: seq<Entry>, prefix: string) {
    FlattenSpec(MergeSpec(a, b), prefix) == FlattenSpec(a, prefix) + FlattenSpec(b, prefix)
  }

  ghost predicate PartOverlay(a: seq<Entry>, b: seq<Entry>, prefix: string, key: string) {
    Part(MergeSpec(a, b), key, prefix) == Part(a, key, prefix) + Part(b, key, prefix)
  }

  /** The overlay law holds of the whole exactly when it holds under every key. */
  lemma OverlayByParts(a: seq<Entry>, b: seq<Entry>, prefix: string)
    requires Clean(a) && Clean(b)
    ensures IsOverlay(a, b, prefix) <==> forall k :: PartOverlay(a, b, prefix, k)
  {
    hide Part, Clean, CleanKey, Through, MergeSpec, FlattenSpec, FlattenEntry;
    CleanMerge(a, b);
    var m := MergeSpec(a, b);
    var f, g, h := FlattenSpec(m, prefix), FlattenSpec(a, prefix), FlattenSpec(b, prefix);
    if IsOverlay(a, b, prefix) {
      forall k ensures PartOverlay(a, b, prefix, k) {
        var x, y, z := Part(m, k, prefix), Part(a, k, prefix), Part(b, k, prefix);
        forall p | p in x || p in y + z ensures SameAt(x, y + z, p) {
          if p in x { PartThrough(m, k, prefix, p); } else if p in y { PartThrough(a, k, prefix, p); }
            else { PartThrough(b, k, prefix, p); }
          FlattenAt(m, prefix, k, p);
          FlattenAt(a, prefix, k, p);
          FlattenAt(b, prefix, k, p);
        }
        SameEverywhere(x, y + z);
      }
    }
    if forall k :: PartOverlay(a, b, prefix, k) {
      forall p | p in f || p in g + h ensures SameAt(f, g + h, p) {
        var e;
        if p in f {
          e := FlattenThrough(m, prefix, p);
          CleanMember(m, e);
        } else if p in g {
          e := FlattenThrough(a, prefix, p);
          CleanMember(a, e);
        } else {
          e := FlattenThrough(b, prefix, p);
          CleanMember(b, e);
        }
        assert PartOverlay(a, b, prefix, e.key);
        FlattenAt(m, prefix, e.key, p);
        FlattenAt(a, prefix, e.key, p);
        FlattenAt(b, prefix, e.key, p);
      }
      SameEverywhere(f, g + h);
    }
  }

  ghost predicate CompatibleAt(a: seq<Entry>, b: seq<Entry>, key: string) {
    var v, w := Get(a, key), Get(b, key);
    v.Some? && w.Some? ==>
      && (v.value.Map? <==> w.value.Map?)
      && (v.value.Map? && w.value.Map? ==> Compatible(v.value.entries, w.value.entries))
  }

  lemma CompatibleByKeys(a: seq<Entry>, b: seq<Entry>)
    requires DistinctKeys(b)
    ensures Compatible(a, b) <==> forall k :: CompatibleAt(a, b, k)
  {
    if Compatible(a, b) {
      forall k ensures CompatibleAt(a, b, k) {
        if Get(b, k).Some? { assert b[IndexOf(b, k)] in b; }
      }
    }
    if forall k :: CompatibleAt(a, b, k) {
      forall e | e in b
        ensures match Get(a, e.key)
                case None => true
                case Some(v) => (v.Map? <==> e.value.Map?)
                                && (e.value.Map? && v.Map? ==> Compatible(v.entries, e.value.entries))
      {
        GetMember(b, e);
        assert CompatibleAt(a, b, e.key);
      }
    }
  }

  lemma {:induction false} PartOverlayIff(a: seq<Entry>, b: seq<Entry>, prefix: string, key: string)
    requires Clean(a) && Clean(b)
    ensures PartOverlay(a, b, prefix, key) <==> CompatibleAt(a, b, key)
    decreases b, 0
  {
    GetMerge(a, b, key);
    var v, w := Get(a, key), Get(b, key);
    if v.Some? && w.Some? {
      CleanGet(a, key);
      CleanGet(b, key);
      var path := Path(prefix, key);
      if v.value.Map? && w.value.Map? {
        MergeOverlay(v.value.entries, w.value.entries, path);
      } else if v.value.Map? || w.value.Map? {
        var p := EntryHasPath(Entry(key, v.value), prefix);
        EntryThrough(Entry(key, v.value), prefix, p);
        if p in FlattenEntry(Entry(key, w.value), prefix) { EntryThrough(Entry(key, w.value), prefix, p); }
      }
    }
  }

  /** For clean trees, flattening a deep merge is the overlay of the flat maps exactly when no key
      holds a mapping on one side and a leaf on the other. */
  lemma {:induction false} MergeOverlay(a: seq<Entry>, b: seq<Entry>, prefix: string)
    requires Clean(a) && Clean(b)
    ensures IsOverlay(a, b, prefix) <==> Compatible(a, b)
    decreases b, 1
  {
    hide IsOverlay, PartOverlay, CompatibleAt, Compatible, Clean;
    OverlayByParts(a, b, prefix);
    assert DistinctKeys(b) by { CleanDistinct(b); }
    CompatibleByKeys(a, b);
    forall k ensures PartOverlay(a, b, prefix, k) <==> CompatibleAt(a, b, k) {
      PartOverlayIff(a, b, prefix, k);
    }
  }

  lemma CleanDistinct(entries: seq<Entry>)
    requires Clean(entries)
    ensures DistinctKeys(entries)
  {}

  /** On every path of the override, a merge of clean trees flattens to the override's value, compatible or not. */
  lemma {:induction false} OverrideStands(a: seq<Entry>, b: seq<Entry>, prefix: string, path: string)
    requires Clean(a) && Clean(b) && path in FlattenSpec(b, prefix)
    ensures SameAt(FlattenSpec(MergeSpec(a, b), prefix), FlattenSpec(b, prefix), path)
    decreases b
  {
    hide Clean, CleanKey, Through, MergeSpec, FlattenSpec;
    var e := FlattenThrough(b, prefix, path);
    CleanMember(b, e);
    CleanMerge(a, b);
    FlattenAt(b, prefix, e.key, path);
    FlattenAt(MergeSpec(a, b), prefix, e.key, path);
    CleanDistinct(b);
    GetMerge(a, b, e.key);
    var v := Get(a, e.key);
    if v.Some? && v.value.Map? && e.value.Map? {
      CleanGet(a, e.key);
      CleanInner(e.key, v.value.entries);
      CleanInner(e.key, e.value.entries);
      OverrideStands(v.value.entries, e.value.entries, Path(prefix, e.key), path);
    }
  }

  lemma CleanInner(key: string, entries: seq<Entry>)
    requires CleanEntry(Entry(key, Map(entries)))
    ensures Clean(entries)
  {}

  /** A compatible merge changes only paths of the override, and to the override's values. */
  lemma MergeTouchesOverride(a: seq<Entry>, b: seq<Entry>, d: DiffEntry)
    requires Clean(a) && Clean(b) && Compatible(a, b)
    ensures d in DiffSpec(FlattenSpec(a, ""), FlattenSpec(MergeSpec(a, b), ""))
            ==> var over := FlattenSpec(b, ""); d.path in over && d.toValue == over[d.path] && !d.change.Removed?
  {
    hide DiffSpec, Clean, Compatible, FlattenSpec, MergeSpec;
    MergeOverlay(a, b, "");
    DiffMember(FlattenSpec(a, ""), FlattenSpec(MergeSpec(a, b), ""), d);
    if d in DiffSpec(FlattenSpec(a, ""), FlattenSpec(MergeSpec(a, b), "")) {
      var c := CompareAt(FlattenSpec(a, ""), FlattenSpec(MergeSpec(a, b), ""), d.path);
      assert c[0] == d;
    }
  }

  /** The diff of a merge stays on the paths of the override. */
  ghost predicate StaysWithin(a: seq<Entry>, b: seq<Entry>) {
    forall d | d in DiffSpec(FlattenSpec(a, ""), FlattenSpec(MergeSpec(a, b), "")) :: d.path in FlattenSpec(b, "")
  }

  /** It does so exactly for compatible trees. */
  lemma MergeStaysWithinIff(a: seq<Entry>, b: seq<Entry>)
    requires Clean(a) && Clean(b)
    ensures StaysWithin(a, b) <==> Compatible(a, b)
  {
    hide DiffSpec, Clean, Compatible, FlattenSpec, MergeSpec, CompareAt;
    var f, g, h := FlattenSpec(a, ""), FlattenSpec(b, ""), FlattenSpec(MergeSpec(a, b), "");
    MergeOverlay(a, b, "");
    if Compatible(a, b) {
      forall d | d in DiffSpec(f, h) ensures d.path in g { MergeTouchesOverride(a, b, d); }
    }
    if StaysWithin(a, b) {
      forall p | p in h || p in f + g ensures SameAt(h, f + g, p) {
        if p in g {
          OverrideStands(a, b, "", p);
        } else {
          UntouchedIsSame(f, h, p);
        }
      }
      SameEverywhere(h, f + g);
    }
  }

  /** A path on which two flat maps differ stands in their diff. */
  lemma UntouchedIsSame(f: Flat, h: Flat, path: string)
    ensures SameAt(h, f, path) || (CompareAt(f, h, path) != [] && CompareAt(f, h, path)[0] in DiffSpec(f, h)
                                   && CompareAt(f, h, path)[0].path == path)
  {
    hide DiffSpec;
    var c := CompareAt(f, h, path);
    if c != [] { DiffMember(f, h, c[0]); }
  }
}
