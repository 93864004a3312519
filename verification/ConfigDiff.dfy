/** Flattening configuration trees to dotted paths, and the diff of two flat maps. */
module ConfigDiff {
  import opened Values

  type Flat = map<string, Value>

  function Path(prefix: string, key: string): string {
    if prefix == "" then key else prefix + "." + key
  }

  /** Later entries win when two paths collide. */
  function FlattenSpec(entries: seq<Entry>, prefix: string): Flat
    decreases entries, 0
  {
    if entries == [] then map[] else FlattenEntry(entries[0], prefix) + FlattenSpec(entries[1..], prefix)
  }

  function FlattenEntry(e: Entry, prefix: string): Flat
    decreases e, 0
  {
    var path := Path(prefix, e.key);
    if e.value.Map? then FlattenSpec(e.value.entries, path) else map[path := e.value]
  }

  lemma {:induction false} FlattenSnoc(entries: seq<Entry>, e: Entry, prefix: string)
    ensures FlattenSpec(entries + [e], prefix) == FlattenSpec(entries, prefix) + FlattenEntry(e, prefix)
    decreases |entries|
  {
    if entries == [] {
      assert [] + [e] == [e];
    } else {
      assert (entries + [e])[1..] == entries[1..] + [e];
      FlattenSnoc(entries[1..], e, prefix);
    }
  }

  method Flatten(entries: seq<Entry>, prefix: string) returns (flattened: Flat)
    ensures flattened == FlattenSpec(entries, prefix)
    decreases entries, 0
  {
    flattened := map[];
    for i := 0 to |entries|
      invariant flattened == FlattenSpec(entries[..i], prefix)
    {
      var e := entries[i];
      assert entries[..i + 1] == entries[..i] + [e];
      FlattenSnoc(entries[..i], e, prefix);
      var path := Path(prefix, e.key);
      if e.value.Map? {
        var sub := Flatten(e.value.entries, path);
        flattened := flattened + sub;
      } else {
        flattened := flattened[path := e.value];
      }
    }
    assert entries[..|entries|] == entries;
  }

  /* ---- sorted keys ---- */

  // Code-point order on strings.
  predicate Before(a: string, b: string) {
    b != "" && (a == "" || a[0] < b[0] || (a[0] == b[0] && Before(a[1..], b[1..])))
  }

  lemma {:induction false} BeforeIsTotal(a: string, b: string)
    ensures a == b || Before(a, b) || Before(b, a)
    ensures !(Before(a, b) && Before(b, a)) && !Before(a, a)
  {
    if a != "" && b != "" {
      BeforeIsTotal(a[1..], b[1..]);
      BeforeIsTotal(a[1..], a[1..]);
      assert a == [a[0]] + a[1..] && b == [b[0]] + b[1..];
    } else if a != "" {
      BeforeIsTotal(a[1..], a[1..]);
    }
  }

  lemma {:induction false} BeforeIsTransitive(a: string, b: string, c: string)
    requires Before(a, b) && Before(b, c)
    ensures Before(a, c)
  {
    if a != "" && a[0] == b[0] == c[0] { BeforeIsTransitive(a[1..], b[1..], c[1..]); }
  }

  predicate IsFirst(k: string, keys: set<string>) {
    k in keys && forall x | x in keys :: x == k || Before(k, x)
  }

  lemma {:induction false} FirstExists(keys: set<string>)
    requires keys != {}
    ensures exists k :: IsFirst(k, keys)
    ensures forall a, b | IsFirst(a, keys) && IsFirst(b, keys) :: a == b
    decreases |keys|
  {
    forall a, b | IsFirst(a, keys) && IsFirst(b, keys) ensures a == b { BeforeIsTotal(a, b); }
    var x :| x in keys;
    if keys == {x} {
      assert IsFirst(x, keys);
    } else {
      var rest := keys - {x};
      assert keys == rest + {x};
      FirstExists(rest);
      var y :| IsFirst(y, rest);
      BeforeIsTotal(x, y);
      var k := if Before(x, y) then x else y;
      forall z | z in keys ensures z == k || Before(k, z) {
        if k == x && z in rest && z != y { BeforeIsTransitive(x, y, z); }
      }
      assert IsFirst(k, keys);
    }
  }

  ghost predicate StrictlySorted(keys: seq<string>) {
    forall i, j :: 0 <= i < j < |keys| ==> Before(keys[i], keys[j])
  }

  /** sorted(keys). */
  function Sorted(keys: set<string>): (r: seq<string>)
    ensures StrictlySorted(r) && forall k :: k in r <==> k in keys
    decreases |keys|
  {
    if keys == {} then []
    else
      FirstExists(keys);
      var k :| IsFirst(k, keys);
      var rest := Sorted(keys - {k});
      assert forall j :: 0 <= j < |rest| ==> rest[j] in keys - {k};
      [k] + rest
  }

  /* ---- the diff ---- */

  datatype Change = Added | Removed | Changed

  datatype DiffEntry = DiffEntry(path: string, fromValue: Value, toValue: Value, change: Change, risk: string)

  // The value a missing side is reported with is None, which reads as null.
  function CompareAt(base: Flat, target: Flat, key: string): seq<DiffEntry>
  {
    if key !in base && key !in target then []
    else if key !in base then [DiffEntry(key, Null, target[key], Added, "low")]
    else if key !in target then [DiffEntry(key, base[key], Null, Removed, "low")]
    else if base[key] != target[key] then [DiffEntry(key, base[key], target[key], Changed, "low")]
    else []
  }

  function DiffKeys(base: Flat, target: Flat, keys: seq<string>): seq<DiffEntry>
  {
    if keys == [] then [] else CompareAt(base, target, keys[0]) + DiffKeys(base, target, keys[1..])
  }

  lemma {:induction false} DiffKeysSnoc(base: Flat, target: Flat, keys: seq<string>, k: string)
    ensures DiffKeys(base, target, keys + [k]) == DiffKeys(base, target, keys) + CompareAt(base, target, k)
  {
    if keys == [] {
      assert [] + [k] == [k];
    } else {
      assert (keys + [k])[1..] == keys[1..] + [k];
      DiffKeysSnoc(base, target, keys[1..], k);
    }
  }

  function DiffSpec(base: Flat, target: Flat): seq<DiffEntry> {
    DiffKeys(base, target, Sorted(base.Keys + target.Keys))
  }

  method DiffMappings(base: seq<Entry>, target: seq<Entry>) returns (entries: seq<DiffEntry>)
    ensures entries == DiffSpec(FlattenSpec(base, ""), FlattenSpec(target, ""))
  {
    hide FlattenSpec, StrictlySorted, Before, Sorted;
    var baseFlat := Flatten(base, "");
    var targetFlat := Flatten(target, "");
    entries := [];
    var keys := Sorted(baseFlat.Keys + targetFlat.Keys);
    for i := 0 to |keys|
      invariant entries == DiffKeys(baseFlat, targetFlat, keys[..i])
    {
      var key := keys[i];
      assert keys[..i + 1] == keys[..i] + [key];
      DiffKeysSnoc(baseFlat, targetFlat, keys[..i], key);
      assert key in keys;
      if key !in baseFlat {
        entries := entries + [DiffEntry(key, Null, targetFlat[key], Added, "low")];
      } else if key !in targetFlat {
        entries := entries + [DiffEntry(key, baseFlat[key], Null, Removed, "low")];
      } else if baseFlat[key] != targetFlat[key] {
        entries := entries + [DiffEntry(key, baseFlat[key], targetFlat[key], Changed, "low")];
      }
    }
    assert keys[..|keys|] == keys;
  }

  /** An entry is in the diff exactly when its path differs, and says how. */
  lemma {:induction false} DiffKeysMember(base: Flat, target: Flat, keys: seq<string>, d: DiffEntry)
    ensures d in DiffKeys(base, target, keys) <==> d.path in keys && [d] == CompareAt(base, target, d.path)
  {
    if keys == [] {
    } else {
      DiffKeysMember(base, target, keys[1..], d);
      assert d.path in keys <==> d.path == keys[0] || d.path in keys[1..];
    }
  }

  ghost predicate SortedDiff(d: seq<DiffEntry>) {
    forall i, j :: 0 <= i < j < |d| ==> Before(d[i].path, d[j].path)
  }

  lemma {:induction false} DiffKeysSorted(base: Flat, target: Flat, keys: seq<string>)
    requires StrictlySorted(keys)
    ensures SortedDiff(DiffKeys(base, target, keys))
  {
    if keys == [] {
    } else {
      var rest := DiffKeys(base, target, keys[1..]);
      DiffKeysSorted(base, target, keys[1..]);
      forall j | 0 <= j < |rest| ensures Before(keys[0], rest[j].path) {
        DiffKeysMember(base, target, keys[1..], rest[j]);
      }
    }
  }

  lemma DiffIsSorted(base: Flat, target: Flat)
    ensures SortedDiff(DiffSpec(base, target))
  {
    DiffKeysSorted(base, target, Sorted(base.Keys + target.Keys));
  }

  /** The diff lists exactly the paths on which the two maps differ: those of the target alone as added, those of
      the base alone as removed, and those with another value as changed, with both values. */
  lemma DiffMember(base: Flat, target: Flat, d: DiffEntry)
    ensures d in DiffSpec(base, target) <==>
            match d.change
            case Added => d.path !in base && d.path in target && d == DiffEntry(d.path, Null, target[d.path], Added,
                                                                                "low")
            case Removed => d.path in base && d.path !in target && d == DiffEntry(d.path, base[d.path], Null, Removed,
                                                                                  "low")
            case Changed =>
              && d.path in base && d.path in target && base[d.path] != target[d.path]
              && d == DiffEntry(d.path, base[d.path], target[d.path], Changed, "low")
    ensures d in DiffSpec(base, target) <==> [d] == CompareAt(base, target, d.path)
  {
    DiffKeysMember(base, target, Sorted(base.Keys + target.Keys), d);
  }

  lemma DiffEmptyIffEqual(base: Flat, target: Flat)
    ensures DiffSpec(base, target) == [] <==> base == target
  {
    if DiffSpec(base, target) == [] {
      forall k | k in base || k in target ensures k in base && k in target && base[k] == target[k] {
        var c := CompareAt(base, target, k);
        if c != [] { DiffMember(base, target, c[0]); }
      }
    } else {
      DiffMember(base, target, DiffSpec(base, target)[0]);
    }
  }

  /* ---- patching ---- */

  function Apply(flat: Flat, d: DiffEntry): Flat {
    if d.change.Removed? then flat - {d.path} else flat[d.path := d.toValue]
  }

  function Patch(flat: Flat, diff: seq<DiffEntry>): Flat
    decreases |diff|
  {
    if diff == [] then flat else Patch(Apply(flat, diff[0]), diff[1..])
  }

  ghost predicate SameAt(a: Flat, b: Flat, k: string) { (k in a <==> k in b) && (k in a ==> a[k] == b[k]) }

  /** Patching one path settles it, and leaves the others. */
  lemma PatchPath(flat: Flat, base: Flat, target: Flat, k: string, rest: seq<DiffEntry>)
    requires SameAt(flat, base, k)
    ensures var c := CompareAt(base, target, k);
            var next := if c == [] then flat else Apply(flat, c[0]);
            && Patch(flat, c + rest) == Patch(next, rest)
            && SameAt(next, target, k) && forall j | j != k :: SameAt(next, flat, j)
  {
    var c := CompareAt(base, target, k);
    if c == [] { assert c + rest == rest; } else { assert (c + rest)[1..] == rest; }
  }

  lemma {:induction false} PatchKeys(flat: Flat, base: Flat, target: Flat, keys: seq<string>)
    requires StrictlySorted(keys) && forall k | k in keys :: SameAt(flat, base, k)
    ensures var r := Patch(flat, DiffKeys(base, target, keys));
            && (forall k | k in keys :: SameAt(r, target, k)) && (forall k | k !in keys :: SameAt(r, flat, k))
    decreases |keys|
  {
    hide Patch, Apply, CompareAt, Before;
    if keys == [] {
      NothingToPatch(flat);
    } else {
      var c, rest := CompareAt(base, target, keys[0]), DiffKeys(base, target, keys[1..]);
      var next := if c == [] then flat else Apply(flat, c[0]);
      PatchPath(flat, base, target, keys[0], rest);
      HeadIsFresh(keys);
      forall k | k in keys[1..] ensures SameAt(next, base, k) {
        assert SameAt(next, flat, k) && SameAt(flat, base, k);
      }
      PatchKeys(next, base, target, keys[1..]);
      var r := Patch(next, rest);
      assert Patch(flat, DiffKeys(base, target, keys)) == r;
      forall k ensures if k in keys then SameAt(r, target, k) else SameAt(r, flat, k) {
        if k == keys[0] {
          assert SameAt(r, next, k);
        } else if k in keys {
          assert k in keys[1..];
        } else {
          assert SameAt(r, next, k) && SameAt(next, flat, k);
        }
      }
    }
  }

  lemma HeadIsFresh(keys: seq<string>)
    requires StrictlySorted(keys) && keys != []
    ensures keys[0] !in keys[1..]
  {
    forall k | k in keys[1..] ensures k != keys[0] { BeforeIsTotal(keys[0], k); }
  }

  lemma NothingToPatch(flat: Flat)
    ensures Patch(flat, []) == flat
  {}

  /** Patching the base with the diff gives the target. */
  lemma PatchGivesTarget(base: Flat, target: Flat)
    ensures Patch(base, DiffSpec(base, target)) == target
  {
    var keys := Sorted(base.Keys + target.Keys);
    hide CompareAt, Before, Patch;
    PatchKeys(base, base, target, keys);
    var r := Patch(base, DiffSpec(base, target));
    forall k ensures (k in r <==> k in target) && (k in r ==> r[k] == target[k]) {
      if k in keys { assert SameAt(r, target, k); } else { assert k !in base && k !in target && SameAt(r, base, k); }
    }
  }

  function Reverse(d: DiffEntry): DiffEntry {
    d.(fromValue := d.toValue, toValue := d.fromValue,
       change := match d.change case Added => Removed case Removed => Added case Changed => Changed)
  }

  function ReverseAll(diff: seq<DiffEntry>): seq<DiffEntry> {
    seq(|diff|, i requires 0 <= i < |diff| => Reverse(diff[i]))
  }

  lemma CompareReverse(base: Flat, target: Flat, path: string)
    ensures CompareAt(target, base, path) == ReverseAll(CompareAt(base, target, path))
  {
    var c, back := CompareAt(base, target, path), CompareAt(target, base, path);
    assert |c| == |back|;
    assert forall i | 0 <= i < |c| :: back[i] == Reverse(c[i]);
  }

  lemma ReverseAppend(a: seq<DiffEntry>, b: seq<DiffEntry>)
    ensures ReverseAll(a + b) == ReverseAll(a) + ReverseAll(b)
    ensures ReverseAll([]) == []
  {}

  lemma {:induction false} DiffKeysReverse(base: Flat, target: Flat, keys: seq<string>)
    ensures DiffKeys(target, base, keys) == ReverseAll(DiffKeys(base, target, keys))
  {
    hide CompareAt, Reverse, ReverseAll;
    if keys == [] {
      ReverseAppend([], []);
    } else {
      DiffKeysReverse(base, target, keys[1..]);
      CompareReverse(base, target, keys[0]);
      ReverseAppend(CompareAt(base, target, keys[0]), DiffKeys(base, target, keys[1..]));
    }
  }

  /** Swapping the sides reverses every entry, in place; so the reversed diff takes the target back. */
  lemma DiffReverse(base: Flat, target: Flat)
    ensures DiffSpec(target, base) == ReverseAll(DiffSpec(base, target))
    ensures Patch(target, ReverseAll(DiffSpec(base, target))) == base
  {
    assert base.Keys + target.Keys == target.Keys + base.Keys;
    DiffKeysReverse(base, target, Sorted(base.Keys + target.Keys));
    PatchGivesTarget(target, base);
  }

  /* ---- summary ---- */

  function CountChange(diff: seq<DiffEntry>, c: Change): nat {
    if diff == [] then 0 else (if diff[|diff| - 1].change == c then 1 else 0) + CountChange(diff[..|diff| - 1], c)
  }

  function CountRisk(diff: seq<DiffEntry>, risk: string): nat {
    if diff == [] then 0 else (if diff[|diff| - 1].risk == risk then 1 else 0) + CountRisk(diff[..|diff| - 1], risk)
  }

  ghost function Total(counts: map<string, nat>): nat
    decreases |counts|
  {
    if counts == map[] then 0
    else var k :| k in counts; counts[k] + Total(counts - {k})
  }

  lemma {:induction false} TotalMinus(counts: map<string, nat>, k: string)
    requires k in counts
    ensures Total(counts) == counts[k] + Total(counts - {k})
    decreases |counts|
  {
    var x :| x in counts && Total(counts) == counts[x] + Total(counts - {x});
    if x != k {
      TotalMinus(counts - {x}, k);
      TotalMinus(counts - {k}, x);
      assert counts - {x} - {k} == counts - {k} - {x};
    }
  }

  lemma TotalUpdate(counts: map<string, nat>, k: string)
    ensures Total(counts[k := (if k in counts then counts[k] else 0) + 1]) == Total(counts) + 1
  {
    var next := counts[k := (if k in counts then counts[k] else 0) + 1];
    TotalMinus(next, k);
    if k in counts {
      TotalMinus(counts, k);
      assert next - {k} == counts - {k};
    } else {
      assert next - {k} == counts;
    }
  }

  /** `m` counts the entries of each risk level, and holds no others. */
  ghost predicate RiskTally(m: map<string, nat>, diff: seq<DiffEntry>) {
    forall r :: (r in m <==> CountRisk(diff, r) > 0) && (r in m ==> m[r] == CountRisk(diff, r))
  }

  ghost predicate ChangeTally(m: map<Change, nat>, diff: seq<DiffEntry>) {
    && m.Keys == {Added, Removed, Changed}
    && (forall c | c in m :: m[c] == CountChange(diff, c))
    && m[Added] + m[Removed] + m[Changed] == |diff|
  }

  function Bump<K>(m: map<K, nat>, k: K): map<K, nat> {
    m[k := (if k in m then m[k] else 0) + 1]
  }

  lemma RiskStep(m: map<string, nat>, diff: seq<DiffEntry>, d: DiffEntry)
    requires RiskTally(m, diff)
    ensures RiskTally(Bump(m, d.risk), diff + [d])
  {
    assert (diff + [d])[..|diff|] == diff;
  }

  lemma ChangeStep(m: map<Change, nat>, diff: seq<DiffEntry>, d: DiffEntry)
    requires ChangeTally(m, diff)
    ensures ChangeTally(Bump(m, d.change), diff + [d])
  {
    match d.change case Added => case Removed => case Changed =>
    assert (diff + [d])[..|diff|] == diff;
  }

  /** Change counts and risk counts are exact, and each sums to the length of the diff. */
  method Summarize(diff: seq<DiffEntry>) returns (counts: map<Change, nat>, riskCounts: map<string, nat>)
    ensures ChangeTally(counts, diff) && RiskTally(riskCounts, diff) && Total(riskCounts) == |diff|
  {
    hide ChangeTally, RiskTally, CountChange, CountRisk;
    counts, riskCounts := map[Added := 0, Removed := 0, Changed := 0], map[];
    TallyNone();
    for i := 0 to |diff|
      invariant ChangeTally(counts, diff[..i]) && RiskTally(riskCounts, diff[..i]) && Total(riskCounts) == i
    {
      var entry := diff[i];
      assert diff[..i + 1] == diff[..i] + [entry];
      ChangeStep(counts, diff[..i], entry);
      RiskStep(riskCounts, diff[..i], entry);
      TotalUpdate(riskCounts, entry.risk);
      counts := counts[entry.change := (if entry.change in counts then counts[entry.change] else 0) + 1];
      riskCounts := riskCounts[entry.risk := (if entry.risk in riskCounts then riskCounts[entry.risk] else 0) + 1];
    }
    assert diff[..|diff|] == diff;
  }

  lemma TallyNone()
    ensures ChangeTally(map[Added := 0, Removed := 0, Changed := 0], []) && RiskTally(map[], [])
  {}
}
