/** What equality of dictionaries, whatever their order, leaves unchanged. */
module YamlEqual {
  import opened Values
  import opened PyText
  import opened YamlReader
  import opened YamlWriter
  import opened YamlPrinted
  import opened YamlRoundTrip
  import opened YamlKeys
  import opened YamlHashes

  /* ---- both sides are dictionaries ---- */

  lemma {:induction false} LoadedIsValue(v: Value)
    requires LoadedItem(v)
    ensures IsValue(v)
    decreases v
  {
    hide PlainKey, OneLineString, IsItem;
    match v
    case List(items) => forall x | x in items ensures IsValue(x) { LoadedIsValue(x); }
    case Map(entries) =>
      forall e | e in entries ensures IsValue(e.value) {
        assert LoadedValue(e.value);
        LoadedIsValue(e.value);
      }
    case _ =>
  }

  lemma {:induction false} PrintableIsValue(v: Value)
    requires Printable(v)
    ensures IsValue(v)
    decreases v
  {
    match v
    case List(items) => forall x | x in items ensures IsValue(x) { PrintableIsValue(x); }
    case Map(entries) =>
      forall e | e in entries ensures IsValue(e.value) {
        assert PrintableEntry(e);
        PrintableIsValue(e.value);
      }
    case _ =>
  }

  /* ---- what a loaded value satisfies ---- */

  /** An entry of one of two equal dictionaries has its twin in the other. */
  lemma Twin(a: seq<Entry>, b: seq<Entry>, e: Entry) returns (x: Entry)
    requires DistinctKeys(b) && EqualDict(a, b) && e in b
    ensures x in a && x.key == e.key && EqualValue(x.value, e.value)
  {
    var i := IndexOf(a, e.key);
    assert Get(a, e.key).Some?;
    x := a[i];
    GetMember(b, e);
  }

  lemma {:induction false} EqualIsLoaded(v: Value, w: Value)
    requires EqualValue(v, w) && IsValue(w)
    ensures LoadedItem(v) ==> LoadedItem(w)
    ensures LoadedValue(v) ==> LoadedValue(w)
    decreases v
  {
    hide PlainKey, OneLineString, IsItem, Get, EqualDict;
    match v
    case List(items) =>
      if LoadedValue(v) {
        forall x | x in w.items ensures LoadedItem(x) {
          var i :| 0 <= i < |w.items| && w.items[i] == x;
          assert items[i] in items;
          EqualIsLoaded(items[i], w.items[i]);
        }
      }
    case Map(entries) =>
      forall e | e in w.entries
        ensures LoadedEntries(entries) ==> PlainKey(e.key) && LoadedValue(e.value)
        ensures NoItemKeys(entries) ==> !IsItem(e.key)
      {
        var x := Twin(entries, w.entries, e);
        EqualIsLoaded(x.value, e.value);
      }
    case _ =>
  }

  /** So no dictionary with a key that is untrimmed, broken over lines or holds a colon, or a string with a
      raw break, at any depth, survives the round trip, as it was or in another order. */
  lemma UnreadableKeyIsLost(entries: seq<Entry>)
    requires !LoadedValue(Map(entries))
    ensures LoadSpec(DumpSpec(entries)) != Doc(Map(entries))
    ensures IsDict(entries) ==> !Survives(entries)
  {
    hide LoadSpec, DumpSpec, LoadedValue, EqualValue;
    LoadedDocument(DumpSpec(entries));
    if IsDict(entries) && Survives(entries) { EqualIsLoaded(LoadSpec(DumpSpec(entries)).value, Map(entries)); }
  }

  /* ---- hashes ---- */

  lemma {:induction false} EntryHashesAt(entries: seq<Entry>, i: nat)
    requires i < |entries|
    ensures EntryHashes(entries) ==
            Hashes(entries[i].key) + ValueHashes(entries[i].value) + EntryHashes(entries[..i] + entries[i + 1..])
  {
    hide Hashes, ValueHashes;
    var rest := entries[..i] + entries[i + 1..];
    if i == 0 {
      assert rest == entries[1..];
    } else {
      EntryHashesAt(entries[1..], i - 1);
      assert rest[1..] == entries[1..][..i - 1] + entries[1..][i..];
    }
  }

  lemma GetWithout(entries: seq<Entry>, i: nat, key: string)
    requires DistinctKeys(entries) && i < |entries|
    ensures var rest := entries[..i] + entries[i + 1..];
            DistinctKeys(rest) && Get(rest, key) == if key == entries[i].key then None else Get(entries, key)
  {
    var rest := entries[..i] + entries[i + 1..];
    assert forall n | 0 <= n < |rest| :: rest[n] == entries[if n < i then n else n + 1];
    var k := IndexOf(entries, key);
    if k < |entries| && k != i {
      assert rest[if k < i then k else k - 1] == entries[k];
      GetMember(rest, entries[k]);
    }
  }

  lemma OtherEntry(entries: seq<Entry>, i: nat, e: Entry)
    requires DistinctKeys(entries) && i < |entries| && e in entries[..i] + entries[i + 1..]
    ensures e in entries && e.key != entries[i].key
  {
    var rest := entries[..i] + entries[i + 1..];
    var n :| 0 <= n < |rest| && rest[n] == e;
    assert e == entries[if n < i then n else n + 1];
  }

  /** Without the entry of one key, two equal dictionaries are still equal. */
  lemma EqualWithout(a: seq<Entry>, b: seq<Entry>, i: nat)
    requires a != [] && DistinctKeys(a) && DistinctKeys(b) && EqualDict(a, b) && i < |b| && b[i].key == a[0].key
    ensures EqualDict(a[1..], b[..i] + b[i + 1..])
  {
    hide EqualValue, Get, DistinctKeys;
    var rest := b[..i] + b[i + 1..];
    assert a[..0] + a[0 + 1..] == a[1..];
    forall e | e in a[1..] ensures Get(rest, e.key).Some? && EqualValue(e.value, Get(rest, e.key).value) {
      OtherEntry(a, 0, e);
      GetWithout(b, i, e.key);
    }
    forall e | e in rest ensures Get(a[1..], e.key).Some? {
      OtherEntry(b, i, e);
      GetWithout(a, 0, e.key);
    }
  }

  lemma NotEqualToNothing(b: seq<Entry>)
    requires b != []
    ensures !EqualDict([], b)
  {
    assert b[0] in b && Get([], b[0].key).None?;
  }

  lemma {:induction false} EqualHashes(v: Value, w: Value)
    requires EqualValue(v, w) && IsValue(v) && IsValue(w)
    ensures ValueHashes(v) == ValueHashes(w)
    decreases v, 0
  {
    match v
    case List(items) => EqualItemHashes(items, w.items);
    case Map(entries) => EqualEntryHashes(entries, w.entries);
    case _ =>
  }

  lemma {:induction false} EqualItemHashes(items: seq<Value>, others: seq<Value>)
    requires |items| == |others| && forall i | 0 <= i < |items| :: EqualValue(items[i], others[i])
    requires forall x | x in items :: IsValue(x)
    requires forall x | x in others :: IsValue(x)
    ensures ItemHashes(items) == ItemHashes(others)
    decreases items, 1
  {
    if items == [] {
    } else {
      EqualHashes(items[0], others[0]);
      EqualItemHashes(items[1..], others[1..]);
    }
  }

  lemma {:induction false} EqualEntryHashes(a: seq<Entry>, b: seq<Entry>)
    requires EqualDict(a, b) && IsDict(a) && IsDict(b)
    ensures EntryHashes(a) == EntryHashes(b)
    decreases a, 1
  {
    hide Hashes, ValueHashes, EqualValue;
    if a == [] {
      if b != [] { NotEqualToNothing(b); }
    } else {
      assert a[0] in a && Get(b, a[0].key).Some?;
      var i := IndexOf(b, a[0].key);
      EqualHashes(a[0].value, b[i].value);
      EntryHashesAt(b, i);
      EqualWithout(a, b, i);
      GetWithout(b, i, "");
      EqualEntryHashes(a[1..], b[..i] + b[i + 1..]);
    }
  }

  /* ---- a value equal to its image ---- */

  lemma ItemImageEqual(v: Value)
    ensures ItemImage(v).Some? && EqualValue(ItemImage(v).value, v) ==> FaithfulItem(v)
  {
    if v.Str? {
      EscapeIsIdentity(v.s);
      EscapeChars(v.s);
    }
  }

  lemma {:induction false} ItemsImageEqual(items: seq<Value>)
    requires ItemsImage(items).Some? && EqualValue(List(ItemsImage(items).value), List(items))
    ensures forall x | x in items :: FaithfulItem(x)
  {
    hide ItemImage, FaithfulItem;
    if items == [] {
    } else {
      ItemImageEqual(items[0]);
      var image := ItemsImage(items).value;
      assert EqualValue(image[0], items[0]);
      forall i | 0 <= i < |items[1..]| ensures EqualValue(image[1..][i], items[1..][i]) {
        assert EqualValue(image[i + 1], items[i + 1]);
      }
      ItemsImageEqual(items[1..]);
    }
  }

  lemma {:induction false} ImageAt(entries: seq<Entry>, i: nat)
    requires EntriesImage(entries).Some? && i < |entries|
    ensures var es := EntriesImage(entries).value;
            i < |es| && es[i].key == entries[i].key && EntryImage(entries[i].value) == Some(es[i].value)
  {
    hide EntryImage;
    if i == 0 {
    } else {
      ImageAt(entries[1..], i - 1);
    }
  }

  lemma {:induction false} EntryImageEqual(v: Value)
    requires IsValue(v) && EntryImage(v).Some? && EqualValue(EntryImage(v).value, v)
    ensures FaithfulEntry(v)
    decreases v, 0
  {
    if IsInline(v) {
      if v.Str? { EscapeIsIdentity(v.s); }
    } else {
      match v
      case List(items) => ItemsImageEqual(items);
      case Map(entries) => EntriesImageEqual(entries);
    }
  }

  /** The image keeps the order of the keys, so it is equal to the dictionary only entry by entry. */
  lemma {:induction false} EntriesImageEqual(entries: seq<Entry>)
    requires IsDict(entries) && EntriesImage(entries).Some? && EqualDict(EntriesImage(entries).value, entries)
    ensures forall e | e in entries :: FaithfulEntry(e.value)
    decreases entries, 1
  {
    hide EntryImage, EntriesImage, FaithfulEntry, EqualValue;
    var es := EntriesImage(entries).value;
    forall e | e in entries ensures FaithfulEntry(e.value) {
      var i :| 0 <= i < |entries| && entries[i] == e;
      ImageAt(entries, i);
      assert es[i] in es;
      GetMember(entries, e);
      EntryImageEqual(e.value);
    }
  }
}
