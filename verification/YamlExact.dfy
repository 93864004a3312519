/** The exact domain of the round trip, over every dictionary that can be printed. */
module YamlExact {
  import opened Values
  import opened PyText
  import opened YamlReader
  import opened YamlWriter
  import opened YamlPrinted
  import opened YamlRoundTrip
  import opened YamlKeys
  import opened YamlHashes
  import opened YamlEqual

  /* ---- a survivor's lines are its tokens ---- */

  /** Keys are plain and strings stay on their line, at every depth. */
  ghost predicate Inked(v: Value) { Printable(v) && LoadedItem(v) }

  lemma InkedInline(v: Value)
    requires Inked(v) && IsInline(v)
    ensures Scannable(v) && FieldText(InlineText(v))
  {
    hide FieldText, InlineText;
    if !v.Map? { assert LoadedValue(v); }
    InlineShape(v);
  }

  lemma InkedEntry(entries: seq<Entry>, e: Entry)
    requires Inked(Map(entries)) && e in entries
    ensures PlainKey(e.key) && Inked(e.value)
  {
    hide PlainKey;
    assert PrintableEntry(e);
    assert LoadedEntries(entries);
    assert LoadedValue(e.value);
  }

  lemma InkedItem(items: seq<Value>, v: Value)
    requires Inked(List(items)) && v in items
    ensures Inked(v)
  {
    assert LoadedValue(List(items));
  }

  /** A whole line, from what it is made of. */
  lemma LineWhole(head: string, text: string, indent: nat)
    requires OneLine(head) && OneLine(text)
    ensures OneLine(Render(Line(indent, head + text)))
  {
    SpacesOneLine(indent);
  }

  lemma {:induction false} InkedWhole(v: Value, indent: nat)
    requires Inked(v) && !IsInline(v)
    ensures forall l | l in Layout(v, indent) :: OneLine(Render(l))
    decreases v, 0
  {
    match v
    case Map(entries) =>
      forall e | e in entries ensures PlainKey(e.key) && Inked(e.value) { InkedEntry(entries, e); }
      EntriesWhole(entries, indent);
    case List(items) =>
      forall x | x in items ensures Inked(x) { InkedItem(items, x); }
      ItemsWhole(items, indent);
  }

  lemma {:induction false} EntriesWhole(entries: seq<Entry>, indent: nat)
    requires forall e | e in entries :: PlainKey(e.key) && Inked(e.value)
    ensures forall l | l in EntriesLayout(entries, indent) :: OneLine(Render(l))
    decreases entries, 0
  {
    hide OneLine, Layout, InlineText, Inked, Trimmed;
    if entries == [] {
    } else {
      var e := entries[0];
      EntriesWhole(entries[1..], indent);
      HeadStart(e.key, ":");
      HeadStart(e.key, ": ");
      EmptyOneLine();
      if IsInline(e.value) {
        InkedInline(e.value);
        LineWhole(e.key + ": ", InlineText(e.value), indent);
        FieldOneLine(InlineText(e.value));
      } else {
        LineWhole(e.key + ":", "", indent);
        assert e.key + ":" + "" == e.key + ":";
        InkedWhole(e.value, indent + 2);
      }
    }
  }

  lemma FieldOneLine(t: string)
    requires FieldText(t)
    ensures OneLine(t) && Trimmed(t) && t != "" && t != "|"
  {}

  lemma DashOneLine()
    ensures OneLine("-") && OneLine("- ")
  {}

  lemma {:induction false} ItemsWhole(items: seq<Value>, indent: nat)
    requires forall x | x in items :: Inked(x)
    ensures forall l | l in ItemsLayout(items, indent) :: OneLine(Render(l))
    decreases items, 0
  {
    hide OneLine, Layout, InlineText, Inked;
    if items == [] {
    } else {
      var v := items[0];
      ItemsWhole(items[1..], indent);
      DashOneLine();
      EmptyOneLine();
      if IsInline(v) {
        InkedInline(v);
        FieldOneLine(InlineText(v));
        LineWhole("- ", InlineText(v), indent);
      } else {
        LineWhole("-", "", indent);
        assert "-" + "" == "-";
        InkedWhole(v, indent + 2);
      }
    }
  }

  /** Inked and free of comments on every line: scannable. */
  lemma {:induction false} ScannableFromLines(v: Value, indent: nat)
    requires Inked(v) && forall l | l in Layout(v, indent) :: NoComment(l.content)
    ensures Scannable(v)
    decreases v, 0
  {
    if IsInline(v) {
      InkedInline(v);
    } else {
      match v
      case Map(entries) =>
        forall e | e in entries ensures PlainKey(e.key) && Inked(e.value) { InkedEntry(entries, e); }
        EntriesFromLines(entries, indent);
      case List(items) =>
        forall x | x in items ensures Inked(x) { InkedItem(items, x); }
        ItemsFromLines(items, indent);
    }
  }

  lemma {:induction false} EntriesFromLines(entries: seq<Entry>, indent: nat)
    requires forall e | e in entries :: PlainKey(e.key) && Inked(e.value)
    requires forall l | l in EntriesLayout(entries, indent) :: NoComment(l.content)
    ensures forall e | e in entries :: ScannableEntry(e)
    decreases entries, 0
  {
    hide NoComment, Layout, InlineText, Inked, PlainKey;
    if entries == [] {
    } else {
      var e := entries[0];
      var printed, rest := EntryLayout(e, indent), EntriesLayout(entries[1..], indent);
      assert forall l | l in rest :: l in EntriesLayout(entries, indent);
      assert forall l | l in printed :: l in EntriesLayout(entries, indent);
      EntriesFromLines(entries[1..], indent);
      assert printed[0] in printed;
      if IsInline(e.value) {
        InkedInline(e.value);
        assert e.key + (": " + InlineText(e.value)) == e.key + ": " + InlineText(e.value);
      } else {
        assert printed[1..] == Layout(e.value, indent + 2);
        ScannableFromLines(e.value, indent + 2);
      }
      assert ScannableEntry(e);
    }
  }

  lemma {:induction false} ItemsFromLines(items: seq<Value>, indent: nat)
    requires forall x | x in items :: Inked(x)
    requires forall l | l in ItemsLayout(items, indent) :: NoComment(l.content)
    ensures Scannable(List(items))
    decreases items, 0
  {
    hide NoComment, Layout, InlineText, Inked;
    if items == [] {
    } else {
      var v := items[0];
      var printed, rest := ItemLayout(v, indent), ItemsLayout(items[1..], indent);
      assert forall l | l in rest :: l in ItemsLayout(items, indent);
      assert forall l | l in printed :: l in ItemsLayout(items, indent);
      ItemsFromLines(items[1..], indent);
      assert printed[0] in printed;
      if IsInline(v) {
        InkedInline(v);
      } else {
        assert printed[1..] == Layout(v, indent + 2);
        ScannableFromLines(v, indent + 2);
      }
      assert Scannable(List(items[1..]));
    }
  }

  /** A survivor has what every loaded document has, and no more hashes than its document. */
  lemma SurvivorIsLoaded(entries: seq<Entry>)
    requires Printable(Map(entries)) && Survives(entries)
    ensures LoadedValue(Map(entries))
    ensures LoadSpec(DumpSpec(entries)).value.Map?
    ensures ValueHashes(LoadSpec(DumpSpec(entries)).value) == ValueHashes(Map(entries))
  {
    hide LoadSpec, DumpSpec, Printable, ValueHashes;
    var d := LoadSpec(DumpSpec(entries)).value;
    LoadedDocument(DumpSpec(entries));
    PrintableIsValue(Map(entries));
    EqualIsLoaded(d, Map(entries));
    assert LoadedItem(d) by { LoadedMapIsItem(d); }
    LoadedIsValue(d);
    EqualHashes(d, Map(entries));
  }

  lemma LoadedMapIsItem(v: Value)
    requires LoadedValue(v)
    ensures LoadedItem(v)
  {}

  /** A dictionary that survives the round trip lost no comment on any line of its text. */
  lemma SurvivorKeepsComments(entries: seq<Entry>, k: nat)
    requires Printable(Map(entries)) && k < |SplitLines(DumpSpec(entries))|
    ensures Survives(entries) ==> NoComment(SplitLines(DumpSpec(entries))[k])
  {
    hide Hashes, EntryHashes, MappingFrom, DumpSpec, Printable, SplitLines, TokensSpec, LineHashes, TextHashes,
         NoComment, LoadedValue, EqualValue;
    if Survives(entries) {
      var text := DumpSpec(entries);
      var raws := SplitLines(text);
      var lines := TokensSpec(raws);
      SurvivorIsLoaded(entries);
      DumpHashes(entries);
      SplitLinesHashes(text);
      TokensKeep(raws, k);
      MappingKeeps(lines, 0, lines[0].indent, []);
      NothingHashed();
      assert lines[0..|lines|] == lines;
    }
  }

  lemma SurvivorScannable(entries: seq<Entry>)
    requires entries != [] && Printable(Map(entries))
    ensures Survives(entries) ==> Scannable(Map(entries))
  {
    hide Scannable, Printable, LoadedEntries, NoItemKeys, NoComment, OneLine, SplitLines, Survives, EntriesLayout, Join;
    if Survives(entries) {
      var lines := Layout(Map(entries), 0);
      SurvivorIsLoaded(entries);
      InkedWhole(Map(entries), 0);
      FirstLine(Map(entries), 0);
      forall raw | raw in Rendered(lines) ensures OneLine(raw) {
        var i :| 0 <= i < |lines| && raw == Render(lines[i]);
      }
      SplitJoined(Rendered(lines));
      forall l | l in lines ensures NoComment(l.content) {
        var k :| 0 <= k < |lines| && lines[k] == l;
        SurvivorKeepsComments(entries, k);
        CommentFree(l);
      }
      ScannableFromLines(Map(entries), 0);
    }
  }

  lemma CommentFree(l: Line)
    requires NoComment(Render(l))
    ensures NoComment(l.content)
  {
    CutIndented(l.indent, l.content);
  }

  /* ---- no parse gets past a bare dash ---- */

  ghost predicate NoBlockHeader(l: Line) {
    match SplitKeyValue(l.content)
    case Some((_, Some(token))) => token != "|"
    case _ => true
  }

  ghost predicate NoBlocks(lines: seq<Line>) { forall k | 0 <= k < |lines| :: NoBlockHeader(lines[k]) }

  ghost predicate NoDash(lines: seq<Line>, i: nat, j: nat)
    requires j <= |lines|
  {
    forall k :: i <= k < j ==> lines[k].content != "-"
  }

  lemma {:induction false} EntryNoDash(lines: seq<Line>, i: nat, indent: nat)
    requires i < |lines| && NoBlocks(lines)
    ensures var r := EntryAt(lines, i, indent); r.Ok? ==> NoDash(lines, i, r.next)
    decreases |lines| - i, 0
  {
    hide ChildAt, ParseScalar, BlockText, BlockEnd, SplitKeyValue, IsItem;
    assert NoBlockHeader(lines[i]);
    if lines[i].content == "-" { BareDash(lines, i, indent); }
    if i + 1 < |lines| { ChildNoDash(lines, i + 1); }
  }

  lemma {:induction false} MappingNoDash(lines: seq<Line>, i: nat, indent: nat, acc: seq<Entry>)
    requires i <= |lines| && NoBlocks(lines)
    ensures var r := MappingFrom(lines, i, indent, acc); r.Ok? ==> NoDash(lines, i, r.next)
    decreases |lines| - i, 1
  {
    hide EntryAt, Put, NoBlocks;
    if i < |lines| && lines[i].indent >= indent {
      EntryNoDash(lines, i, indent);
      var e := EntryAt(lines, i, indent);
      if e.Ok? { MappingNoDash(lines, e.next, indent, Put(acc, e.value.key, e.value.value)); }
    }
  }

  lemma {:induction false} ItemNoDash(lines: seq<Line>, i: nat, indent: nat)
    requires i < |lines| && NoBlocks(lines)
    ensures var r := ItemAt(lines, i, indent); r.Ok? ==> NoDash(lines, i, r.next)
    decreases |lines| - i, 0
  {
    hide ChildAt, MappingFrom, ParseScalar, InlineEntry, PutAll, Strip, NoBlocks;
    if lines[i].content == "-" { BareDash(lines, i, indent); }
    if i + 1 < |lines| {
      ChildNoDash(lines, i + 1);
      MappingNoDash(lines, i + 1, lines[i + 1].indent, []);
    }
  }

  lemma {:induction false} ListNoDash(lines: seq<Line>, i: nat, indent: nat, acc: seq<Value>)
    requires i <= |lines| && NoBlocks(lines)
    ensures var r := ListFrom(lines, i, indent, acc); r.Ok? ==> NoDash(lines, i, r.next)
    decreases |lines| - i, 1
  {
    hide ItemAt, NoBlocks;
    if i < |lines| && lines[i].indent >= indent {
      ItemNoDash(lines, i, indent);
      var x := ItemAt(lines, i, indent);
      if x.Ok? { ListNoDash(lines, x.next, indent, acc + [x.value]); }
    }
  }

  lemma {:induction false} ChildNoDash(lines: seq<Line>, i: nat)
    requires i < |lines| && NoBlocks(lines)
    ensures var r := ChildAt(lines, i); r.Ok? ==> NoDash(lines, i, r.next)
    decreases |lines| - i, 2
  {
    hide ListFrom, MappingFrom, NoBlocks;
    ListNoDash(lines, i, lines[i].indent, []);
    MappingNoDash(lines, i, lines[i].indent, []);
  }

  /* ---- printed lines open no block ---- */

  /** A quoted item with a colon splits into a key and a value that ends in the quote. */
  lemma ItemIsNoBlock(v: Value, indent: nat)
    requires Scannable(v) && IsInline(v)
    ensures NoBlockHeader(Line(indent, "- " + InlineText(v)))
  {
    hide IsSpace, LStrip, RStrip, Escape;
    var text := InlineText(v);
    var content := "- " + text;
    var n := Find(content, ':');
    InlineShape(v);
    if n < |content| {
      assert v.Str? && content[|content| - 1] == '"';
      var x := content[n + 1..];
      assert x[|x| - 1] == '"';
      QuoteEnds(x);
    }
  }

  lemma QuoteEnds(x: string)
    requires x != "" && x[|x| - 1] == '"'
    ensures Strip(x) != "" && Strip(x) != "|"
  {
    assert RStrip(x) == x;
  }

  lemma {:induction false} LayoutNoBlocks(v: Value, indent: nat)
    requires Scannable(v) && !IsInline(v)
    ensures forall l | l in Layout(v, indent) :: NoBlockHeader(l)
    decreases v, 0
  {
    match v
    case Map(entries) => EntriesNoBlocks(entries, indent);
    case List(items) => ItemsNoBlocks(items, indent);
  }

  lemma {:induction false} EntriesNoBlocks(entries: seq<Entry>, indent: nat)
    requires forall e | e in entries :: ScannableEntry(e)
    ensures forall l | l in EntriesLayout(entries, indent) :: NoBlockHeader(l)
    decreases entries, 0
  {
    hide Layout, InlineText, SplitKeyValue, NoComment, Trimmed, OneLine;
    if entries == [] {
    } else {
      var e := entries[0];
      EntriesNoBlocks(entries[1..], indent);
      assert ScannableEntry(e);
      if IsInline(e.value) {
        assert Scannable(e.value);
        InlineShape(e.value);
        SplitField(e.key, InlineText(e.value));
      } else {
        SplitHeader(e.key);
        LayoutNoBlocks(e.value, indent + 2);
      }
    }
  }

  lemma DashIsNoBlock(indent: nat)
    ensures NoBlockHeader(Line(indent, "-"))
  {
    assert Find("-", ':') == 1;
  }

  lemma {:induction false} ItemsNoBlocks(items: seq<Value>, indent: nat)
    requires Scannable(List(items))
    ensures forall l | l in ItemsLayout(items, indent) :: NoBlockHeader(l)
    decreases items, 0
  {
    hide Layout, InlineText, NoBlockHeader, NoComment;
    if items == [] {
    } else {
      assert Scannable(List(items[1..]));
      ItemsNoBlocks(items[1..], indent);
      if IsInline(items[0]) {
        ItemIsNoBlock(items[0], indent);
      } else {
        DashIsNoBlock(indent);
        LayoutNoBlocks(items[0], indent + 2);
      }
    }
  }

  /* ---- so a survivor has no key like a list item ---- */

  lemma {:induction false} FreeFromLines(v: Value, indent: nat)
    requires LoadedValue(v) && forall l | l in Layout(v, indent) :: l.content != "-"
    ensures ItemFree(v)
    decreases v, 0
  {
    hide PlainKey, IsItem;
    if !IsInline(v) {
      match v
      case Map(entries) =>
        forall e | e in entries ensures LoadedValue(e.value) && !IsItem(e.key) {}
        EntriesFree(entries, indent);
      case List(items) =>
        ItemsInline(items, indent);
        assert forall x | x in items :: ItemFree(x);
    }
  }

  lemma {:induction false} EntriesFree(entries: seq<Entry>, indent: nat)
    requires forall e | e in entries :: LoadedValue(e.value) && !IsItem(e.key)
    requires forall l | l in EntriesLayout(entries, indent) :: l.content != "-"
    ensures forall e | e in entries :: ItemFreeEntry(e)
    decreases entries, 0
  {
    hide Layout, InlineText, LoadedValue, IsItem;
    if entries == [] {
    } else {
      var e := entries[0];
      var printed, rest := EntryLayout(e, indent), EntriesLayout(entries[1..], indent);
      assert forall l | l in rest :: l in EntriesLayout(entries, indent);
      assert forall l | l in printed :: l in EntriesLayout(entries, indent);
      EntriesFree(entries[1..], indent);
      if !IsInline(e.value) {
        assert printed[1..] == Layout(e.value, indent + 2);
        FreeFromLines(e.value, indent + 2);
      }
      assert ItemFreeEntry(e);
    }
  }

  lemma {:induction false} ItemsInline(items: seq<Value>, indent: nat)
    requires forall l | l in ItemsLayout(items, indent) :: l.content != "-"
    ensures forall x | x in items :: IsInline(x)
    decreases items, 0
  {
    if items == [] {
    } else {
      var printed, rest := ItemLayout(items[0], indent), ItemsLayout(items[1..], indent);
      assert forall l | l in rest :: l in ItemsLayout(items, indent);
      assert printed[0] in ItemsLayout(items, indent);
      ItemsInline(items[1..], indent);
    }
  }

  lemma SurvivorReadable(entries: seq<Entry>)
    requires entries != [] && Printable(Map(entries))
    ensures Survives(entries) ==> Readable(Map(entries))
  {
    hide Scannable, ItemFree, Printable, LoadedEntries, NoItemKeys, NoBlockHeader, KeptLines, MappingFrom,
         EntriesLayout, SplitLines, TokensSpec, Join, EqualValue;
    if Survives(entries) {
      var lines := Layout(Map(entries), 0);
      SurvivorScannable(entries);
      LayoutKept(Map(entries), 0);
      FirstLine(Map(entries), 0);
      DumpTokens(lines);
      LayoutNoBlocks(Map(entries), 0);
      SurvivorIsLoaded(entries);
      MappingNoDash(lines, 0, lines[0].indent, []);
      FreeFromLines(Map(entries), 0);
    }
  }

  /** What comes back equal comes back unchanged. */
  lemma SurvivorIsFaithful(entries: seq<Entry>)
    requires Readable(Map(entries)) && Printable(Map(entries)) && Survives(entries)
    ensures forall e | e in entries :: FaithfulEntry(e.value)
  {
    hide LoadSpec, DumpSpec, Readable, Printable, FaithfulEntry, EntriesImage;
    PrintableIsValue(Map(entries));
    LoadOfDump(entries);
    EntriesImageEqual(entries);
  }

  /** For every dictionary: it survives the round trip exactly when it is not empty, its keys are trimmed, on
      one line, without colon and not like a list item, no printed line holds a comment or a raw break, no
      string needs a JSON escape, no list string holds a colon, and no list holds a non-empty container. And
      what comes back equal, whatever its order, comes back in the order it had. */
  lemma RoundTripExactly(entries: seq<Entry>)
    requires Printable(Map(entries))
    ensures Survives(entries)
            <==> entries != [] && Readable(Map(entries)) && forall e | e in entries :: FaithfulEntry(e.value)
    ensures Survives(entries) <==> LoadSpec(DumpSpec(entries)) == Doc(Map(entries))
  {
    hide LoadSpec, DumpSpec, Readable, Printable, FaithfulEntry;
    PrintableIsValue(Map(entries));
    EqualToItself(Map(entries));
    if entries == [] {
      EmptyDocument();
    } else {
      SurvivorReadable(entries);
      if Readable(Map(entries)) {
        RoundTrip(entries);
        if Survives(entries) { SurvivorIsFaithful(entries); }
      }
    }
  }

  /* ---- the domain the printer is used on ---- */

  predicate SimpleString(s: string) { forall c | c in s :: c != '"' && c != '\\' && c >= ' ' && !IsBreak(c) }

  predicate SimpleKey(key: string) { PlainKey(key) && !IsItem(key) && NoQuotes(key) && HashesInside(key) }

  predicate SimpleItem(v: Value) {
    IsInline(v) && (v.Str? ==> SimpleString(v.s) && ':' !in v.s) && (v.Float? ==> IsFloatLiteral(v.literal))
  }

  /** Nested mappings, lists of scalars or empty containers, and scalars, with strings that need no escape. */
  ghost predicate Simple(v: Value)
    decreases v, 0
  {
    match v
    case Str(s) => SimpleString(s)
    case Float(literal) => IsFloatLiteral(literal)
    case List(items) => forall x | x in items :: SimpleItem(x)
    case Map(entries) => DistinctKeys(entries) && forall e | e in entries :: SimpleEntry(e)
    case _ => true
  }

  ghost predicate SimpleEntry(e: Entry)
    decreases e, 1
  {
    SimpleKey(e.key) && Simple(e.value)
  }

  lemma SimpleLine(key: string, v: Value)
    requires SimpleKey(key) && IsInline(v) && Scannable(v) && (v.Str? ==> '"' !in v.s)
    ensures NoComment(key + ": " + InlineText(v)) && NoComment(key + ":")
  {
    hide IsSpace, InlineText;
    PlainLineHasNoComment(key + ": ", v);
    CutPlain(key + ":", 0, |key + ":"|);
  }

  lemma SimpleItemHolds(v: Value)
    requires SimpleItem(v)
    ensures IsInline(v) && Scannable(v) && ItemFree(v) && NoComment("- " + InlineText(v)) && FaithfulItem(v)
  {
    hide InlineText, IsBreak, IsFloatLiteral;
    PlainLineHasNoComment("- ", v);
  }

  lemma {:induction false} SimpleHolds(v: Value)
    requires Simple(v)
    ensures Readable(v) && FaithfulEntry(v) && Printable(v)
    decreases v, 0
  {
    hide InlineText, IsFloatLiteral, SimpleItem, NoComment;
    match v
    case List(items) =>
      forall x | x in items ensures IsInline(x) && Scannable(x) && ItemFree(x) && NoComment("- " + InlineText(x))
        && FaithfulItem(x) && Printable(x) {
        SimpleItemHolds(x);
        ItemPrintable(x);
      }
    case Map(entries) =>
      forall e | e in entries ensures ReadableEntry(e) && FaithfulEntry(e.value)
        && PrintableEntry(e) { SimpleEntryHolds(e); }
    case _ =>
  }

  lemma ItemPrintable(v: Value)
    requires SimpleItem(v)
    ensures Printable(v)
  {}

  lemma {:induction false} SimpleEntryHolds(e: Entry)
    requires SimpleEntry(e)
    ensures ReadableEntry(e) && FaithfulEntry(e.value) && PrintableEntry(e)
    decreases e, 1
  {
    hide InlineText, PlainKey, NoQuotes, HashesInside, IsItem;
    SimpleHolds(e.value);
    if IsInline(e.value) {
      assert e.value.Str? ==> SimpleString(e.value.s);
      SimpleLine(e.key, e.value);
      assert e.key + (": " + InlineText(e.value)) == e.key + ": " + InlineText(e.value);
    } else {
      SimpleLine(e.key, Null);
    }
  }

  /** Every non-empty simple dictionary survives. */
  lemma SimpleSurvives(entries: seq<Entry>)
    requires entries != [] && Simple(Map(entries))
    ensures LoadSpec(DumpSpec(entries)) == Doc(Map(entries))
  {
    hide Readable, Printable, LoadSpec, DumpSpec;
    SimpleHolds(Map(entries));
    RoundTripExactly(entries);
  }
}
