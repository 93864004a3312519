/** What `safe_load(_yaml_dump_text(v))` is, exactly, and when it is `v`. */
module YamlRoundTrip {
  import opened Values
  import opened PyText
  import opened YamlReader
  import opened YamlWriter
  import opened YamlPrinted

  /** The printed lines stand at `i`, and nothing deeper than `indent` follows them. */
  ghost predicate StandsAt(lines: seq<Line>, i: nat, printed: seq<Line>, indent: nat) {
    && i + |printed| <= |lines|
    && (forall k {:trigger printed[k]} :: 0 <= k < |printed| ==> lines[i + k] == printed[k])
    && (i + |printed| < |lines| ==> lines[i + |printed|].indent <= indent)
  }

  lemma StandsHead(lines: seq<Line>, i: nat, head: seq<Line>, tail: seq<Line>, indent: nat)
    requires StandsAt(lines, i, head + tail, indent)
    requires tail != [] ==> tail[0].indent <= indent
    ensures StandsAt(lines, i, head, indent) && StandsAt(lines, i + |head|, tail, indent)
  {
    var all := head + tail;
    assert forall k :: 0 <= k < |head| ==> all[k] == head[k];
    assert forall k :: 0 <= k < |tail| ==> all[|head| + k] == tail[k];
  }

  /** The first printed line of a container is at its own indent. */
  lemma FirstLine(v: Value, indent: nat)
    requires !IsInline(v)
    ensures Layout(v, indent) != [] && Layout(v, indent)[0].indent == indent
  {
    match v
    case Map(entries) => EntriesFirstLine(entries, indent);
    case List(items) => ItemsFirstLine(items, indent);
  }

  lemma EntriesFirstLine(entries: seq<Entry>, indent: nat)
    requires entries != []
    ensures var l := EntriesLayout(entries, indent);
            && l != [] && l[0].indent == indent
            && l[0].content ==
               entries[0].key + if IsInline(entries[0].value) then ": " + InlineText(entries[0].value) else ":"
  {
    assert EntryLayout(entries[0], indent) <= EntriesLayout(entries, indent);
  }

  lemma ItemsFirstLine(items: seq<Value>, indent: nat)
    requires items != []
    ensures var l := ItemsLayout(items, indent);
            && l != [] && l[0].indent == indent
            && l[0].content == if IsInline(items[0]) then "- " + InlineText(items[0]) else "-"
  {
    assert ItemLayout(items[0], indent) <= ItemsLayout(items, indent);
  }

  /* ---- splitting one line ---- */

  lemma StripBlank(text: string)
    requires text != "" && Trimmed(text)
    ensures Strip(" " + text) == text
  {
    assert (" " + text)[1..] == text;
    assert RStrip(" " + text) == " " + text;
    assert LStrip(" " + text) == LStrip(text) == text;
  }

  lemma SplitField(key: string, text: string)
    requires Trimmed(key) && ':' !in key && FieldText(text)
    ensures SplitKeyValue(key + ": " + text) == Some((key, Some(text)))
  {
    hide Strip, LStrip, RStrip, IsSpace, OneLine, Find;
    var content := key + ": " + text;
    FindIs(content, ':', |key|);
    assert content[..|key|] == key;
    assert content[|key| + 1..] == " " + text;
    StripBlank(text);
  }

  lemma SplitHeader(key: string)
    requires Trimmed(key) && ':' !in key
    ensures SplitKeyValue(key + ":") == Some((key, None))
  {
    var content := key + ":";
    FindIs(content, ':', |key|);
    assert content[..|key|] == key && content[|key| + 1..] == "";
  }

  lemma KeyIsNotItem(key: string, tail: string)
    requires !IsItem(key) && tail != "" && tail[0] == ':'
    ensures !IsItem(key + tail)
  {
    var content := key + tail;
    if |key| == 0 {
      assert content[0] == ':';
    } else if |key| == 1 {
      assert content[1] == ':';
    } else {
      assert content[..2] == key[..2];
      assert IsItem(content) <==> content[..2] == "- ";
    }
  }

  /* ---- one turn of each loop ---- */

  lemma EntryAtInline(lines: seq<Line>, i: nat, indent: nat, key: string, text: string)
    requires i < |lines| && lines[i].indent == indent && !IsItem(lines[i].content)
    requires SplitKeyValue(lines[i].content) == Some((key, Some(text))) && text != "|"
    ensures EntryAt(lines, i, indent) == Ok(Entry(key, ParseScalar(text)), i + 1)
  {}

  lemma EntryAtHeader(lines: seq<Line>, i: nat, indent: nat, key: string)
    requires i + 1 < |lines| && lines[i] == Line(indent, key + ":") && lines[i + 1].indent > indent
    requires PlainKey(key) && !IsItem(key)
    ensures EntryAt(lines, i, indent) ==
            match ChildAt(lines, i + 1) case Err(e) => Err(e) case Ok(child, next) => Ok(Entry(key, child), next)
  {
    SplitHeader(key);
    KeyIsNotItem(key, ":");
  }

  lemma ItemAtInline(lines: seq<Line>, i: nat, indent: nat, text: string)
    requires i < |lines| && lines[i] == Line(indent, "- " + text)
    requires i + 1 < |lines| ==> lines[i + 1].indent <= indent
    requires FieldText(text)
    ensures ItemAt(lines, i, indent) == Ok(if ':' in text then Map(InlineEntry(text)) else ParseScalar(text), i + 1)
  {
    assert ("- " + text)[2..] == text;
  }

  /** A bare dash, as printed before a container inside a list, is neither an item nor an entry. */
  lemma BareDash(lines: seq<Line>, i: nat, indent: nat)
    requires i < |lines| && lines[i].content == "-"
    ensures ItemAt(lines, i, indent).Err? && EntryAt(lines, i, indent).Err?
  {
    assert Find("-", ':') == 1;
  }

  lemma PutNew(acc: seq<Entry>, key: string, v: Value)
    requires forall a | a in acc :: a.key != key
    ensures Put(acc, key, v) == acc + [Entry(key, v)]
  {
    assert forall k :: 0 <= k < |acc| ==> acc[k].key != key;
  }

  /** Nothing at `indent` or deeper stands at `end`. */
  ghost predicate Closed(lines: seq<Line>, end: nat, indent: nat) {
    end < |lines| ==> lines[end].indent < indent
  }

  lemma LoopsEnd(lines: seq<Line>, i: nat, indent: nat, entries: seq<Entry>, items: seq<Value>)
    requires i <= |lines| && Closed(lines, i, indent)
    ensures MappingFrom(lines, i, indent, entries) == Ok(entries, i)
    ensures ListFrom(lines, i, indent, items) == Ok(items, i)
  {}

  lemma MappingStep(lines: seq<Line>, i: nat, indent: nat, acc: seq<Entry>)
    requires i < |lines| && lines[i].indent == indent
    ensures var (e, r) := (EntryAt(lines, i, indent), MappingFrom(lines, i, indent, acc));
            if e.Err? then r == Err(e.error)
            else e.next <= |lines| && r == MappingFrom(lines, e.next, indent, Put(acc, e.value.key, e.value.value))
  {}

  lemma ListStep(lines: seq<Line>, i: nat, indent: nat, acc: seq<Value>)
    requires i < |lines| && lines[i].indent == indent
    ensures var (x, r) := (ItemAt(lines, i, indent), ListFrom(lines, i, indent, acc));
            if x.Err? then r == Err(x.error)
            else x.next <= |lines| && r == ListFrom(lines, x.next, indent, acc + [x.value])
  {}

  lemma AppendOne<T>(acc: seq<T>, x: T, xs: seq<T>)
    ensures acc + [x] + xs == acc + ([x] + xs)
  {}

  /* ---- reading the layout back ---- */

  lemma ReadInlineEntry(lines: seq<Line>, i: nat, indent: nat, e: Entry)
    requires ReadableEntry(e) && IsInline(e.value)
    requires i < |lines| && lines[i] == Line(indent, e.key + ": " + InlineText(e.value))
    ensures EntryAt(lines, i, indent) == Ok(Entry(e.key, InlineImage(e.value)), i + 1)
  {
    hide EntryAt, ChildAt, InlineText, Quote, ParseScalar, OneLine, SplitKeyValue, IsItem, Trimmed;
    assert Scannable(e.value);
    InlineShape(e.value);
    InlineReadsBack(e.value);
    SplitField(e.key, InlineText(e.value));
    KeyIsNotItem(e.key, ": " + InlineText(e.value));
    assert e.key + (": " + InlineText(e.value)) == e.key + ": " + InlineText(e.value);
    EntryAtInline(lines, i, indent, e.key, InlineText(e.value));
  }

  /** One printed entry: the mapping loop reads its image and stops after it. */
  lemma {:induction false} ReadEntryBack(lines: seq<Line>, i: nat, indent: nat, e: Entry)
    requires ReadableEntry(e)
    requires StandsAt(lines, i, EntryLayout(e, indent), indent)
    ensures i < |lines| && lines[i].indent == indent
    ensures var r := EntryAt(lines, i, indent);
            match EntryImage(e.value)
            case Some(v) => r == Ok(Entry(e.key, v), i + |EntryLayout(e, indent)|)
            case None => r.Err?
    decreases e, 1
  {
    hide EntryAt, ChildAt, InlineText, Quote, ParseScalar, OneLine, NoComment;
    var printed := EntryLayout(e, indent);
    assert lines[i] == printed[0];
    if IsInline(e.value) {
      ReadInlineEntry(lines, i, indent, e);
    } else {
      hide Layout;
      var inner := Layout(e.value, indent + 2);
      FirstLine(e.value, indent + 2);
      assert printed == [printed[0]] + inner;
      StandsTail(lines, i, printed[0], inner, indent);
      ReadChildBack(lines, i + 1, indent, e.value);
      EntryAtHeader(lines, i, indent, e.key);
    }
  }

  lemma StandsTail(lines: seq<Line>, i: nat, first: Line, inner: seq<Line>, indent: nat)
    requires StandsAt(lines, i, [first] + inner, indent)
    ensures StandsAt(lines, i + 1, inner, indent)
  {
    assert forall k :: 0 <= k < |inner| ==> ([first] + inner)[k + 1] == inner[k];
  }

  lemma {:induction false} ReadChildBack(lines: seq<Line>, i: nat, indent: nat, v: Value)
    requires Readable(v) && !IsInline(v)
    requires StandsAt(lines, i, Layout(v, indent + 2), indent)
    ensures i < |lines| && lines[i].indent == indent + 2
    ensures var r := ChildAt(lines, i);
            match EntryImage(v)
            case Some(image) => r == Ok(image, i + |Layout(v, indent + 2)|)
            case None => r.Err?
    decreases v, 2
  {
    hide EntryAt, MappingFrom, ItemAt, ListFrom, EntriesLayout, ItemsLayout, EntriesImage, ItemsImage, InlineText,
         PlainKey;
    FirstLine(v, indent + 2);
    assert lines[i] == Layout(v, indent + 2)[0];
    if v.Map? {
      var e := v.entries[0];
      EntriesFirstLine(v.entries, indent + 2);
      assert ReadableEntry(e);
      FirstEntryIsNotItem(e);
      ReadEntriesBack(lines, i, indent + 2, v.entries, []);
      if EntriesImage(v.entries).Some? { PutAllFresh(v.entries, EntriesImage(v.entries).value); }
    } else {
      ItemsFirstLine(v.items, indent + 2);
      if IsInline(v.items[0]) {
        ReadItemsBack(lines, i, indent + 2, v.items, []);
        assert ItemsImage(v.items).Some? ==> [] + ItemsImage(v.items).value == ItemsImage(v.items).value;
      } else {
        DashChild(lines, i);
        NoImage(v.items);
      }
    }
  }

  lemma NoImage(items: seq<Value>)
    requires items != [] && !IsInline(items[0])
    ensures ItemsImage(items).None?
  {}

  lemma DashChild(lines: seq<Line>, i: nat)
    requires i < |lines| && lines[i].content == "-"
    ensures ChildAt(lines, i).Err?
  {
    BareDash(lines, i, lines[i].indent);
    MappingStep(lines, i, lines[i].indent, []);
  }

  /** Distinct keys are put one after the other. */
  lemma {:induction false} PutAllDistinct(acc: seq<Entry>, more: seq<Entry>)
    requires DistinctKeys(acc + more)
    ensures PutAll(acc, more) == acc + more
    decreases more
  {
    if more == [] {
      assert acc + more == acc;
    } else {
      forall a | a in acc ensures a.key != more[0].key {
        var k :| 0 <= k < |acc| && acc[k] == a;
        assert (acc + more)[k] == a && (acc + more)[|acc|] == more[0];
      }
      PutNew(acc, more[0].key, more[0].value);
      assert acc + [more[0]] + more[1..] == acc + more;
      PutAllDistinct(acc + [more[0]], more[1..]);
    }
  }

  lemma {:induction false} ImageKeys(entries: seq<Entry>)
    requires EntriesImage(entries).Some?
    ensures var es := EntriesImage(entries).value;
            |es| == |entries| && forall i :: 0 <= i < |es| ==> es[i].key == entries[i].key
  {
    if entries == [] {
    } else {
      ImageKeys(entries[1..]);
    }
  }

  lemma PutAllFresh(entries: seq<Entry>, es: seq<Entry>)
    requires DistinctKeys(entries) && EntriesImage(entries) == Some(es)
    ensures PutAll([], es) == es
  {
    ImageKeys(entries);
    assert [] + es == es;
    PutAllDistinct([], es);
  }

  lemma FirstEntryIsNotItem(e: Entry)
    requires PlainKey(e.key) && !IsItem(e.key)
    ensures IsInline(e.value) ==> !IsItem(e.key + ": " + InlineText(e.value))
    ensures !IsItem(e.key + ":")
  {
    KeyIsNotItem(e.key, ":");
    if IsInline(e.value) {
      KeyIsNotItem(e.key, ": " + InlineText(e.value));
      assert e.key + ": " + InlineText(e.value) == e.key + (": " + InlineText(e.value));
    }
  }

  lemma {:induction false} ReadEntriesBack(lines: seq<Line>, i: nat, indent: nat, entries: seq<Entry>, acc: seq<Entry>)
    requires forall e | e in entries :: ReadableEntry(e)
    requires StandsAt(lines, i, EntriesLayout(entries, indent), indent)
    requires Closed(lines, i + |EntriesLayout(entries, indent)|, indent)
    ensures var r := MappingFrom(lines, i, indent, acc);
            match EntriesImage(entries)
            case Some(es) => r == Ok(PutAll(acc, es), i + |EntriesLayout(entries, indent)|)
            case None => r.Err?
    decreases entries, 0
  {
    hide EntryAt, MappingFrom, Put, ReadableEntry, EntryLayout, EntryImage;
    if entries == [] {
      LoopsEnd(lines, i, indent, acc, []);
    } else {
      var e, rest := entries[0], entries[1..];
      var head, tail := EntryLayout(e, indent), EntriesLayout(rest, indent);
      if rest != [] { EntriesFirstLine(rest, indent); }
      StandsHead(lines, i, head, tail, indent);
      ReadEntryBack(lines, i, indent, e);
      MappingStep(lines, i, indent, acc);
      if EntryImage(e.value).Some? {
        var v := EntryImage(e.value).value;
        ReadEntriesBack(lines, i + |head|, indent, rest, Put(acc, e.key, v));
        if EntriesImage(rest).Some? { PutAllCons(acc, Entry(e.key, v), EntriesImage(rest).value); }
      }
    }
  }

  lemma PutAllCons(acc: seq<Entry>, e: Entry, rest: seq<Entry>)
    ensures PutAll(acc, [e] + rest) == PutAll(Put(acc, e.key, e.value), rest)
  {
    assert ([e] + rest)[1..] == rest;
  }

  lemma {:induction false} ReadItemsBack(lines: seq<Line>, i: nat, indent: nat, items: seq<Value>, acc: seq<Value>)
    requires forall v | v in items :: Readable(v)
    requires StandsAt(lines, i, ItemsLayout(items, indent), indent)
    requires Closed(lines, i + |ItemsLayout(items, indent)|, indent)
    ensures var r := ListFrom(lines, i, indent, acc);
            match ItemsImage(items)
            case Some(xs) => r == Ok(acc + xs, i + |ItemsLayout(items, indent)|)
            case None => r.Err?
    decreases items, 0
  {
    hide ItemAt, ListFrom, Readable, ItemLayout, ItemImage;
    if items == [] {
      LoopsEnd(lines, i, indent, [], acc);
      assert acc + [] == acc;
    } else {
      var v, rest := items[0], items[1..];
      var head, tail := ItemLayout(v, indent), ItemsLayout(rest, indent);
      if rest != [] { ItemsFirstLine(rest, indent); }
      StandsHead(lines, i, head, tail, indent);
      ReadItemBack(lines, i, indent, v);
      ListStep(lines, i, indent, acc);
      var image := ItemImage(v);
      if image.Some? {
        ReadItemsBack(lines, i + |head|, indent, rest, acc + [image.value]);
        if ItemsImage(rest).Some? { AppendOne(acc, image.value, ItemsImage(rest).value); }
      }
    }
  }

  lemma ItemTextImage(v: Value)
    requires IsInline(v) && Readable(v)
    ensures var t := InlineText(v);
            FieldText(t) && ItemImage(v) == Some(if ':' in t then Map(InlineEntry(t)) else ParseScalar(t))
  {
    InlineShape(v);
    InlineReadsBack(v);
  }

  lemma ReadItemBack(lines: seq<Line>, i: nat, indent: nat, v: Value)
    requires Readable(v)
    requires StandsAt(lines, i, ItemLayout(v, indent), indent)
    ensures i < |lines| && lines[i].indent == indent
    ensures var r := ItemAt(lines, i, indent);
            match ItemImage(v)
            case Some(image) => r == Ok(image, i + |ItemLayout(v, indent)|)
            case None => r.Err?
  {
    hide ItemAt, EntryAt, Quote, ParseScalar, InlineEntry, FieldText, Readable, InlineText;
    assert lines[i] == ItemLayout(v, indent)[0];
    if IsInline(v) {
      ItemTextImage(v);
      ItemAtInline(lines, i, indent, InlineText(v));
    } else {
      BareDash(lines, i, indent);
    }
  }

  /* ---- whole documents ---- */

  lemma {:induction false} LayoutKept(v: Value, indent: nat)
    requires Scannable(v) && !IsInline(v)
    ensures KeptLines(Layout(v, indent))
    decreases v, 0
  {
    match v
    case Map(entries) => EntriesKept(entries, indent);
    case List(items) => ItemsKept(items, indent);
  }

  lemma {:induction false} EntriesKept(entries: seq<Entry>, indent: nat)
    requires forall e | e in entries :: ScannableEntry(e)
    ensures KeptLines(EntriesLayout(entries, indent))
    decreases entries, 0
  {
    if entries == [] {
    } else {
      hide KeptLine;
      var e := entries[0];
      if IsInline(e.value) {
        EntryLineKept(e, indent);
      } else {
        HeaderLineKept(e.key, indent);
        LayoutKept(e.value, indent + 2);
      }
      EntriesKept(entries[1..], indent);
    }
  }

  lemma {:induction false} ItemsKept(items: seq<Value>, indent: nat)
    requires Scannable(List(items))
    ensures KeptLines(ItemsLayout(items, indent))
    decreases items, 0
  {
    if items == [] {
    } else {
      hide KeptLine;
      if IsInline(items[0]) {
        ItemLineKept(items[0], indent);
      } else {
        DashKept(indent);
        LayoutKept(items[0], indent + 2);
      }
      ItemsKept(items[1..], indent);
    }
  }

  /** A printed document is not mistaken for the JSON form. */
  lemma NotJson(lines: seq<Line>)
    requires lines != [] && KeptLines(lines) && lines[0].indent == 0
    ensures var text := Join(Rendered(lines)) + "\n"; !("# JSON" <= LStrip(text))
  {
    hide Trimmed, OneLine;
    var l := lines[0];
    var text := Join(Rendered(lines)) + "\n";
    assert KeptLine(l);
    assert Render(l) == l.content;
    assert Rendered(lines)[0] == l.content;
    assert text[0] == l.content[0];
    FirstCharacter(l);
  }

  lemma FirstCharacter(l: Line)
    requires KeptLine(l) && Render(l) == l.content
    ensures l.content[0] != '#' && !IsSpace(l.content[0])
  {
    var line := l.content;
    CutIsFirstComment(line, 0);
    assert Cut(line, 0, OpenQuote(line[..0])) == |line|;
    assert !CommentStarts(line, 0, OpenQuote(line[..0]));
  }

  /** Reading back what was printed, for every readable dictionary: its image, or an error exactly
      when some list holds a non-empty container. */
  lemma LoadOfDump(entries: seq<Entry>)
    requires Readable(Map(entries))
    ensures var r := LoadSpec(DumpSpec(entries));
            match EntriesImage(entries)
            case Some(es) => if entries == [] then r == Failed(InvalidEntry) else r == Doc(Map(es))
            case None => r.Failed?
  {
    hide MappingFrom, Scannable, ItemFree, TokensSpec, SplitLines, EntriesImage, KeptLines, EntriesLayout, LStrip, Join;
    var lines := Layout(Map(entries), 0);
    if entries == [] {
      EmptyDocument();
    } else {
      LayoutKept(Map(entries), 0);
      FirstLine(Map(entries), 0);
      NotJson(lines);
      DumpTokens(lines);
      ReadDocument(entries);
    }
  }

  lemma ReadDocument(entries: seq<Entry>)
    requires entries != [] && Readable(Map(entries))
    ensures var lines := EntriesLayout(entries, 0);
            var r := MappingFrom(lines, 0, 0, []);
            match EntriesImage(entries)
            case Some(es) => r == Ok(es, |lines|)
            case None => r.Err?
  {
    hide MappingFrom, EntriesLayout, EntriesImage;
    var lines := EntriesLayout(entries, 0);
    assert StandsAt(lines, 0, lines, 0);
    ReadEntriesBack(lines, 0, 0, entries, []);
    if EntriesImage(entries).Some? { PutAllFresh(entries, EntriesImage(entries).value); }
  }

  lemma BracesKept()
    ensures KeptLine(Line(0, "{}"))
  {
    CutNoHash(Render(Line(0, "{}")), 0, None);
    assert Render(Line(0, "{}")) == "{}";
  }

  lemma EmptyDocument()
    ensures LoadSpec(DumpSpec([])) == Failed(InvalidEntry) && EntriesImage([]) == Some([])
  {
    hide Trimmed, OneLine, IsSpace, RStrip, LStrip, Strip, SplitLines, Join;
    var l := Line(0, "{}");
    assert Layout(Map([]), 0) == [l];
    BracesKept();
    NotJson([l]);
    DumpTokens([l]);
    assert Find("{}", ':') == 2;
    assert EntryAt([l], 0, 0) == Err(InvalidEntry);
  }

  /* ---- which dictionaries come back unchanged ---- */

  predicate FaithfulItem(v: Value) {
    IsInline(v) && (v.Str? ==> EscapeFree(v.s) && ':' !in v.s)
  }

  ghost predicate FaithfulEntry(v: Value)
    decreases v
  {
    if IsInline(v) then v.Str? ==> EscapeFree(v.s)
    else match v
      case List(items) => forall x | x in items :: FaithfulItem(x)
      case Map(entries) => forall e | e in entries :: FaithfulEntry(e.value)
  }

  lemma ItemFaithful(v: Value)
    ensures ItemImage(v) == Some(v) <==> FaithfulItem(v)
  {
    if v.Str? {
      EscapeIsIdentity(v.s);
      EscapeChars(v.s);
    }
  }

  lemma {:induction false} ItemsFaithful(items: seq<Value>)
    ensures ItemsImage(items) == Some(items) <==> forall x | x in items :: FaithfulItem(x)
  {
    hide ItemImage, FaithfulItem;
    if items == [] {
    } else {
      ItemFaithful(items[0]);
      ItemsFaithful(items[1..]);
      assert items == [items[0]] + items[1..];
    }
  }

  lemma {:induction false} EntryFaithful(v: Value)
    ensures EntryImage(v) == Some(v) <==> FaithfulEntry(v)
    decreases v, 0
  {
    if IsInline(v) {
      if v.Str? { EscapeIsIdentity(v.s); }
    } else {
      match v
      case List(items) => ItemsFaithful(items);
      case Map(entries) => EntriesFaithful(entries);
    }
  }

  lemma {:induction false} EntriesFaithful(entries: seq<Entry>)
    ensures EntriesImage(entries) == Some(entries) <==> forall e | e in entries :: FaithfulEntry(e.value)
    decreases entries, 0
  {
    hide EntryImage, FaithfulEntry;
    if entries == [] {
    } else {
      EntryFaithful(entries[0].value);
      EntriesFaithful(entries[1..]);
      assert entries == [entries[0]] + entries[1..];
    }
  }

  /** The round trip holds exactly when no string needs a JSON escape, no list string holds a colon,
      and no list holds a non-empty container. */
  lemma RoundTrip(entries: seq<Entry>)
    requires Readable(Map(entries))
    ensures LoadSpec(DumpSpec(entries)) == Doc(Map(entries))
            <==> entries != [] && forall e | e in entries :: FaithfulEntry(e.value)
  {
    hide LoadSpec, DumpSpec, EntriesImage, Readable, FaithfulEntry;
    LoadOfDump(entries);
    EntriesFaithful(entries);
  }
}
