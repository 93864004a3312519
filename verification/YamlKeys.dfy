/** What holds of everything the reader returns, whatever the text. */
module YamlKeys {
  import opened Values
  import opened PyText
  import opened YamlReader
  import opened YamlWriter
  import opened YamlPrinted

  /** Strings hold no break but those of block scalars; every mapping is a dictionary with plain keys, and
      a key looks like a list item only in a mapping that is itself a list item. */
  ghost predicate LoadedValue(v: Value)
    decreases v, 0
  {
    match v
    case Str(s) => OneLineString(s)
    case List(items) => forall x | x in items :: LoadedItem(x)
    case Map(entries) => LoadedEntries(entries) && NoItemKeys(entries)
    case _ => true
  }

  ghost predicate LoadedItem(v: Value)
    decreases v, 1
  {
    if v.Map? then LoadedEntries(v.entries) else LoadedValue(v)
  }

  ghost predicate LoadedEntries(entries: seq<Entry>)
    decreases entries, 1
  {
    DistinctKeys(entries) && forall e | e in entries :: PlainKey(e.key) && LoadedValue(e.value)
  }

  predicate NoItemKeys(entries: seq<Entry>) { forall e | e in entries :: !IsItem(e.key) }

  ghost predicate CleanLines(lines: seq<Line>) { forall l | l in lines :: Trimmed(l.content) && OneLine(l.content) }

  /* ---- text ---- */

  lemma {:induction false} LStripWithin(s: string)
    ensures forall c | c in LStrip(s) :: c in s
  {
    if s != "" && IsSpace(s[0]) { LStripWithin(s[1..]); }
  }

  lemma StripWithin(s: string)
    ensures forall c | c in Strip(s) :: c in s
  {
    LStripWithin(RStrip(s));
  }

  lemma {:induction false} SplitWithin(s: string, c: char)
    ensures forall p, ch | p in SplitOn(s, c) && ch in p :: ch in s
    decreases |s|
  {
    var n := Find(s, c);
    if n < |s| { SplitWithin(s[n + 1..], c); }
  }

  lemma {:induction false} FindLeavesNone(s: string, c: char)
    ensures c !in s[..Find(s, c)]
  {
    if s != "" && s[0] != c {
      FindLeavesNone(s[1..], c);
      assert s[..Find(s, c)] == [s[0]] + s[1..][..Find(s[1..], c)];
    }
  }

  lemma SplitKeyLoaded(content: string)
    requires OneLine(content)
    ensures SplitKeyValue(content).Some? ==> PlainKey(SplitKeyValue(content).value.0)
    ensures SplitKeyValue(content).Some? && SplitKeyValue(content).value.1.Some?
      ==> OneLine(SplitKeyValue(content).value.1.value)
    ensures SplitKeyValue(content).Some? && Trimmed(content) && !IsItem(content)
            ==> !IsItem(SplitKeyValue(content).value.0)
  {
    hide IsSpace, IsBreak;
    var n := Find(content, ':');
    FindLeavesNone(content, ':');
    if n < |content| {
      StripWithin(content[..n]);
      StripWithin(content[n + 1..]);
      if Trimmed(content) { LeadingStays(content[..n]); }
    }
  }

  /** Stripping a text that starts with no blank keeps its start. */
  lemma LeadingStays(s: string)
    requires s == "" || !IsSpace(s[0])
    ensures Strip(s) <= s
  {}

  lemma {:induction false} ScalarLoaded(token: string)
    requires OneLine(token)
    ensures LoadedItem(ParseScalar(token)) && LoadedValue(ParseScalar(token))
    decreases |token|
  {
    hide IsBreak;
    if token != "" && Keyword(token).None? {
      if Bracketed(token, '[', ']') {
        var inner := Strip(Inner(token));
        StripWithin(Inner(token));
        if inner != "" {
          SplitWithin(inner, ',');
          var parts := SplitOn(inner, ',');
          var items := ParseScalar(token).items;
          forall x | x in items ensures LoadedItem(x) {
            var i :| 0 <= i < |items| && items[i] == x;
            assert parts[i] in parts;
            StripWithin(parts[i]);
            ScalarLoaded(Strip(parts[i]));
          }
        }
      } else {
        LiteralLoaded(token);
      }
    }
  }

  lemma LiteralLoaded(token: string)
    requires OneLine(token)
    ensures LoadedItem(Literal(token)) && LoadedValue(Literal(token))
  {
    hide IsBreak, IsFloatLiteral, ParseInt;
  }

  lemma InlineLoaded(token: string)
    requires ':' in token && OneLine(token)
    ensures LoadedEntries(InlineEntry(token))
  {
    hide ParseScalar, Find, Strip, OneLine;
    SplitKeyLoaded(token);
    var (_, value) := SplitKeyValue(token).value;
    EmptyOneLine();
    ScalarLoaded(if value.Some? then value.value else "");
  }

  lemma EmptyOneLine()
    ensures OneLine("")
  {}

  lemma {:induction false} JoinBreaks(texts: seq<string>)
    requires forall t | t in texts :: OneLine(t)
    ensures OneLineString(Join(texts))
  {
    hide IsBreak;
    if texts == [] {
    } else {
      assert texts[0] in texts;
    }
    if |texts| > 1 { JoinBreaks(texts[1..]); }
  }

  lemma BlockLoaded(lines: seq<Line>, index: nat, next: nat, indent: nat)
    requires index <= next <= |lines| && CleanLines(lines)
    ensures OneLineString(BlockText(lines, index, next, indent))
  {
    hide IsBreak, IsSpace;
    var texts := seq(next - index, i requires 0 <= i < next - index =>
      var c := lines[index + i].content; if indent <= |c| then c[indent..] else "");
    forall t | t in texts ensures OneLine(t) {
      var i :| 0 <= i < |texts| && texts[i] == t;
      assert lines[index + i] in lines;
    }
    JoinBreaks(texts);
  }

  /* ---- the parser ---- */

  lemma PutLoaded(entries: seq<Entry>, e: Entry)
    requires LoadedEntries(entries) && PlainKey(e.key) && LoadedValue(e.value)
    ensures LoadedEntries(Put(entries, e.key, e.value))
    ensures NoItemKeys(entries) && !IsItem(e.key) ==> NoItemKeys(Put(entries, e.key, e.value))
  {
    hide PlainKey, LoadedValue, IsItem;
    var r := Put(entries, e.key, e.value);
    forall x | x in r ensures x in entries || x == Entry(e.key, e.value) {
      var k :| 0 <= k < |r| && r[k] == x;
      assert k < |entries| && r[k] == entries[k] ==> entries[k] in entries;
    }
  }

  lemma {:induction false} PutAllLoaded(entries: seq<Entry>, more: seq<Entry>)
    requires LoadedEntries(entries)
    requires forall e | e in more :: PlainKey(e.key) && LoadedValue(e.value)
    ensures LoadedEntries(PutAll(entries, more))
    decreases |more|
  {
    hide LoadedEntries, PlainKey, LoadedValue, Put;
    if more == [] {
    } else {
      PutLoaded(entries, more[0]);
      PutAllLoaded(Put(entries, more[0].key, more[0].value), more[1..]);
    }
  }

  lemma {:induction false} EntryLoaded(lines: seq<Line>, i: nat, indent: nat)
    requires i < |lines| && CleanLines(lines)
    ensures var r := EntryAt(lines, i, indent);
            r.Ok? ==> PlainKey(r.value.key) && !IsItem(r.value.key) && LoadedValue(r.value.value)
    decreases |lines| - i, 0
  {
    hide PlainKey, SplitKeyValue, ParseScalar, ChildAt, BlockText, OneLineString, IsItem, Trimmed, OneLine;
    assert lines[i] in lines;
    SplitKeyLoaded(lines[i].content);
    var pair := SplitKeyValue(lines[i].content);
    if pair.Some? && pair.value.1.Some? {
      ScalarLoaded(pair.value.1.value);
      var childIndent := if i + 1 < |lines| then lines[i + 1].indent else indent;
      BlockLoaded(lines, i + 1, BlockEnd(lines, i + 1, childIndent), childIndent);
    }
    if i + 1 < |lines| { ChildLoaded(lines, i + 1); }
  }

  lemma {:induction false} MappingLoaded(lines: seq<Line>, i: nat, indent: nat, acc: seq<Entry>)
    requires i <= |lines| && LoadedEntries(acc) && NoItemKeys(acc) && CleanLines(lines)
    ensures var r := MappingFrom(lines, i, indent, acc); r.Ok? ==> LoadedEntries(r.value) && NoItemKeys(r.value)
    decreases |lines| - i, 1
  {
    hide EntryAt, LoadedEntries, Put, PlainKey, LoadedValue, NoItemKeys, CleanLines, IsItem;
    if i < |lines| && lines[i].indent >= indent {
      EntryLoaded(lines, i, indent);
      var e := EntryAt(lines, i, indent);
      if e.Ok? {
        PutLoaded(acc, e.value);
        MappingLoaded(lines, e.next, indent, Put(acc, e.value.key, e.value.value));
      }
    }
  }

  lemma {:induction false} ItemLoaded(lines: seq<Line>, i: nat, indent: nat)
    requires i < |lines| && CleanLines(lines)
    ensures var r := ItemAt(lines, i, indent); r.Ok? ==> LoadedItem(r.value)
    decreases |lines| - i, 0
  {
    hide MappingFrom, ChildAt, ParseScalar, LoadedEntries, InlineEntry, PutAll, PlainKey, Trimmed, OneLine, Strip;
    assert lines[i] in lines;
    var content := lines[i].content;
    if IsItem(content) {
      var token := Strip(content[2..]);
      StripWithin(content[2..]);
      TokenOneLine(content, token);
      ScalarLoaded(token);
      if ':' in token { InlineLoaded(token); }
      if i + 1 < |lines| {
        ChildLoaded(lines, i + 1);
        EmptyLoaded();
        var more := MappingFrom(lines, i + 1, lines[i + 1].indent, []);
        MappingLoaded(lines, i + 1, lines[i + 1].indent, []);
        if more.Ok? && ':' in token { UpdateLoaded(InlineEntry(token), more.value); }
      }
    }
  }

  lemma TokenOneLine(content: string, token: string)
    requires OneLine(content) && |content| >= 2 && forall c | c in token :: c in content[2..]
    ensures OneLine(token)
  {}

  lemma UpdateLoaded(entries: seq<Entry>, more: seq<Entry>)
    requires LoadedEntries(entries) && LoadedEntries(more)
    ensures LoadedEntries(PutAll(entries, more))
  {
    PutAllLoaded(entries, more);
  }

  lemma EmptyLoaded()
    ensures LoadedEntries([]) && NoItemKeys([])
  {}

  lemma {:induction false} ListLoaded(lines: seq<Line>, i: nat, indent: nat, acc: seq<Value>)
    requires i <= |lines| && CleanLines(lines) && forall x | x in acc :: LoadedItem(x)
    ensures var r := ListFrom(lines, i, indent, acc); r.Ok? ==> forall x | x in r.value :: LoadedItem(x)
    decreases |lines| - i, 1
  {
    hide ItemAt, LoadedItem, CleanLines;
    if i < |lines| && lines[i].indent >= indent {
      ItemLoaded(lines, i, indent);
      var x := ItemAt(lines, i, indent);
      if x.Ok? { ListLoaded(lines, x.next, indent, acc + [x.value]); }
    }
  }

  lemma {:induction false} ChildLoaded(lines: seq<Line>, i: nat)
    requires i < |lines| && CleanLines(lines)
    ensures var r := ChildAt(lines, i); r.Ok? ==> LoadedValue(r.value) && LoadedItem(r.value)
    decreases |lines| - i, 2
  {
    hide ListFrom, MappingFrom, LoadedEntries, NoItemKeys, CleanLines;
    EmptyLoaded();
    ListLoaded(lines, i, lines[i].indent, []);
    MappingLoaded(lines, i, lines[i].indent, []);
  }

  /* ---- documents ---- */

  lemma {:induction false} SplitLinesOneLine(text: string)
    ensures forall l | l in SplitLines(text) :: OneLine(l)
    decreases |text|
  {
    var n := FirstBreak(text);
    FirstBreakLeavesNone(text);
    if n < |text| {
      var width := if text[n] == '\r' && n + 1 < |text| && text[n + 1] == '\n' then 2 else 1;
      SplitLinesOneLine(text[n + width..]);
    } else {
      assert text[..n] == text;
    }
  }

  lemma {:induction false} FirstBreakLeavesNone(s: string)
    ensures OneLine(s[..FirstBreak(s)])
  {
    hide IsBreak;
    if s != "" && !IsBreak(s[0]) {
      FirstBreakLeavesNone(s[1..]);
      assert s[..FirstBreak(s)] == [s[0]] + s[1..][..FirstBreak(s[1..])];
    }
  }

  lemma {:induction false} TokensClean(raws: seq<string>)
    requires forall raw | raw in raws :: OneLine(raw)
    ensures CleanLines(TokensSpec(raws))
  {
    hide OneLine, Trimmed, TokenSpec;
    if raws == [] {
    } else {
      assert raws[0] in raws;
      TokenClean(raws[0]);
      assert forall raw | raw in raws[1..] :: raw in raws;
      TokensClean(raws[1..]);
    }
  }

  lemma TokenClean(raw: string)
    requires OneLine(raw)
    ensures CleanLines(TokenSpec(raw))
  {
    hide IsBreak;
    TokenShape(raw);
    var line := RStrip(StripCommentSpec(raw));
    assert line <= raw;
    LStripWithin(line);
  }

  /** For every text: a loaded document holds only dictionaries with plain keys and no stray line break. */
  lemma LoadedDocument(text: string)
    ensures LoadSpec(text).Doc? ==> LoadedValue(LoadSpec(text).value)
  {
    hide MappingFrom, LoadedEntries, TokensSpec, NoItemKeys, CleanLines, OneLine;
    EmptyLoaded();
    SplitLinesOneLine(text);
    TokensClean(SplitLines(text));
    var lines := TokensSpec(SplitLines(text));
    if lines != [] { MappingLoaded(lines, 0, lines[0].indent, []); }
  }
}
