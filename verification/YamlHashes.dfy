/** The reader never invents a `#`: counting them shows when a comment was cut off a printed line. */
module YamlHashes {
  import opened Values
  import opened PyText
  import opened YamlReader
  import opened YamlWriter
  import opened YamlPrinted

  function Hashes(s: string): nat { multiset(s)['#'] }

  function TextHashes(texts: seq<string>): nat {
    if texts == [] then 0 else Hashes(texts[0]) + TextHashes(texts[1..])
  }

  function LineHashes(lines: seq<Line>): nat {
    if lines == [] then 0 else Hashes(lines[0].content) + LineHashes(lines[1..])
  }

  function ValueHashes(v: Value): nat
    decreases v, 0
  {
    match v
    case Str(s) => Hashes(s)
    case List(items) => ItemHashes(items)
    case Map(entries) => EntryHashes(entries)
    case _ => 0
  }

  function ItemHashes(items: seq<Value>): nat
    decreases items, 1
  {
    if items == [] then 0 else ValueHashes(items[0]) + ItemHashes(items[1..])
  }

  function EntryHashes(entries: seq<Entry>): nat
    decreases entries, 1
  {
    if entries == [] then 0
    else Hashes(entries[0].key) + ValueHashes(entries[0].value) + EntryHashes(entries[1..])
  }

  /* ---- sums ---- */

  lemma {:induction false} LineHashesAppend(a: seq<Line>, b: seq<Line>)
    ensures LineHashes(a + b) == LineHashes(a) + LineHashes(b)
  {
    if a == [] {
      assert a + b == b;
    } else {
      assert (a + b)[1..] == a[1..] + b;
      LineHashesAppend(a[1..], b);
    }
  }

  lemma LineHashesSplit(lines: seq<Line>, i: nat, j: nat, k: nat)
    requires i <= j <= k <= |lines|
    ensures LineHashes(lines[i..k]) == LineHashes(lines[i..j]) + LineHashes(lines[j..k])
  {
    assert lines[i..k] == lines[i..j] + lines[j..k];
    LineHashesAppend(lines[i..j], lines[j..k]);
  }

  lemma OneLineHashes(lines: seq<Line>, i: nat, k: nat)
    requires i < k <= |lines|
    ensures LineHashes(lines[i..k]) == Hashes(lines[i].content) + LineHashes(lines[i + 1..k])
  {
    assert lines[i..k][1..] == lines[i + 1..k];
  }

  lemma {:induction false} ItemHashesAppend(items: seq<Value>, v: Value)
    ensures ItemHashes(items + [v]) == ItemHashes(items) + ValueHashes(v)
  {
    if items == [] {
    } else {
      assert (items + [v])[1..] == items[1..] + [v];
      ItemHashesAppend(items[1..], v);
    }
  }

  lemma {:induction false} ItemHashesBounded(items: seq<Value>, parts: seq<string>)
    requires |items| == |parts| && forall i | 0 <= i < |items| :: ValueHashes(items[i]) <= Hashes(parts[i])
    ensures ItemHashes(items) <= TextHashes(parts)
  {
    if items == [] {
    } else {
      ItemHashesBounded(items[1..], parts[1..]);
    }
  }

  lemma {:induction false} PutHashes(entries: seq<Entry>, key: string, v: Value)
    ensures EntryHashes(Put(entries, key, v)) <= EntryHashes(entries) + Hashes(key) + ValueHashes(v)
  {
    hide ValueHashes, Hashes;
    var r := Put(entries, key, v);
    if entries == [] {
    } else {
      if entries[0].key == key {
        assert r[1..] == entries[1..];
      } else {
        PutHashes(entries[1..], key, v);
        assert r[0] == entries[0];
        assert r[1..] == Put(entries[1..], key, v);
      }
    }
  }

  lemma {:induction false} PutAllHashes(entries: seq<Entry>, more: seq<Entry>)
    ensures EntryHashes(PutAll(entries, more)) <= EntryHashes(entries) + EntryHashes(more)
    decreases |more|
  {
    hide Put, ValueHashes, Hashes;
    if more == [] {
    } else {
      PutHashes(entries, more[0].key, more[0].value);
      PutAllHashes(Put(entries, more[0].key, more[0].value), more[1..]);
    }
  }

  /* ---- text ---- */

  lemma HashesSplit(s: string, i: nat)
    requires i <= |s|
    ensures Hashes(s) == Hashes(s[..i]) + Hashes(s[i..])
  {
    assert s == s[..i] + s[i..];
  }

  lemma {:induction false} LStripHashes(s: string)
    ensures Hashes(LStrip(s)) <= Hashes(s)
  {
    if s != "" && IsSpace(s[0]) {
      HashesSplit(s, 1);
      LStripHashes(s[1..]);
    }
  }

  lemma PrefixHashes(r: string, s: string)
    requires r <= s
    ensures Hashes(r) <= Hashes(s)
  {
    assert s[..|r|] == r;
    HashesSplit(s, |r|);
  }

  lemma StripHashes(s: string)
    ensures Hashes(Strip(s)) <= Hashes(s)
  {
    hide Hashes;
    PrefixHashes(RStrip(s), s);
    LStripHashes(RStrip(s));
  }

  lemma SplitKeyHashes(content: string)
    ensures match SplitKeyValue(content)
            case None => true
            case Some((key, value)) => Hashes(key) + (if value.Some? then Hashes(value.value) else 0) <= Hashes(content)
  {
    hide Hashes, Strip;
    var n := Find(content, ':');
    if n < |content| {
      HashesSplit(content, n);
      HashesSplit(content[n..], 1);
      assert content[n..][1..] == content[n + 1..];
      StripHashes(content[..n]);
      StripHashes(content[n + 1..]);
    }
  }

  lemma {:induction false} SplitOnHashes(s: string, c: char)
    ensures TextHashes(SplitOn(s, c)) <= Hashes(s)
    decreases |s|
  {
    var n := Find(s, c);
    if n < |s| {
      HashesSplit(s, n);
      HashesSplit(s[n..], 1);
      assert s[n..][1..] == s[n + 1..];
      SplitOnHashes(s[n + 1..], c);
      assert SplitOn(s, c)[1..] == SplitOn(s[n + 1..], c);
    } else {
      assert SplitOn(s, c)[1..] == [];
    }
  }

  lemma InnerHashes(token: string)
    ensures Hashes(Inner(token)) <= Hashes(token)
  {
    if |token| >= 2 {
      HashesSplit(token, 1);
      assert Inner(token) <= token[1..];
      PrefixHashes(Inner(token), token[1..]);
    }
  }

  lemma {:induction false} ScalarHashes(token: string)
    ensures ValueHashes(ParseScalar(token)) <= Hashes(token)
    decreases |token|
  {
    hide Hashes, Strip, IsFloatLiteral, ParseInt;
    InnerHashes(token);
    if token != "" && Keyword(token).None? && Bracketed(token, '[', ']') {
      var inner := Strip(Inner(token));
      StripHashes(Inner(token));
      if inner != "" {
        SplitOnHashes(inner, ',');
        var parts := SplitOn(inner, ',');
        var items := ParseScalar(token).items;
        forall i | 0 <= i < |items| ensures ValueHashes(items[i]) <= Hashes(parts[i]) {
          assert parts[i] in parts;
          StripHashes(parts[i]);
          ScalarHashes(Strip(parts[i]));
        }
        ItemHashesBounded(items, parts);
      }
    }
  }

  lemma InlineHashes(token: string)
    requires ':' in token
    ensures EntryHashes(InlineEntry(token)) <= Hashes(token)
  {
    hide Hashes, ParseScalar, Strip, Find, ValueHashes;
    SplitKeyHashes(token);
    var (_, value) := SplitKeyValue(token).value;
    ScalarHashes(if value.Some? then value.value else "");
    NoHashes();
    var r := InlineEntry(token);
    assert r[1..] == [];
  }

  lemma NoHashes()
    ensures Hashes("") == 0
  {}

  lemma {:induction false} JoinHashes(texts: seq<string>)
    ensures Hashes(Join(texts)) == TextHashes(texts)
  {
    if |texts| == 1 {
      assert texts[1..] == [];
    } else if texts != [] {
      JoinHashes(texts[1..]);
      assert multiset("\n")['#'] == 0;
    }
  }

  lemma {:induction false} TextsBounded(texts: seq<string>, lines: seq<Line>)
    requires |texts| == |lines| && forall i | 0 <= i < |texts| :: Hashes(texts[i]) <= Hashes(lines[i].content)
    ensures TextHashes(texts) <= LineHashes(lines)
  {
    if texts == [] {
    } else {
      TextsBounded(texts[1..], lines[1..]);
    }
  }

  lemma BlockHashes(lines: seq<Line>, index: nat, next: nat, indent: nat)
    requires index <= next <= |lines|
    ensures Hashes(BlockText(lines, index, next, indent)) <= LineHashes(lines[index..next])
  {
    hide Hashes;
    var texts := seq(next - index, i requires 0 <= i < next - index =>
      var c := lines[index + i].content; if indent <= |c| then c[indent..] else "");
    forall i | 0 <= i < |texts| ensures Hashes(texts[i]) <= Hashes(lines[index..next][i].content) {
      var c := lines[index + i].content;
      NoHashes();
      if indent <= |c| { HashesSplit(c, indent); }
    }
    TextsBounded(texts, lines[index..next]);
    JoinHashes(texts);
    PrefixHashes(TrimNewlines(Join(texts)), Join(texts));
  }

  /* ---- the parser ---- */

  lemma {:induction false} EntryKeeps(lines: seq<Line>, i: nat, indent: nat)
    requires i < |lines|
    ensures var r := EntryAt(lines, i, indent);
            r.Ok? ==> Hashes(r.value.key) + ValueHashes(r.value.value) <= LineHashes(lines[i..r.next])
    decreases |lines| - i, 0
  {
    hide Hashes, SplitKeyValue, ParseScalar, ChildAt, BlockText, IsItem, LineHashes;
    var content := lines[i].content;
    SplitKeyHashes(content);
    var pair := SplitKeyValue(content);
    if i + 1 < |lines| { ChildKeeps(lines, i + 1); }
    if pair.Some? && pair.value.1.Some? {
      ScalarHashes(pair.value.1.value);
      var childIndent := if i + 1 < |lines| then lines[i + 1].indent else indent;
      BlockHashes(lines, i + 1, BlockEnd(lines, i + 1, childIndent), childIndent);
    }
    var r := EntryAt(lines, i, indent);
    if r.Ok? { OneLineHashes(lines, i, r.next); }
  }

  lemma {:induction false} MappingKeeps(lines: seq<Line>, i: nat, indent: nat, acc: seq<Entry>)
    requires i <= |lines|
    ensures var r := MappingFrom(lines, i, indent, acc);
            r.Ok? ==> EntryHashes(r.value) <= EntryHashes(acc) + LineHashes(lines[i..r.next])
    decreases |lines| - i, 1
  {
    hide EntryAt, EntryHashes, ValueHashes, Hashes, Put, LineHashes;
    if i < |lines| && lines[i].indent >= indent {
      EntryKeeps(lines, i, indent);
      var e := EntryAt(lines, i, indent);
      if e.Ok? {
        PutHashes(acc, e.value.key, e.value.value);
        MappingKeeps(lines, e.next, indent, Put(acc, e.value.key, e.value.value));
        var r := MappingFrom(lines, e.next, indent, Put(acc, e.value.key, e.value.value));
        if r.Ok? { LineHashesSplit(lines, i, e.next, r.next); }
      }
    }
  }

  lemma {:induction false} ItemKeeps(lines: seq<Line>, i: nat, indent: nat)
    requires i < |lines|
    ensures var r := ItemAt(lines, i, indent); r.Ok? ==> ValueHashes(r.value) <= LineHashes(lines[i..r.next])
    decreases |lines| - i, 0
  {
    hide Hashes, MappingFrom, ChildAt, ParseScalar, InlineEntry, PutAll, EntryHashes, LineHashes, Strip;
    var content := lines[i].content;
    if IsItem(content) {
      var token := Strip(content[2..]);
      HashesSplit(content, 2);
      StripHashes(content[2..]);
      ScalarHashes(token);
      if ':' in token { InlineHashes(token); }
      if i + 1 < |lines| {
        ChildKeeps(lines, i + 1);
        MappingKeeps(lines, i + 1, lines[i + 1].indent, []);
        var more := MappingFrom(lines, i + 1, lines[i + 1].indent, []);
        NothingHashed();
        if more.Ok? && ':' in token { PutAllHashes(InlineEntry(token), more.value); }
      }
      var r := ItemAt(lines, i, indent);
      if r.Ok? { OneLineHashes(lines, i, r.next); }
    }
  }

  lemma NothingHashed()
    ensures EntryHashes([]) == 0
  {}

  lemma {:induction false} ListKeeps(lines: seq<Line>, i: nat, indent: nat, acc: seq<Value>)
    requires i <= |lines|
    ensures var r := ListFrom(lines, i, indent, acc);
            r.Ok? ==> ItemHashes(r.value) <= ItemHashes(acc) + LineHashes(lines[i..r.next])
    decreases |lines| - i, 1
  {
    hide ItemAt, ItemHashes, ValueHashes, LineHashes;
    if i < |lines| && lines[i].indent >= indent {
      ItemKeeps(lines, i, indent);
      var x := ItemAt(lines, i, indent);
      if x.Ok? {
        ItemHashesAppend(acc, x.value);
        ListKeeps(lines, x.next, indent, acc + [x.value]);
        var r := ListFrom(lines, x.next, indent, acc + [x.value]);
        if r.Ok? { LineHashesSplit(lines, i, x.next, r.next); }
      }
    }
  }

  /** The `#`s of what a block is read as all stand in the lines it consumed. */
  lemma {:induction false} ChildKeeps(lines: seq<Line>, i: nat)
    requires i < |lines|
    ensures var r := ChildAt(lines, i); r.Ok? ==> ValueHashes(r.value) <= LineHashes(lines[i..r.next])
    decreases |lines| - i, 2
  {
    hide ListFrom, MappingFrom, LineHashes;
    ListKeeps(lines, i, lines[i].indent, []);
    MappingKeeps(lines, i, lines[i].indent, []);
  }

  /* ---- documents ---- */

  /** A token holds no more than its raw line, and less when a comment was cut off. */
  lemma TokenKeeps(raw: string)
    ensures LineHashes(TokenSpec(raw)) <= Hashes(raw)
    ensures !NoComment(raw) ==> LineHashes(TokenSpec(raw)) < Hashes(raw)
  {
    hide Hashes, IsSpace;
    var n := Cut(raw, 0, None);
    var line := RStrip(StripCommentSpec(raw));
    CutIsFirstComment(raw, 0);
    assert raw[..0] == "";
    HashesSplit(raw, n);
    PrefixHashes(line, raw[..n]);
    LStripHashes(line);
    if n < |raw| {
      HashesSplit(raw[n..], 1);
      OneHash(raw[n..][..1]);
    }
    var tokens := TokenSpec(raw);
    if tokens != [] { assert tokens[1..] == []; }
  }

  lemma OneHash(s: string)
    requires s == "#"
    ensures Hashes(s) == 1
  {}

  lemma {:induction false} TokensKeep(raws: seq<string>, k: nat)
    requires k <= |raws|
    ensures LineHashes(TokensSpec(raws)) <= TextHashes(raws)
    ensures k < |raws| && !NoComment(raws[k]) ==> LineHashes(TokensSpec(raws)) < TextHashes(raws)
  {
    hide TokenSpec, Hashes, NoComment;
    if raws == [] {
    } else {
      TokenKeeps(raws[0]);
      TokensKeep(raws[1..], if k > 0 then k - 1 else |raws| - 1);
      LineHashesAppend(TokenSpec(raws[0]), TokensSpec(raws[1..]));
    }
  }

  lemma {:induction false} SplitLinesHashes(text: string)
    ensures TextHashes(SplitLines(text)) == Hashes(text)
    decreases |text|
  {
    var n := FirstBreak(text);
    if n < |text| {
      var width := if text[n] == '\r' && n + 1 < |text| && text[n + 1] == '\n' then 2 else 1;
      HashesSplit(text, n);
      HashesSplit(text[n..], width);
      assert text[n..][width..] == text[n + width..];
      var gap := text[n..][..width];
      assert forall c | c in gap :: c != '#';
      assert '#' !in multiset(gap);
      SplitLinesHashes(text[n + width..]);
      assert SplitLines(text)[1..] == SplitLines(text[n + width..]);
    } else if text != "" {
      assert SplitLines(text)[1..] == [];
    }
  }

  /* ---- the printer ---- */

  /** Every mapping is a dictionary, and every float prints with a point. */
  ghost predicate Printable(v: Value)
    decreases v, 0
  {
    match v
    case Float(literal) => IsFloatLiteral(literal)
    case List(items) => forall x | x in items :: Printable(x)
    case Map(entries) => DistinctKeys(entries) && forall e | e in entries :: PrintableEntry(e)
    case _ => true
  }

  ghost predicate PrintableEntry(e: Entry)
    decreases e, 1
  {
    Printable(e.value)
  }

  lemma EscapeCharHashes(c: char)
    ensures Hashes(EscapeChar(c)) == Hashes([c])
  {
    var r := EscapeChar(c);
    if NeedsEscape(c) {
      assert forall k :: 0 <= k < |r| ==> r[k] != '#';
      assert '#' !in multiset(r);
    }
  }

  lemma {:induction false} EscapeHashes(s: string)
    ensures Hashes(Escape(s)) == Hashes(s)
  {
    hide EscapeChar, Hashes;
    if s == "" {
    } else {
      HashesSplit(s, 1);
      EscapeHashes(s[1..]);
      EscapeCharHashes(s[0]);
      ConcatHashes(EscapeChar(s[0]), Escape(s[1..]));
      assert s[..1] == [s[0]];
    }
  }

  lemma InlineTextHashes(v: Value)
    requires IsInline(v) && Printable(v)
    ensures Hashes(InlineText(v)) == ValueHashes(v)
  {
    if v.Str? {
      EscapeHashes(v.s);
      assert multiset("\"")['#'] == 0;
    } else {
      InlineShape(v);
      assert '#' !in multiset(InlineText(v));
    }
  }

  lemma {:induction false} LayoutHashes(v: Value, indent: nat)
    requires Printable(v)
    ensures LineHashes(Layout(v, indent)) == ValueHashes(v)
    decreases v, 0
  {
    hide Hashes, InlineText;
    if IsInline(v) {
      InlineTextHashes(v);
      assert Layout(v, indent)[1..] == [];
    } else {
      match v
      case Map(entries) => EntriesLayoutHashes(entries, indent);
      case List(items) => ItemsLayoutHashes(items, indent);
    }
  }

  lemma HeadHashes(head: string, text: string)
    requires '#' !in text
    ensures Hashes(head + text) == Hashes(head)
  {
    assert '#' !in multiset(text);
  }

  lemma ConcatHashes(a: string, b: string)
    ensures Hashes(a + b) == Hashes(a) + Hashes(b)
  {}

  lemma {:induction false} EntriesLayoutHashes(entries: seq<Entry>, indent: nat)
    requires forall e | e in entries :: PrintableEntry(e)
    ensures LineHashes(EntriesLayout(entries, indent)) == EntryHashes(entries)
    decreases entries, 0
  {
    hide Hashes, InlineText, Layout;
    if entries == [] {
    } else {
      var e := entries[0];
      var head, tail := EntryLayout(e, indent), EntriesLayout(entries[1..], indent);
      EntriesLayoutHashes(entries[1..], indent);
      LineHashesAppend(head, tail);
      assert PrintableEntry(e);
      if IsInline(e.value) {
        InlineTextHashes(e.value);
        HeadHashes(e.key, ": ");
        ConcatHashes(e.key + ": ", InlineText(e.value));
        assert head[1..] == [];
      } else {
        HeadHashes(e.key, ":");
        LayoutHashes(e.value, indent + 2);
        assert head[1..] == Layout(e.value, indent + 2);
      }
    }
  }

  lemma {:induction false} ItemsLayoutHashes(items: seq<Value>, indent: nat)
    requires forall x | x in items :: Printable(x)
    ensures LineHashes(ItemsLayout(items, indent)) == ItemHashes(items)
    decreases items, 0
  {
    hide Hashes, InlineText, Layout;
    if items == [] {
    } else {
      var v := items[0];
      var head, tail := ItemLayout(v, indent), ItemsLayout(items[1..], indent);
      ItemsLayoutHashes(items[1..], indent);
      LineHashesAppend(head, tail);
      NoHashes();
      if IsInline(v) {
        InlineTextHashes(v);
        HeadHashes("", "- ");
        assert "" + "- " == "- ";
        ConcatHashes("- ", InlineText(v));
        assert head[1..] == [];
      } else {
        HeadHashes("", "-");
        assert "" + "-" == "-";
        LayoutHashes(v, indent + 2);
        assert head[1..] == Layout(v, indent + 2);
      }
    }
  }

  lemma {:induction false} RenderedHashes(lines: seq<Line>)
    ensures TextHashes(Rendered(lines)) == LineHashes(lines)
  {
    if lines == [] {
    } else {
      assert Rendered(lines)[1..] == Rendered(lines[1..]);
      RenderedHashes(lines[1..]);
      var blanks := Spaces(lines[0].indent);
      assert '#' !in multiset(blanks);
    }
  }

  lemma DumpHashes(entries: seq<Entry>)
    requires Printable(Map(entries))
    ensures Hashes(DumpSpec(entries)) == ValueHashes(Map(entries))
  {
    hide Hashes, ValueHashes, Join, Layout, Printable;
    var lines := Layout(Map(entries), 0);
    LayoutHashes(Map(entries), 0);
    RenderedHashes(lines);
    JoinHashes(Rendered(lines));
    HeadHashes(Join(Rendered(lines)), "\n");
  }
}
