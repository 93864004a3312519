/** Every form a document may be written in, and what each is read as: the forms the printer never writes
    included. */
module YamlForms {
  import opened Values
  import opened PyText
  import opened YamlReader
  import opened YamlWriter
  import opened YamlPrinted
  import opened YamlRoundTrip

  /* ---- forms, their lines and their meaning ---- */

  /** By how much a child is indented. */
  type Deeper = n: nat | n > 0 witness 1

  // One line of a block, indented by so much more than its first one.
  datatype Raw = Raw(more: nat, text: string)

  // After a key: nothing, a token, a block of raw lines, deeper fields, or deeper list items.
  datatype Form =
    | Nothing
    | Token(token: string)
    | Block(raws: seq<Raw>)
    | Fields(fields: seq<Field>)
    | Rows(rows: seq<Row>)

  // What stands under the key stands `step` deeper.
  datatype Field = Field(key: string, step: Deeper, form: Form)

  // `- token`, or `- key: token` with more fields deeper; an empty token stands for none.
  datatype Row = Bare(token: string) | Opened(key: string, token: string, step: Deeper, more: seq<Field>)

  function Header(key: string, token: string): string { key + if token == "" then ":" else ": " + token }

  function FieldLines(f: Field, indent: nat): seq<Line>
    decreases f, 1
  {
    match f.form
    case Nothing => [Line(indent, Header(f.key, ""))]
    case Token(token) => [Line(indent, Header(f.key, token))]
    case Block(_) => [Line(indent, Header(f.key, "|"))] + ChildLines(f.form, indent + f.step)
    case _ => [Line(indent, Header(f.key, ""))] + ChildLines(f.form, indent + f.step)
  }

  function ChildLines(form: Form, indent: nat): seq<Line>
    decreases form, 0
  {
    match form
    case Block(raws) => seq(|raws|, i requires 0 <= i < |raws| => Line(indent + raws[i].more, raws[i].text))
    case Fields(fields) => AllFieldLines(fields, indent)
    case Rows(rows) => AllRowLines(rows, indent)
    case _ => []
  }

  function AllFieldLines(fields: seq<Field>, indent: nat): seq<Line>
    decreases fields, 0
  {
    if fields == [] then [] else FieldLines(fields[0], indent) + AllFieldLines(fields[1..], indent)
  }

  function RowLines(row: Row, indent: nat): seq<Line>
    decreases row, 1
  {
    match row
    case Bare(token) => [Line(indent, "- " + token)]
    case Opened(key, token, step, more) => [Line(indent, "- " + Header(key, token))] + AllFieldLines(more,
                                                                                                     indent + step)
  }

  function AllRowLines(rows: seq<Row>, indent: nat): seq<Line>
    decreases rows, 0
  {
    if rows == [] then [] else RowLines(rows[0], indent) + AllRowLines(rows[1..], indent)
  }

  /** What is read where a block stands: each line without as many characters as the first one is indented. */
  function Clipped(text: string, indent: nat): string { if indent <= |text| then text[indent..] else "" }

  function ClippedAll(raws: seq<Raw>, indent: nat): seq<string> {
    seq(|raws|, i requires 0 <= i < |raws| => Clipped(raws[i].text, indent))
  }

  function Meaning(form: Form, indent: nat): Value
    decreases form, 0
  {
    match form
    case Nothing => Null
    case Token(token) => ParseScalar(token)
    case Block(raws) => Str(TrimNewlines(Join(ClippedAll(raws, indent))))
    case Fields(fields) => Map(Collected([], FieldMeanings(fields, indent)))
    case Rows(rows) => List(RowMeanings(rows, indent))
  }

  function FieldMeanings(fields: seq<Field>, indent: nat): seq<Entry>
    decreases fields, 0
  {
    if fields == [] then []
    else [Entry(fields[0].key, Meaning(fields[0].form, indent + fields[0].step))] + FieldMeanings(fields[1..], indent)
  }

  function RowMeaning(row: Row, indent: nat): Value
    decreases row, 1
  {
    match row
    case Bare(token) => ParseScalar(token)
    case Opened(key, token, step, more) =>
      Map(Collected([Entry(key, ParseScalar(token))], Collected([], FieldMeanings(more, indent + step))))
  }

  function RowMeanings(rows: seq<Row>, indent: nat): seq<Value>
    decreases rows, 0
  {
    if rows == [] then [] else [RowMeaning(rows[0], indent)] + RowMeanings(rows[1..], indent)
  }

  /** The dictionary a list of assignments leaves: see `CollectedExact`. */
  function Collected(dict: seq<Entry>, more: seq<Entry>): seq<Entry> { PutAll(dict, more) }

  /* ---- forms that can be written ---- */

  ghost predicate GoodForm(form: Form)
    decreases form, 0
  {
    match form
    case Nothing => true
    case Token(token) => FieldText(token)
    case Block(raws) => raws != [] && raws[0].more == 0
    case Fields(fields) => fields != [] && forall f | f in fields :: GoodField(f)
    case Rows(rows) => rows != [] && forall r | r in rows :: GoodRow(r)
  }

  ghost predicate GoodField(f: Field)
    decreases f, 1
  {
    PlainKey(f.key) && !IsItem(f.key) && GoodForm(f.form)
  }

  ghost predicate GoodRow(r: Row)
    decreases r, 1
  {
    match r
    case Bare(token) => FieldText(token) && ':' !in token
    case Opened(key, token, _, more) =>
      PlainKey(key) && (token == "" || FieldText(token)) && forall f | f in more :: GoodField(f)
  }

  /* ---- one line ---- */

  lemma HeaderShape(key: string, token: string)
    requires Trimmed(key) && Trimmed(token)
    ensures ':' in Header(key, token) && Trimmed(Header(key, token)) && Header(key, token) != ""
  {
    hide IsSpace;
    var text := Header(key, token);
    assert text[|key|] == ':';
    assert !IsSpace(':') by { ColonIsNoSpace(); }
    if key != "" { assert text[0] == key[0]; }
    if token != "" { assert text[|text| - 1] == token[|token| - 1]; }
  }

  lemma ColonIsNoSpace()
    ensures !IsSpace(':')
  {}

  lemma SplitsHeader(key: string, token: string)
    requires PlainKey(key) && (token == "" || FieldText(token))
    ensures SplitKeyValue(Header(key, token)) == Some((key, if token == "" then None else Some(token)))
    ensures !IsItem(key) ==> !IsItem(Header(key, token))
  {
    hide SplitKeyValue, IsItem, OneLine, Trimmed;
    if token == "" {
      SplitHeader(key);
      if !IsItem(key) { KeyIsNotItem(key, ":"); }
    } else {
      SplitField(key, token);
      assert Header(key, token) == key + ": " + token == key + (": " + token);
      if !IsItem(key) { KeyIsNotItem(key, ": " + token); }
    }
  }

  lemma SplitsBlock(key: string)
    requires PlainKey(key)
    ensures SplitKeyValue(Header(key, "|")) == Some((key, Some("|")))
    ensures !IsItem(key) ==> !IsItem(Header(key, "|"))
  {
    var content := key + ": " + "|";
    FindIs(content, ':', |key|);
    assert content[..|key|] == key && content[|key| + 1..] == " " + "|";
    StripBlank("|");
    assert content == key + (": " + "|");
    if !IsItem(key) { KeyIsNotItem(key, ": " + "|"); }
  }

  lemma EntryAtNothing(lines: seq<Line>, i: nat, indent: nat, key: string)
    requires i < |lines| && lines[i] == Line(indent, Header(key, "")) && PlainKey(key) && !IsItem(key)
    requires i + 1 < |lines| ==> lines[i + 1].indent <= indent
    ensures EntryAt(lines, i, indent) == Ok(Entry(key, Null), i + 1)
  {
    SplitsHeader(key, "");
  }

  lemma {:induction false} BlockEnds(lines: seq<Line>, i: nat, end: nat, indent: nat)
    requires i <= end <= |lines| && (forall k | i <= k < end :: lines[k].indent >= indent)
    requires end < |lines| ==> lines[end].indent < indent
    ensures BlockEnd(lines, i, indent) == end
    decreases end - i
  {
    if i < end { BlockEnds(lines, i + 1, end, indent); }
  }

  lemma EntryIsBlock(lines: seq<Line>, i: nat, indent: nat, key: string)
    requires i + 1 < |lines| && lines[i].indent == indent && !IsItem(lines[i].content)
    requires SplitKeyValue(lines[i].content) == Some((key, Some("|")))
    ensures var (child, end) := (lines[i + 1].indent, BlockEnd(lines, i + 1, lines[i + 1].indent));
            EntryAt(lines, i, indent) == Ok(Entry(key, Str(BlockText(lines, i + 1, end, child))), end)
  {
    hide SplitKeyValue, BlockText, BlockEnd;
  }

  lemma EntryAtBlock(lines: seq<Line>, i: nat, indent: nat, step: Deeper, key: string, raws: seq<Raw>)
    requires i < |lines| && lines[i] == Line(indent, Header(key, "|")) && PlainKey(key) && !IsItem(key)
    requires GoodForm(Block(raws)) && StandsAt(lines, i + 1, ChildLines(Block(raws), indent + step), indent)
    ensures EntryAt(lines, i, indent) == Ok(Entry(key, Meaning(Block(raws), indent + step)), i + 1 + |raws|)
  {
    hide EntryAt, SplitKeyValue, BlockText, BlockEnd, TrimNewlines, Join, PlainKey, IsItem, ClippedAll, Header;
    var block := ChildLines(Block(raws), indent + step);
    var end := i + 1 + |raws|;
    SplitsBlock(key);
    assert lines[i + 1 + 0] == block[0];
    forall k | i + 1 <= k < end
      ensures lines[k] == Line(indent + step + raws[k - i - 1].more, raws[k - i - 1].text)
    {
      assert lines[i + 1 + (k - i - 1)] == block[k - i - 1];
    }
    BlockEnds(lines, i + 1, end, indent + step);
    BlockTextIs(lines, i + 1, end, indent + step, raws);
    EntryIsBlock(lines, i, indent, key);
  }

  lemma BlockTextIs(lines: seq<Line>, index: nat, end: nat, indent: nat, raws: seq<Raw>)
    requires index <= end <= |lines| && |raws| == end - index
    requires forall k | index <= k < end :: lines[k].content == raws[k - index].text
    ensures BlockText(lines, index, end, indent) == TrimNewlines(Join(ClippedAll(raws, indent)))
  {
    var read := seq(end - index, i requires 0 <= i < end - index =>
      var c := lines[index + i].content; if indent <= |c| then c[indent..] else "");
    assert read == ClippedAll(raws, indent);
  }

  /* ---- reading forms ---- */

  lemma FieldFirstLine(fields: seq<Field>, indent: nat)
    requires fields != []
    ensures var l := AllFieldLines(fields, indent);
            l != [] && l[0].indent == indent && l[0].content == FieldLines(fields[0], indent)[0].content
  {
    assert FieldLines(fields[0], indent) <= AllFieldLines(fields, indent);
  }

  lemma RowFirstLine(rows: seq<Row>, indent: nat)
    requires rows != []
    ensures var l := AllRowLines(rows, indent); l != [] && l[0].indent == indent && IsItem(l[0].content)
  {
    assert RowLines(rows[0], indent) <= AllRowLines(rows, indent);
  }

  lemma FirstFieldIsNoItem(f: Field, indent: nat)
    requires GoodField(f)
    ensures !IsItem(FieldLines(f, indent)[0].content)
  {
    if f.form.Token? { SplitsHeader(f.key, f.form.token); } else { SplitsHeader(f.key, ""); }
    SplitsBlock(f.key);
  }

  lemma {:induction false} ReadField(lines: seq<Line>, i: nat, indent: nat, f: Field)
    requires GoodField(f) && StandsAt(lines, i, FieldLines(f, indent), indent)
    ensures i < |lines| && lines[i].indent == indent
    ensures EntryAt(lines, i, indent) == Ok(Entry(f.key, Meaning(f.form, indent + f.step)), i + |FieldLines(f, indent)|)
    decreases f, 1
  {
    hide EntryAt, ChildAt, ParseScalar, OneLine, SplitKeyValue, AllFieldLines, AllRowLines, PlainKey, IsItem;
    var (printed, inner) := (FieldLines(f, indent), indent + f.step);
    assert lines[i] == printed[0];
    match f.form
    case Nothing => EntryAtNothing(lines, i, indent, f.key);
    case Token(token) =>
      SplitsHeader(f.key, token);
      EntryAtInline(lines, i, indent, f.key, token);
    case Block(raws) =>
      StandsTail(lines, i, printed[0], ChildLines(f.form, inner), indent);
      EntryAtBlock(lines, i, indent, f.step, f.key, raws);
    case _ =>
      StandsTail(lines, i, printed[0], ChildLines(f.form, inner), indent);
      ReadChild(lines, i + 1, indent, inner, f.form);
      EntryAtHeader(lines, i, indent, f.key);
  }

  /** What stands at `inner`, deeper than the `indent` of its parent. */
  lemma {:induction false} ReadChild(lines: seq<Line>, i: nat, indent: nat, inner: nat, form: Form)
    requires GoodForm(form) && (form.Fields? || form.Rows?) && indent < inner
    requires StandsAt(lines, i, ChildLines(form, inner), indent)
    ensures i < |lines| && lines[i].indent == inner
    ensures ChildAt(lines, i) == Ok(Meaning(form, inner), i + |ChildLines(form, inner)|)
    decreases form, 0
  {
    hide EntryAt, MappingFrom, ItemAt, ListFrom, AllFieldLines, AllRowLines, FieldMeanings, RowMeanings, GoodField,
         GoodRow, FieldLines, RowLines;
    if form.Fields? {
      FieldFirstLine(form.fields, inner);
      assert lines[i] == ChildLines(form, inner)[0];
      FirstFieldIsNoItem(form.fields[0], inner);
      ReadFields(lines, i, inner, form.fields, []);
    } else {
      RowFirstLine(form.rows, inner);
      assert lines[i] == ChildLines(form, inner)[0];
      ReadRows(lines, i, inner, form.rows, []);
      assert [] + RowMeanings(form.rows, inner) == RowMeanings(form.rows, inner);
    }
  }

  /** The mapping loop reads fields to their meanings, in order, put after what it has. */
  lemma {:induction false} ReadFields(lines: seq<Line>, i: nat, indent: nat, fields: seq<Field>, acc: seq<Entry>)
    requires (forall f | f in fields :: GoodField(f)) && StandsAt(lines, i, AllFieldLines(fields, indent), indent)
    requires Closed(lines, i + |AllFieldLines(fields, indent)|, indent)
    ensures MappingFrom(lines, i, indent, acc) ==
            Ok(Collected(acc, FieldMeanings(fields, indent)), i + |AllFieldLines(fields, indent)|)
    decreases fields, 0
  {
    hide EntryAt, MappingFrom, Put, GoodField, FieldLines, Meaning;
    if fields == [] {
      LoopsEnd(lines, i, indent, acc, []);
    } else {
      var f, rest := fields[0], fields[1..];
      var head, tail := FieldLines(f, indent), AllFieldLines(rest, indent);
      if rest != [] { FieldFirstLine(rest, indent); }
      StandsHead(lines, i, head, tail, indent);
      ReadField(lines, i, indent, f);
      MappingStep(lines, i, indent, acc);
      var v := Meaning(f.form, indent + f.step);
      ReadFields(lines, i + |head|, indent, rest, Put(acc, f.key, v));
      PutAllCons(acc, Entry(f.key, v), FieldMeanings(rest, indent));
    }
  }

  lemma NoFields(indent: nat)
    ensures AllFieldLines([], indent) == [] && FieldMeanings([], indent) == []
  {}

  /** An item with a colon: its own entry, extended by what stands deeper. */
  lemma ItemOpens(lines: seq<Line>, i: nat, indent: nat, key: string, token: string)
    requires i < |lines| && lines[i] == Line(indent, "- " + Header(key, token))
    requires PlainKey(key) && (token == "" || FieldText(token))
    ensures var first := [Entry(key, ParseScalar(token))];
            if i + 1 < |lines| && lines[i + 1].indent > indent then
              ItemAt(lines, i, indent) == match MappingFrom(lines, i + 1, lines[i + 1].indent, [])
                                          case Err(e) => Err(e)
                                          case Ok(more, next) => Ok(Map(PutAll(first, more)), next)
            else ItemAt(lines, i, indent) == Ok(Map(first), i + 1)
  {
    hide ParseScalar, OneLine, SplitKeyValue, MappingFrom, ChildAt, Strip, Trimmed, Header, PutAll;
    var text := Header(key, token);
    assert Trimmed("") by { EmptyTrimmed(); }
    HeaderShape(key, token);
    SplitsHeader(key, token);
    assert ("- " + text)[2..] == text && IsItem("- " + text);
    assert Strip(text) == text;
    assert InlineEntry(text) == [Entry(key, ParseScalar(token))];
  }

  lemma EmptyTrimmed()
    ensures Trimmed("")
  {}

  /** A list item: a token, or a dictionary that its first field opens and deeper ones extend. */
  lemma {:induction false} ReadRow(lines: seq<Line>, i: nat, indent: nat, row: Row)
    requires GoodRow(row) && StandsAt(lines, i, RowLines(row, indent), indent)
    ensures i < |lines| && lines[i].indent == indent
    ensures ItemAt(lines, i, indent) == Ok(RowMeaning(row, indent), i + |RowLines(row, indent)|)
    decreases row, 1
  {
    hide ItemAt, ParseScalar, AllFieldLines, MappingFrom, PutAll, FieldMeanings, PlainKey, FieldText, Header;
    var printed := RowLines(row, indent);
    assert lines[i] == printed[0];
    match row
    case Bare(token) => ItemAtInline(lines, i, indent, token);
    case Opened(key, token, step, more) =>
      var inner := indent + step;
      ItemOpens(lines, i, indent, key, token);
      if more == [] {
        NoFields(inner);
        NothingCollected([Entry(key, ParseScalar(token))]);
      } else {
        FieldFirstLine(more, inner);
        StandsTail(lines, i, printed[0], AllFieldLines(more, inner), indent);
        assert lines[i + 1 + 0] == AllFieldLines(more, inner)[0];
        ReadFields(lines, i + 1, inner, more, []);
      }
  }

  lemma NothingCollected(dict: seq<Entry>)
    ensures Collected(dict, []) == dict && Collected(dict, Collected([], [])) == dict
  {}

  lemma {:induction false} ReadRows(lines: seq<Line>, i: nat, indent: nat, rows: seq<Row>, acc: seq<Value>)
    requires (forall r | r in rows :: GoodRow(r)) && StandsAt(lines, i, AllRowLines(rows, indent), indent)
    requires Closed(lines, i + |AllRowLines(rows, indent)|, indent)
    ensures ListFrom(lines, i, indent, acc) == Ok(acc + RowMeanings(rows, indent), i + |AllRowLines(rows, indent)|)
    decreases rows, 0
  {
    hide ItemAt, ListFrom, GoodRow, RowLines, RowMeaning;
    if rows == [] {
      LoopsEnd(lines, i, indent, [], acc);
      assert acc + [] == acc;
    } else {
      var r, rest := rows[0], rows[1..];
      var head, tail := RowLines(r, indent), AllRowLines(rest, indent);
      if rest != [] { RowFirstLine(rest, indent); }
      StandsHead(lines, i, head, tail, indent);
      ReadRow(lines, i, indent, r);
      ListStep(lines, i, indent, acc);
      ReadRows(lines, i + |head|, indent, rest, acc + [RowMeaning(r, indent)]);
      AppendOne(acc, RowMeaning(r, indent), RowMeanings(rest, indent));
    }
  }

  /* ---- what is collected ---- */

  /** The last value assigned to the key. */
  ghost function Latest(more: seq<Entry>, key: string): Option<Value> {
    if more == [] then None
    else if more[|more| - 1].key == key then Some(more[|more| - 1].value)
    else Latest(more[..|more| - 1], key)
  }

  lemma {:induction false} CollectedSnoc(dict: seq<Entry>, more: seq<Entry>, e: Entry)
    ensures Collected(dict, more + [e]) == Put(Collected(dict, more), e.key, e.value)
    decreases |more|
  {
    hide Put;
    if more == [] {
      assert [] + [e] == [e] && [e][1..] == [];
      assert PutAll(dict, [e]) == PutAll(Put(dict, e.key, e.value), []);
    } else {
      assert (more + [e])[1..] == more[1..] + [e];
      CollectedSnoc(Put(dict, more[0].key, more[0].value), more[1..], e);
    }
  }

  lemma PutExact(dict: seq<Entry>, e: Entry, key: string)
    requires DistinctKeys(dict)
    ensures var r := Put(dict, e.key, e.value);
            && DistinctKeys(r) && |dict| <= |r| && (forall i | 0 <= i < |dict| :: r[i].key == dict[i].key)
            && Get(r, key) == if key == e.key then Some(e.value) else Get(dict, key)
  {
    var r, i := Put(dict, e.key, e.value), IndexOf(dict, e.key);
    if key == e.key {
      GetMember(r, r[i]);
    } else if Get(dict, key).Some? {
      GetMember(r, r[IndexOf(dict, key)]);
    } else {
      assert forall n | 0 <= n < |r| :: r[n].key != key;
    }
  }

  /** What is collected holds for each key the last value assigned to it, or the one it had; keys keep their
      places, new ones follow, and where nothing is assigned twice it is the one after the other. */
  lemma {:induction false} CollectedExact(dict: seq<Entry>, more: seq<Entry>, key: string)
    requires DistinctKeys(dict)
    ensures var r := Collected(dict, more);
            && DistinctKeys(r) && |dict| <= |r| && (forall i | 0 <= i < |dict| :: r[i].key == dict[i].key)
            && Get(r, key) == (if Latest(more, key).Some? then Latest(more, key) else Get(dict, key))
            && (DistinctKeys(dict + more) ==> r == dict + more)
    decreases |more|
  {
    hide Put, Get;
    if DistinctKeys(dict + more) { PutAllDistinct(dict, more); }
    if more == [] {
    } else {
      var n := |more| - 1;
      CollectedExact(dict, more[..n], key);
      assert more == more[..n] + [more[n]];
      CollectedSnoc(dict, more[..n], more[n]);
      PutExact(Collected(dict, more[..n]), more[n], key);
    }
  }

  /* ---- documents ---- */

  /** A document of fields is read to the dictionary of their meanings. */
  lemma LoadsFields(fields: seq<Field>)
    requires fields != [] && forall f | f in fields :: GoodField(f)
    ensures LoadTokens(AllFieldLines(fields, 0)) == Doc(Map(Collected([], FieldMeanings(fields, 0))))
  {
    hide MappingFrom, AllFieldLines, FieldMeanings, GoodField;
    var lines := AllFieldLines(fields, 0);
    FieldFirstLine(fields, 0);
    assert StandsAt(lines, 0, lines, 0);
    ReadFields(lines, 0, 0, fields, []);
  }

  /* ---- an item that opens a dictionary ---- */

  /** The lines of a dictionary as a list item: its first entry after the dash, the others deeper. */
  function ItemForm(entries: seq<Entry>, indent: nat, step: Deeper): seq<Line>
    requires entries != [] && IsInline(entries[0].value)
  {
    [Line(indent, "- " + entries[0].key + ": " + InlineText(entries[0].value))]
    + EntriesLayout(entries[1..], indent + step)
  }

  /** Such an item is read to the image of the whole dictionary, all entries in order. */
  lemma {:induction false} ReadItemForm(lines: seq<Line>, i: nat, indent: nat, step: Deeper, entries: seq<Entry>)
    requires entries != [] && IsInline(entries[0].value) && Readable(Map(entries))
    requires StandsAt(lines, i, ItemForm(entries, indent, step), indent)
    ensures match EntriesImage(entries)
            case Some(es) => ItemAt(lines, i, indent) == Ok(Map(es), i + |ItemForm(entries, indent, step)|)
            case None => ItemAt(lines, i, indent).Err?
  {
    hide ItemAt, ParseScalar, EntriesLayout, MappingFrom, InlineText, Readable, EntriesImage, Header, PutAll, FieldText,
         PlainKey, InlineImage;
    var e, rest := entries[0], entries[1..];
    var text := InlineText(e.value);
    var printed := ItemForm(entries, indent, step);
    ItemHead(e, entries);
    assert lines[i] == printed[0];
    ItemOpens(lines, i, indent, e.key, text);
    ImageCons(entries);
    if rest == [] {
      NoEntries(indent + step);
      var first := [Entry(e.key, InlineImage(e.value))];
      assert first + [] == first && EntriesImage(entries) == Some(first);
      assert |printed| == 1;
    } else {
      ReadRest(lines, i, indent, step, printed[0], rest);
      if EntriesImage(entries).Some? { PutOneByOne(entries, EntriesImage(entries).value); }
    }
  }

  lemma ReadRest(lines: seq<Line>, i: nat, indent: nat, step: Deeper, first: Line, rest: seq<Entry>)
    requires rest != [] && forall e | e in rest :: ReadableEntry(e)
    requires StandsAt(lines, i, [first] + EntriesLayout(rest, indent + step), indent)
    ensures i + 1 < |lines| && lines[i + 1].indent == indent + step
    ensures match EntriesImage(rest)
            case Some(es) =>
              MappingFrom(lines, i + 1, indent + step, []) ==
              Ok(PutAll([], es), i + 1 + |EntriesLayout(rest, indent + step)|)
            case None => MappingFrom(lines, i + 1, indent + step, []).Err?
  {
    hide EntriesLayout, MappingFrom, EntriesImage, PutAll, ReadableEntry;
    EntriesFirstLine(rest, indent + step);
    StandsTail(lines, i, first, EntriesLayout(rest, indent + step), indent);
    assert lines[i + 1 + 0] == EntriesLayout(rest, indent + step)[0];
    ReadEntriesBack(lines, i + 1, indent + step, rest, []);
  }

  lemma PutOneByOne(entries: seq<Entry>, es: seq<Entry>)
    requires entries != [] && Readable(Map(entries)) && EntriesImage(entries) == Some(es)
    ensures es != [] && PutAll([], es[1..]) == es[1..] && PutAll([es[0]], es[1..]) == es
  {
    hide EntriesImage, PutAll, Readable;
    ImageKeys(entries);
    ReadableDistinct(entries);
    assert [es[0]] + es[1..] == es && [] + es[1..] == es[1..];
    PutAllDistinct([], es[1..]);
    PutAllDistinct([es[0]], es[1..]);
  }

  lemma ReadableDistinct(entries: seq<Entry>)
    requires Readable(Map(entries))
    ensures DistinctKeys(entries)
  {}

  lemma NoEntries(indent: nat)
    ensures EntriesLayout([], indent) == [] && EntriesImage([]) == Some([])
  {}

  lemma ImageCons(entries: seq<Entry>)
    requires entries != [] && IsInline(entries[0].value)
    ensures match EntriesImage(entries[1..])
            case None => EntriesImage(entries) == None
            case Some(es) => EntriesImage(entries) == Some([Entry(entries[0].key, InlineImage(entries[0].value))] + es)
  {}

  lemma ItemHead(e: Entry, entries: seq<Entry>)
    requires e in entries && Readable(Map(entries)) && IsInline(e.value)
    ensures var text := InlineText(e.value);
            && PlainKey(e.key) && FieldText(text) && ParseScalar(text) == InlineImage(e.value)
            && "- " + e.key + ": " + text == "- " + Header(e.key, text)
            && SplitKeyValue(Header(e.key, text)) == Some((e.key, Some(text)))
            && forall x | x in entries[1..] :: ReadableEntry(x)
  {
    hide ParseScalar, OneLine, SplitKeyValue, Strip, InlineText, NoComment;
    assert ReadableEntry(e);
    assert ScannableEntry(e) && Scannable(e.value);
    InlineShape(e.value);
    HeaderShape(e.key, InlineText(e.value));
    InlineReadsBack(e.value);
    SplitsHeader(e.key, InlineText(e.value));
    assert "- " + e.key + ": " + InlineText(e.value) == "- " + Header(e.key, InlineText(e.value));
  }

  /** A deeper line with the key of the item replaces its value, and keeps its place. */
  lemma DeeperKeyReplaces(lines: seq<Line>, i: nat, indent: nat, row: Row, k: nat)
    requires GoodRow(row) && row.Opened? && StandsAt(lines, i, RowLines(row, indent), indent)
    requires k < |row.more| && row.more[k].key == row.key && forall j | k < j < |row.more| :: row.more[j].key != row.key
    ensures var (r, last) := (ItemAt(lines, i, indent), row.more[k]);
            && r.Ok? && r.next == i + |RowLines(row, indent)| && r.value.Map? && r.value.entries != []
            && r.value.entries[0] == Entry(row.key, Meaning(last.form, indent + row.step + last.step))
  {
    hide ItemAt, RowLines, GoodRow, FieldMeanings, Get, Meaning;
    var (key, inner) := (row.key, indent + row.step);
    ReadRow(lines, i, indent, row);
    var first, es := [Entry(key, ParseScalar(row.token))], FieldMeanings(row.more, inner);
    CollectedExact([], es, key);
    var after := Collected([], es);
    LatestMeaning(row.more, inner, k);
    MemberIsLatest(after, key);
    CollectedExact(first, after, key);
    var r := Collected(first, after);
    assert r[0].key == key;
    GetFirst(r);
  }

  lemma GetFirst(entries: seq<Entry>)
    requires entries != []
    ensures Get(entries, entries[0].key) == Some(entries[0].value)
  {}

  /** In a dictionary the last value of a key is its only one. */
  lemma {:induction false} MemberIsLatest(entries: seq<Entry>, key: string)
    requires DistinctKeys(entries)
    ensures Latest(entries, key) == Get(entries, key)
  {
    if entries == [] {
    } else {
      var n := |entries| - 1;
      MemberIsLatest(entries[..n], key);
      if entries[n].key == key { GetMember(entries, entries[n]); }
      else if Get(entries[..n], key).Some? {
        var x := entries[..n][IndexOf(entries[..n], key)];
        GetMember(entries, x);
      }
    }
  }

  lemma {:induction false} LatestMeaning(fields: seq<Field>, indent: nat, k: nat)
    requires k < |fields| && forall j | k < j < |fields| :: fields[j].key != fields[k].key
    ensures |FieldMeanings(fields, indent)| == |fields|
    ensures Latest(FieldMeanings(fields, indent), fields[k].key) == Some(Meaning(fields[k].form,
                                                                                 indent + fields[k].step))
  {
    hide Meaning;
    FieldMeaningsAt(fields, indent);
    var es := FieldMeanings(fields, indent);
    LatestAt(es, k);
  }

  lemma {:induction false} FieldMeaningsAt(fields: seq<Field>, indent: nat)
    ensures var es := FieldMeanings(fields, indent);
            |es| == |fields| && forall j | 0 <= j < |es| ::
            es[j] == Entry(fields[j].key, Meaning(fields[j].form, indent + fields[j].step))
  {
    hide Meaning;
    if fields == [] {
    } else {
      FieldMeaningsAt(fields[1..], indent);
    }
  }

  lemma {:induction false} LatestAt(es: seq<Entry>, k: nat)
    requires k < |es| && forall j | k < j < |es| :: es[j].key != es[k].key
    ensures Latest(es, es[k].key) == Some(es[k].value)
  {
    if k == |es| - 1 {
    } else {
      LatestAt(es[..|es| - 1], k);
    }
  }

  /* ---- blocks ---- */

  /** The lines of a block have already lost their indentation when it is cut off again, so one line comes back
      as it was exactly when it stands at the margin or is empty, and else loses that many characters. */
  lemma BlockClips(text: string, indent: nat)
    requires text == "" || text[|text| - 1] != '\n'
    ensures Meaning(Block([Raw(0, text)]), indent) == Str(text) <==> indent == 0 || text == ""
    ensures indent <= |text| ==> Meaning(Block([Raw(0, text)]), indent) == Str(text[indent..])
  {
    var clipped := Clipped(text, indent);
    assert ClippedAll([Raw(0, text)], indent) == [clipped];
    assert Join([clipped]) == clipped;
    assert clipped == "" || clipped[|clipped| - 1] != '\n';
  }

  /** A block without deeper lines takes the next line and all that are as deep for its own: a key beside it is
      swallowed. */
  lemma EmptyBlockSwallows(key: string, next: string, token: string)
    requires PlainKey(key) && !IsItem(key)
    ensures var lines := [Line(0, Header(key, "|")), Line(0, Header(next, token))];
            LoadTokens(lines) == Doc(Map([Entry(key, Str(TrimNewlines(Header(next, token))))]))
  {
    hide PlainKey, IsItem, Header, SplitKeyValue, TrimNewlines, EntryAt;
    var lines := [Line(0, Header(key, "|")), Line(0, Header(next, token))];
    SplitsBlock(key);
    BlockEnds(lines, 1, 2, 0);
    BlockTextIs(lines, 1, 2, 0, [Raw(0, Header(next, token))]);
    assert ClippedAll([Raw(0, Header(next, token))], 0) == [Header(next, token)];
    EntryIsBlock(lines, 0, 0, key);
    MappingStep(lines, 0, 0, []);
    var only := [Entry(key, Str(TrimNewlines(Header(next, token))))];
    assert Put([], key, only[0].value) == only;
    LoopsEnd(lines, 2, 0, only, []);
  }

  /* ---- errors ---- */

  /** Which lines no mapping and no list accepts, and with what error. */
  lemma Refused(lines: seq<Line>, i: nat, indent: nat)
    requires i < |lines|
    ensures var (e, x) := (EntryAt(lines, i, indent), ItemAt(lines, i, indent));
            var (deep, item) := (lines[i].indent > indent, "- " <= lines[i].content);
            && (deep ==> e == Err(MappingIndent) && x == Err(ListIndent))
            && (!deep && item ==> e == Err(ListItemInMapping))
            && (!deep && !item ==> x == Err(ItemPrefixExpected))
            && (!deep && !item && ':' !in lines[i].content ==> e == Err(InvalidEntry))
  {
    hide ChildAt, ParseScalar, MappingFrom, BlockText, BlockEnd, InlineEntry;
  }

  /** A document that goes on left of where it began is refused. */
  lemma LeftOfStart(fields: seq<Field>, indent: nat, more: seq<Line>)
    requires fields != [] && (forall f | f in fields :: GoodField(f)) && more != [] && more[0].indent < indent
    ensures LoadTokens(AllFieldLines(fields, indent) + more) == Failed(TrailingContent)
  {
    hide MappingFrom, AllFieldLines, FieldMeanings, GoodField;
    var first := AllFieldLines(fields, indent);
    var lines := first + more;
    FieldFirstLine(fields, indent);
    assert lines[0] == first[0] && lines[|first|] == more[0];
    assert StandsAt(lines, 0, first, indent);
    ReadFields(lines, 0, indent, fields, []);
  }

  /** After the JSON marker the rest of its line is dropped, and what follows is JSON unless it is blank. */
  lemma JsonDocument(head: string, tail: string)
    requires '\n' !in head && "# JSON" <= LStrip(head + "\n" + tail)
    ensures LoadSpec(head + "\n" + tail) == if Strip(tail) == "" then Doc(Null) else Json(tail)
  {
    var text := head + "\n" + tail;
    FindIs(text, '\n', |head|);
    assert text[|head| + 1..] == tail;
  }

  lemma JsonMarkerOnly(text: string)
    requires '\n' !in text && "# JSON" <= LStrip(text)
    ensures LoadSpec(text) == Doc(Null)
  {}

  /** A text of nothing but blanks and comments is null. */
  lemma BlankDocument(text: string)
    requires !("# JSON" <= LStrip(text)) && forall raw | raw in SplitLines(text) :: RStrip(StripCommentSpec(raw)) == ""
    ensures LoadSpec(text) == Doc(Null)
  {
    hide SplitLines, StripCommentSpec, RStrip, LStrip;
    NoTokens(SplitLines(text));
  }

  lemma {:induction false} NoTokens(raws: seq<string>)
    requires forall raw | raw in raws :: RStrip(StripCommentSpec(raw)) == ""
    ensures TokensSpec(raws) == []
  {
    hide StripCommentSpec, RStrip, LStrip;
    if raws == [] {
    } else {
      assert TokenSpec(raws[0]) == [];
      NoTokens(raws[1..]);
    }
  }

  /* ---- tokens ---- */

  /** The letters of the word, each in either case. */
  predicate Spells(token: string, word: string) {
    |token| == |word| && forall i | 0 <= i < |word| :: token[i] == word[i] || (token[i] as int == word[i] as int - 32)
  }

  lemma SpellsLower(token: string, word: string)
    requires Spells(token, word) && forall c | c in word :: 'a' <= c <= 'z'
    ensures Lower(token) == word
  {
    forall i | 0 <= i < |word| ensures ToLower(token[i]) == word[i] {
      assert word[i] in word;
      if token[i] != word[i] { assert 'A' <= token[i] <= 'Z'; }
    }
  }

  /** The three words are read in any case. */
  lemma WordsInAnyCase(token: string)
    ensures Spells(token, "null") ==> ParseScalar(token) == Null
    ensures Spells(token, "true") ==> ParseScalar(token) == Bool(true)
    ensures Spells(token, "false") ==> ParseScalar(token) == Bool(false)
  {
    if Spells(token, "null") { SpellsLower(token, "null"); }
    if Spells(token, "true") { SpellsLower(token, "true"); }
    if Spells(token, "false") { SpellsLower(token, "false"); }
  }

  lemma NoWord(token: string)
    requires token != "" && ToLower(token[0]) !in {'n', 't', 'f'}
    ensures Keyword(token).None?
  {
    assert Lower(token)[0] == ToLower(token[0]);
  }

  /** Either quote holds any text. */
  lemma EitherQuote(text: string, quote: char)
    requires quote == '"' || quote == '\''
    ensures ParseScalar([quote] + text + [quote]) == Str(text)
  {
    var token := [quote] + text + [quote];
    NoWord(token);
    assert token[1..|token| - 1] == text;
  }

  /** Parts with a comma and a blank between them. */
  function Listed(parts: seq<string>): string {
    if parts == [] then "" else if |parts| == 1 then parts[0] else parts[0] + ", " + Listed(parts[1..])
  }

  ghost predicate Part(p: string) { p != "" && Trimmed(p) && ',' !in p }

  lemma {:induction false} ListedShape(parts: seq<string>)
    requires parts != [] && forall p | p in parts :: Part(p)
    ensures Trimmed(Listed(parts)) && Listed(parts) != ""
  {
    hide IsSpace;
    assert Part(parts[0]);
    if |parts| == 1 {
    } else {
      ListedShape(parts[1..]);
      var (a, b) := (parts[0], Listed(parts[1..]));
      var text := a + ", " + b;
      assert text[0] == a[0] && text[|text| - 1] == b[|b| - 1];
    }
  }

  lemma SplitFirst(first: string, rest: string)
    requires ',' !in first
    ensures SplitOn(first + "," + rest, ',') == [first] + SplitOn(rest, ',') && SplitOn(first, ',') == [first]
  {
    var text := first + "," + rest;
    FindIs(text, ',', |first|);
    FindIs(first, ',', |first|);
    assert text[..|first|] == first && text[|first| + 1..] == rest;
  }

  lemma ListedFirst(parts: seq<string>)
    requires parts != []
    ensures Listed(parts) == if |parts| == 1 then parts[0] else parts[0] + ", " + Listed(parts[1..])
  {}

  /** Splitting at the commas gives the parts back, each but the first with a blank before it. */
  lemma {:induction false} SplitsListed(parts: seq<string>, blank: string)
    requires parts != [] && (forall p | p in parts :: Part(p)) && ',' !in blank
    ensures var split := SplitOn(blank + Listed(parts), ',');
            && |split| == |parts| && split[0] == blank + parts[0]
            && forall i | 0 < i < |parts| :: split[i] == " " + parts[i]
  {
    hide Trimmed, SplitOn, Listed;
    ListedFirst(parts);
    var first := blank + parts[0];
    assert Part(parts[0]);
    if |parts| == 1 {
      SplitFirst(first, "");
    } else {
      var rest := " " + Listed(parts[1..]);
      assert blank + Listed(parts) == first + "," + rest;
      SplitFirst(first, rest);
      SplitsListed(parts[1..], " ");
      var split := SplitOn(rest, ',');
      forall i | 0 < i < |parts| ensures ([first] + split)[i] == " " + parts[i] {
        assert parts[1..][i - 1] == parts[i];
      }
    }
  }

  lemma BracketParts(inner: string)
    requires inner != "" && Trimmed(inner)
    ensures var (v, split) := (ParseScalar("[" + inner + "]"), SplitOn(inner, ','));
            && v.List? && |v.items| == |split| && forall i | 0 <= i < |split| ::
               v.items[i] == ParseScalar(Strip(split[i]))
  {
    hide IsSpace, RStrip, LStrip, Keyword, SplitOn, Trimmed, Strip;
    var token := "[" + inner + "]";
    BracketIsNoWord(token);
    assert token[1..|token| - 1] == inner && Strip(inner) == inner;
  }

  /** A list in brackets is read part by part. */
  lemma BracketList(parts: seq<string>)
    requires parts != [] && forall p | p in parts :: Part(p)
    ensures var v := ParseScalar("[" + Listed(parts) + "]");
            && v.List? && |v.items| == |parts| && forall i | 0 <= i < |parts| :: v.items[i] == ParseScalar(parts[i])
  {
    hide ParseScalar, SplitOn, Trimmed, Strip;
    var inner := Listed(parts);
    ListedShape(parts);
    BracketParts(inner);
    SplitsListed(parts, "");
    assert "" + inner == inner;
    var split := SplitOn(inner, ',');
    forall i | 0 <= i < |parts| ensures Strip(split[i]) == parts[i] {
      assert Part(parts[i]);
      if i == 0 { assert split[0] == "" + parts[0] == parts[0]; } else { StripBlank(parts[i]); }
    }
  }

  lemma BracketIsNoWord(token: string)
    requires token != "" && token[0] == '['
    ensures Keyword(token).None?
  {
    NoWord(token);
  }

  /** Anything else is the text itself: without a point when it is no integer, with one when it is no float. */
  lemma PlainToken(token: string)
    requires token != "" && token[0] !in {'"', '\'', '[', '{'} && Keyword(token).None?
    ensures ParseScalar(token) ==
            if '.' in token then if IsFloatLiteral(token) then Float(token) else Str(token)
            else if ParseInt(token).Some? then Int(ParseInt(token).value) else Str(token)
  {}

  /** A dash without text takes what stands deeper, or null; no token has this form (EmptyItemUnreachable). */
  lemma BlankItem(lines: seq<Line>, i: nat, indent: nat, inner: nat, form: Form)
    requires i < |lines| && lines[i] == Line(indent, "- ") && indent < inner
    ensures (i + 1 < |lines| ==> lines[i + 1].indent <= indent) ==> ItemAt(lines, i, indent) == Ok(Null, i + 1)
    ensures GoodForm(form) && (form.Fields? || form.Rows?)
            && StandsAt(lines, i + 1, ChildLines(form, inner), indent) ==>
              ItemAt(lines, i, indent) == Ok(Meaning(form, inner), i + 1 + |ChildLines(form, inner)|)
  {
    hide ChildAt, GoodForm, ChildLines, Meaning;
    assert "- "[2..] == "" && IsItem("- ");
    if GoodForm(form) && (form.Fields? || form.Rows?) && StandsAt(lines, i + 1, ChildLines(form, inner), indent) {
      ReadChild(lines, i + 1, indent, inner, form);
    }
  }

  /* ---- comments ---- */

  // Text outside quotes, and text within a pair of them.
  datatype Piece = Bareword(text: string) | Quoted(quote: char, text: string)

  predicate GoodPiece(p: Piece) {
    match p
    case Bareword(text) => NoQuotes(text) && HashesInside(text)
    case Quoted(quote, text) => IsQuote(quote) && quote !in text
  }

  function PieceText(p: Piece): string {
    match p
    case Bareword(text) => text
    case Quoted(quote, text) => [quote] + text + [quote]
  }

  function Written(pieces: seq<Piece>): string {
    if pieces == [] then "" else PieceText(pieces[0]) + Written(pieces[1..])
  }

  lemma {:induction false} CutInQuotes(line: string, i: nat, j: nat, quote: char)
    requires i <= j <= |line| && forall k | i <= k < j :: line[k] != quote
    ensures Cut(line, i, Some(quote)) == Cut(line, j, Some(quote))
    decreases j - i
  {
    if i < j { CutInQuotes(line, i + 1, j, quote); }
  }

  predicate StandsIn(line: string, i: nat, text: string) { i + |text| <= |line| && line[i..i + |text|] == text }

  lemma CutBareword(line: string, i: nat, text: string)
    requires NoQuotes(text) && HashesInside(text) && StandsIn(line, i, text)
    ensures Cut(line, i, None) == Cut(line, i + |text|, None)
  {
    hide IsSpace, IsQuote, Cut;
    forall k {:trigger line[k]} | i <= k < i + |text|
      ensures !IsQuote(line[k]) && (line[k] == '#' ==> k > 0 && !IsSpace(line[k - 1]))
    {
      assert line[k] == text[k - i];
      if line[k] == '#' { assert line[k - 1] == text[k - i - 1]; }
    }
    CutPlain(line, i, i + |text|);
  }

  lemma CutQuotedText(line: string, i: nat, quote: char, text: string)
    requires IsQuote(quote) && quote !in text && i + |text| + 1 < |line|
    requires line[i] == quote && line[i + 1 + |text|] == quote && StandsIn(line, i + 1, text)
    ensures Cut(line, i, None) == Cut(line, i + |text| + 2, None)
  {
    hide IsSpace, Cut;
    var end := i + 1 + |text|;
    forall k | i + 1 <= k < end ensures line[k] != quote {
      assert line[k] == text[k - i - 1];
    }
    CutInQuotes(line, i + 1, end, quote);
    CutAtQuote(line, i, None);
    CutAtQuote(line, end, Some(quote));
  }

  lemma CutAtQuote(line: string, i: nat, open: Option<char>)
    requires i < |line| && IsQuote(line[i]) && (open.None? || open == Some(line[i]))
    ensures Cut(line, i, open) == Cut(line, i + 1, if open.None? then Some(line[i]) else None)
  {
    hide IsSpace;
  }

  lemma QuotedParts(line: string, i: nat, quote: char, text: string)
    requires StandsIn(line, i, [quote] + text + [quote])
    ensures i + |text| + 1 < |line| && line[i] == quote && line[i + 1 + |text|] == quote && StandsIn(line, i + 1, text)
  {
    var whole := [quote] + text + [quote];
    assert |whole| == |text| + 2 && whole[0] == quote && whole[1 + |text|] == quote;
    forall k | 0 <= k < |whole| ensures line[i + k] == whole[k] {
      assert line[i..i + |whole|][k] == whole[k];
    }
    assert line[i + 0] == whole[0] && line[i + (1 + |text|)] == whole[1 + |text|];
    forall k | 0 <= k < |text| ensures line[i + 1..i + 1 + |text|][k] == text[k] {
      assert line[i + (k + 1)] == whole[k + 1];
    }
  }

  lemma CutPiece(line: string, i: nat, p: Piece)
    requires GoodPiece(p) && StandsIn(line, i, PieceText(p))
    ensures Cut(line, i, None) == Cut(line, i + |PieceText(p)|, None)
  {
    hide Cut, NoQuotes, HashesInside, StandsIn;
    match p
    case Bareword(text) => CutBareword(line, i, text);
    case Quoted(quote, text) =>
      QuotedParts(line, i, quote, text);
      CutQuotedText(line, i, quote, text);
  }

  lemma BothStandIn(line: string, i: nat, a: string, b: string)
    requires StandsIn(line, i, a + b)
    ensures StandsIn(line, i, a) && StandsIn(line, i + |a|, b)
  {
    var ab := a + b;
    assert line[i..i + |ab|][..|a|] == a && line[i..i + |ab|][|a|..] == b;
  }

  lemma {:induction false} CutPieces(line: string, i: nat, pieces: seq<Piece>)
    requires (forall p | p in pieces :: GoodPiece(p)) && StandsIn(line, i, Written(pieces))
    ensures Cut(line, i, None) == Cut(line, i + |Written(pieces)|, None)
    decreases |pieces|
  {
    hide Cut, GoodPiece, PieceText, StandsIn;
    if pieces != [] {
      BothStandIn(line, i, PieceText(pieces[0]), Written(pieces[1..]));
      CutPiece(line, i, pieces[0]);
      CutPieces(line, i + |PieceText(pieces[0])|, pieces[1..]);
    }
  }

  lemma CutAtComment(text: string, blank: char, comment: string)
    requires IsSpace(blank)
    ensures Cut(text + [blank] + "#" + comment, |text|, None) == |text| + 1
    ensures Cut(text, |text|, None) == |text|
  {
    var line := text + [blank] + "#" + comment;
    assert line[|text|] == blank && line[|text| + 1] == '#';
  }

  lemma RStripBlank(text: string, blank: char)
    requires IsSpace(blank)
    ensures RStrip(text + [blank]) == RStrip(text)
  {
    hide IsSpace;
    assert (text + [blank])[..|text|] == text;
  }

  /** A line of words and quoted texts, in either quote and with any hashes and other quotes inside, loses a comment
      that comes after a blank, and nothing without one. */
  lemma CommentAfterText(pieces: seq<Piece>, blank: char, comment: string)
    requires (forall p | p in pieces :: GoodPiece(p)) && IsSpace(blank)
    ensures StripCommentSpec(Written(pieces) + [blank] + "#" + comment) == RStrip(Written(pieces))
    ensures StripCommentSpec(Written(pieces)) == RStrip(Written(pieces))
  {
    hide GoodPiece, IsSpace, RStrip, Cut, Written;
    var text := Written(pieces);
    var line := text + [blank] + "#" + comment;
    assert line[0..|text|] == text && text[0..|text|] == text && line[..|text| + 1] == text + [blank];
    CutPieces(text, 0, pieces);
    CutPieces(line, 0, pieces);
    CutAtComment(text, blank, comment);
    RStripBlank(text, blank);
  }
}
