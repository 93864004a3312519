/** The indentation-sensitive reader of yaml.py: spec functions, and the loops proved against them. */
module YamlReader {
  import opened Values
  import opened PyText

  datatype YamlError =
    | MappingIndent | ListItemInMapping | ListIndent | ItemPrefixExpected | InvalidEntry | TrailingContent

  datatype Line = Line(indent: nat, content: string)

  // A parsed value and the index of the first unread line.
  datatype Parsed<+T> = Ok(value: T, next: nat) | Err(error: YamlError)

  // `Json` stands for the branch that hands the rest of the text to json.loads.
  datatype Loaded = Doc(value: Value) | Json(payload: string) | Failed(error: YamlError)

  /* ---- comments and lines ---- */

  predicate IsQuote(c: char) { c == '"' || c == '\'' }

  /** The open quote, if any, once `c` has been read. */
  function QuoteAfter(open: Option<char>, c: char): Option<char> {
    if !IsQuote(c) then open
    else if open.None? then Some(c)
    else if open.value == c then None
    else open
  }

  predicate CommentStarts(line: string, i: nat, open: Option<char>)
    requires i < |line|
  {
    line[i] == '#' && open.None? && (i == 0 || IsSpace(line[i - 1]))
  }

  /** Where the comment begins, scanning from `i` with quote state `open`. */
  function Cut(line: string, i: nat, open: Option<char>): (n: nat)
    requires i <= |line|
    ensures i <= n <= |line|
    decreases |line| - i
  {
    if i == |line| || CommentStarts(line, i, QuoteAfter(open, line[i])) then i
    else Cut(line, i + 1, QuoteAfter(open, line[i]))
  }

  function StripCommentSpec(line: string): string {
    RStrip(line[..Cut(line, 0, None)])
  }

  method StripComment(line: string) returns (r: string)
    ensures r == StripCommentSpec(line)
  {
    var inQuote, quoteChar, result := false, '"', "";
    var i := 0;
    while i < |line|
      invariant i <= |line| && result == line[..i]
      invariant Cut(line, i, if inQuote then Some(quoteChar) else None) == Cut(line, 0, None)
    {
      var c := line[i];
      if IsQuote(c) {
        if !inQuote {
          inQuote, quoteChar := true, c;
        } else if quoteChar == c {
          inQuote := false;
        }
      }
      if c == '#' && !inQuote && (result == "" || IsSpace(result[|result| - 1])) {
        break;
      }
      result := result + [c];
      i := i + 1;
    }
    r := RStrip(result);
  }

  /** Zero or one token for a raw line. */
  function TokenSpec(raw: string): seq<Line> {
    var line := RStrip(StripCommentSpec(raw));
    if line == "" then [] else [Line(LeadingBlanks(line), LStrip(line))]
  }

  function TokensSpec(raws: seq<string>): seq<Line> {
    FlatMap(TokenSpec, raws)
  }

  method TokeniseLine(raw: string) returns (tokens: seq<Line>)
    ensures tokens == TokenSpec(raw)
  {
    var line := StripComment(raw);
    line := RStrip(line);
    if line == "" { return []; }
    return [Line(LeadingBlanks(line), LStrip(line))];
  }

  method Tokenise(text: string) returns (tokens: seq<Line>)
    ensures tokens == TokensSpec(SplitLines(text))
  {
    tokens := [];
    var raws := SplitLines(text);
    for i := 0 to |raws|
      invariant tokens == TokensSpec(raws[..i])
    {
      FlatMapPrefix(TokenSpec, raws, i);
      var more := TokeniseLine(raws[i]);
      tokens := tokens + more;
    }
    assert raws[..|raws|] == raws;
  }

  /* ---- scalars ---- */

  function SplitKeyValue(content: string): Option<(string, Option<string>)> {
    var n := Find(content, ':');
    if n == |content| then None
    else
      var value := Strip(content[n + 1..]);
      Some((Strip(content[..n]), if value == "" then None else Some(value)))
  }

  predicate Bracketed(token: string, open: char, close: char) {
    token != "" && token[0] == open && token[|token| - 1] == close
  }

  /** token[1:-1]. */
  function Inner(token: string): (r: string)
    ensures |token| > 0 ==> |r| < |token|
  {
    if |token| < 2 then "" else token[1..|token| - 1]
  }

  function Keyword(token: string): Option<Value> {
    var word := Lower(token);
    if word == "null" then Some(Null)
    else if word == "true" then Some(Bool(true))
    else if word == "false" then Some(Bool(false))
    else None
  }

  /** What is neither a keyword nor an inline list. */
  function Literal(token: string): Value {
    if token == "{}" then Map([])
    else if Bracketed(token, '"', '"') || Bracketed(token, '\'', '\'') then Str(Inner(token))
    else if '.' in token then if IsFloatLiteral(token) then Float(token) else Str(token)
    else match ParseInt(token) { case Some(n) => Int(n) case None => Str(token) }
  }

  function ParseScalar(token: string): Value
    decreases |token|
  {
    if token == "" then Str("")
    else if Keyword(token).Some? then Keyword(token).value
    else if Bracketed(token, '[', ']') then
      var inner := Strip(Inner(token));
      if inner == "" then List([])
      else
        var parts := SplitOn(inner, ',');
        List(seq(|parts|, i requires 0 <= i < |parts| =>
          assert parts[i] in parts;
          ParseScalar(Strip(parts[i]))))
    else Literal(token)
  }

  /* ---- mappings and lists ---- */

  predicate IsItem(content: string) { "- " <= content }

  /** One turn of the mapping loop: the entry at line `index`, and where the next one starts. */
  function EntryAt(lines: seq<Line>, index: nat, indent: nat): (r: Parsed<Entry>)
    requires index < |lines|
    ensures r.Ok? ==> index < r.next <= |lines|
    decreases |lines| - index, 0
  {
    var line := lines[index];
    var pair := SplitKeyValue(line.content);
    if line.indent > indent then Err(MappingIndent)
    else if IsItem(line.content) then Err(ListItemInMapping)
    else if pair.None? then Err(InvalidEntry)
    else
      var (key, token) := pair.value;
      if token.None? then
        if index + 1 == |lines| || lines[index + 1].indent <= indent then Ok(Entry(key, Null), index + 1)
        else (
          match ChildAt(lines, index + 1)
          case Err(e) => Err(e)
          case Ok(child, next) => Ok(Entry(key, child), next))
      else if token.value == "|" then
        var childIndent := if index + 1 < |lines| then lines[index + 1].indent else indent;
        var next := BlockEnd(lines, index + 1, childIndent);
        Ok(Entry(key, Str(BlockText(lines, index + 1, next, childIndent))), next)
      else Ok(Entry(key, ParseScalar(token.value)), index + 1)
  }

  /** The entries at `indent` from line `index` on, put after `acc`. */
  function MappingFrom(lines: seq<Line>, index: nat, indent: nat, acc: seq<Entry>): (r: Parsed<seq<Entry>>)
    requires index <= |lines|
    ensures r.Ok? ==> index <= r.next <= |lines|
    ensures r.Ok? && r.next < |lines| ==> lines[r.next].indent < indent
    ensures r.Ok? && index < |lines| && indent <= lines[index].indent ==> index < r.next
    decreases |lines| - index, 1
  {
    if index == |lines| || lines[index].indent < indent then Ok(acc, index)
    else
      match EntryAt(lines, index, indent)
      case Err(e) => Err(e)
      case Ok(entry, next) => MappingFrom(lines, next, indent, Put(acc, entry.key, entry.value))
  }

  /** One turn of the list loop. */
  function ItemAt(lines: seq<Line>, index: nat, indent: nat): (r: Parsed<Value>)
    requires index < |lines|
    ensures r.Ok? ==> index < r.next <= |lines|
    decreases |lines| - index, 0
  {
    var line := lines[index];
    var deeper := index + 1 < |lines| && lines[index + 1].indent > indent;
    if line.indent > indent then Err(ListIndent)
    else if !IsItem(line.content) then Err(ItemPrefixExpected)
    else
      var token := Strip(line.content[2..]);
      if token == "" then if deeper then ChildAt(lines, index + 1) else Ok(Null, index + 1)
      else if ':' !in token then Ok(ParseScalar(token), index + 1)
      else if !deeper then Ok(Map(InlineEntry(token)), index + 1)
      else
        match MappingFrom(lines, index + 1, lines[index + 1].indent, [])
        case Err(e) => Err(e)
        case Ok(more, next) => Ok(Map(PutAll(InlineEntry(token), more)), next)
  }

  function ListFrom(lines: seq<Line>, index: nat, indent: nat, acc: seq<Value>): (r: Parsed<seq<Value>>)
    requires index <= |lines|
    ensures r.Ok? ==> index <= r.next <= |lines|
    ensures r.Ok? && r.next < |lines| ==> lines[r.next].indent < indent
    ensures r.Ok? && index < |lines| && indent <= lines[index].indent ==> index < r.next
    decreases |lines| - index, 1
  {
    if index == |lines| || lines[index].indent < indent then Ok(acc, index)
    else
      match ItemAt(lines, index, indent)
      case Err(e) => Err(e)
      case Ok(item, next) => ListFrom(lines, next, indent, acc + [item])
  }

  /** The list or mapping whose first line is `index`. */
  function ChildAt(lines: seq<Line>, index: nat): (r: Parsed<Value>)
    requires index < |lines|
    ensures r.Ok? ==> index < r.next <= |lines|
    ensures r.Ok? && r.next < |lines| ==> lines[r.next].indent < lines[index].indent
    decreases |lines| - index, 2
  {
    if IsItem(lines[index].content) then
      match ListFrom(lines, index, lines[index].indent, [])
      case Err(e) => Err(e)
      case Ok(items, next) => Ok(List(items), next)
    else
      match MappingFrom(lines, index, lines[index].indent, [])
      case Err(e) => Err(e)
      case Ok(entries, next) => Ok(Map(entries), next)
  }

  /** `- key: value` opens a mapping with that one entry. */
  function InlineEntry(token: string): (r: seq<Entry>)
    requires ':' in token
    ensures |r| == 1
  {
    var (key, value) := SplitKeyValue(token).value;
    [Entry(key, ParseScalar(if value.Some? then value.value else ""))]
  }

  function BlockEnd(lines: seq<Line>, index: nat, indent: nat): (n: nat)
    requires index <= |lines|
    ensures index <= n <= |lines|
    decreases |lines| - index
  {
    if index == |lines| || lines[index].indent < indent then index else BlockEnd(lines, index + 1, indent)
  }

  // The content has already lost its indentation when `indent` more characters are dropped.
  function BlockText(lines: seq<Line>, index: nat, next: nat, indent: nat): string
    requires index <= next <= |lines|
  {
    var texts := seq(next - index, i requires 0 <= i < next - index =>
      var c := lines[index + i].content; if indent <= |c| then c[indent..] else "");
    TrimNewlines(Join(texts))
  }

  function TrimNewlines(s: string): (r: string)
    ensures r <= s
  {
    if s == "" || s[|s| - 1] != '\n' then s else TrimNewlines(s[..|s| - 1])
  }

  method ParseMapping(lines: seq<Line>, start: nat, indent: nat) returns (r: Parsed<seq<Entry>>)
    requires start <= |lines|
    ensures r == MappingFrom(lines, start, indent, [])
    decreases |lines| - start, 1
  {
    var mapping: seq<Entry>, index := [], start;
    while index < |lines| && lines[index].indent >= indent
      invariant start <= index <= |lines|
      invariant MappingFrom(lines, index, indent, mapping) == MappingFrom(lines, start, indent, [])
      decreases |lines| - index
    {
      var entry := ReadEntry(lines, index, indent);
      if entry.Err? { return Err(entry.error); }
      mapping, index := Put(mapping, entry.value.key, entry.value.value), entry.next;
    }
    return Ok(mapping, index);
  }

  method ReadEntry(lines: seq<Line>, start: nat, indent: nat) returns (r: Parsed<Entry>)
    requires start < |lines|
    ensures r == EntryAt(lines, start, indent)
    decreases |lines| - start, 0
  {
    var line := lines[start];
    if line.indent > indent { return Err(MappingIndent); }
    if IsItem(line.content) { return Err(ListItemInMapping); }
    var pair := SplitKeyValue(line.content);
    if pair.None? { return Err(InvalidEntry); }
    var (key, token) := pair.value;
    var index := start + 1;
    if token.None? {
      if index >= |lines| || lines[index].indent <= indent { return Ok(Entry(key, Null), index); }
      var child := ParseChild(lines, index);
      if child.Err? { return Err(child.error); }
      return Ok(Entry(key, child.value), child.next);
    }
    if token.value == "|" {
      var childIndent := if index < |lines| then lines[index].indent else indent;
      index := SkipBlock(lines, index, childIndent);
      return Ok(Entry(key, Str(BlockText(lines, start + 1, index, childIndent))), index);
    }
    return Ok(Entry(key, ParseScalar(token.value)), index);
  }

  method SkipBlock(lines: seq<Line>, start: nat, indent: nat) returns (index: nat)
    requires start <= |lines|
    ensures index == BlockEnd(lines, start, indent)
  {
    index := start;
    while index < |lines| && lines[index].indent >= indent
      invariant index <= |lines| && BlockEnd(lines, index, indent) == BlockEnd(lines, start, indent)
    {
      index := index + 1;
    }
  }

  method ParseList(lines: seq<Line>, start: nat, indent: nat) returns (r: Parsed<seq<Value>>)
    requires start <= |lines|
    ensures r == ListFrom(lines, start, indent, [])
    decreases |lines| - start, 1
  {
    var items: seq<Value>, index := [], start;
    while index < |lines| && lines[index].indent >= indent
      invariant start <= index <= |lines|
      invariant ListFrom(lines, index, indent, items) == ListFrom(lines, start, indent, [])
      decreases |lines| - index
    {
      var item := ReadItem(lines, index, indent);
      if item.Err? { return Err(item.error); }
      items, index := items + [item.value], item.next;
    }
    return Ok(items, index);
  }

  method ReadItem(lines: seq<Line>, start: nat, indent: nat) returns (r: Parsed<Value>)
    requires start < |lines|
    ensures r == ItemAt(lines, start, indent)
    decreases |lines| - start, 0
  {
    var line := lines[start];
    if line.indent > indent { return Err(ListIndent); }
    if !IsItem(line.content) { return Err(ItemPrefixExpected); }
    var token := Strip(line.content[2..]);
    var index := start + 1;
    if token == "" {
      if index >= |lines| || lines[index].indent <= indent { return Ok(Null, index); }
      r := ParseChild(lines, index);
      return;
    }
    if ':' in token {
      var mapping := InlineEntry(token);
      if index < |lines| && lines[index].indent > indent {
        var additional := ParseMapping(lines, index, lines[index].indent);
        if additional.Err? { return Err(additional.error); }
        return Ok(Map(PutAll(mapping, additional.value)), additional.next);
      }
      return Ok(Map(mapping), index);
    }
    return Ok(ParseScalar(token), index);
  }

  method ParseChild(lines: seq<Line>, index: nat) returns (r: Parsed<Value>)
    requires index < |lines|
    ensures r == ChildAt(lines, index)
    decreases |lines| - index, 2
  {
    if IsItem(lines[index].content) {
      var items := ParseList(lines, index, lines[index].indent);
      if items.Err? { return Err(items.error); }
      return Ok(List(items.value), items.next);
    }
    var entries := ParseMapping(lines, index, lines[index].indent);
    if entries.Err? { return Err(entries.error); }
    return Ok(Map(entries.value), entries.next);
  }

  /* ---- documents ---- */

  function LoadTokens(lines: seq<Line>): Loaded {
    if lines == [] then Doc(Null)
    else
      match MappingFrom(lines, 0, lines[0].indent, [])
      case Err(e) => Failed(e)
      case Ok(entries, next) => if next != |lines| then Failed(TrailingContent) else Doc(Map(entries))
  }

  /** What follows the first newline. */
  function JsonPayload(text: string): string {
    var n := Find(text, '\n');
    if n == |text| then "" else text[n + 1..]
  }

  function LoadSpec(text: string): Loaded {
    if "# JSON" <= LStrip(text) then
      var payload := JsonPayload(text);
      if Strip(payload) == "" then Doc(Null) else Json(payload)
    else LoadTokens(TokensSpec(SplitLines(text)))
  }

  method SafeLoad(text: string) returns (r: Loaded)
    ensures r == LoadSpec(text)
  {
    if "# JSON" <= LStrip(text) {
      var payload := JsonPayload(text);
      return if Strip(payload) == "" then Doc(Null) else Json(payload);
    }
    var lines := Tokenise(text);
    if lines == [] { return Doc(Null); }
    var parsed := ParseMapping(lines, 0, lines[0].indent);
    if parsed.Err? { return Failed(parsed.error); }
    if parsed.next != |lines| { return Failed(TrailingContent); }
    return Doc(Map(parsed.value));
  }

  /* ---- facts about every input ---- */

  function OpenQuote(prefix: string): Option<char> {
    if prefix == "" then None else QuoteAfter(OpenQuote(prefix[..|prefix| - 1]), prefix[|prefix| - 1])
  }

  /** A comment starts at the first `#` that is outside quotes and follows whitespace or nothing. */
  lemma {:induction false} CutIsFirstComment(line: string, i: nat)
    requires i <= |line|
    ensures var n := Cut(line, i, OpenQuote(line[..i]));
            && (n < |line| ==> CommentStarts(line, n, OpenQuote(line[..n])))
            && forall k :: i <= k < n ==> !CommentStarts(line, k, OpenQuote(line[..k]))
    decreases |line| - i
  {
    if i < |line| {
      assert line[..i + 1][..i] == line[..i];
      CutIsFirstComment(line, i + 1);
    }
  }

  lemma TokenShape(raw: string)
    ensures forall l | l in TokenSpec(raw) :: l.content != "" && Trimmed(l.content)
  {
    var line := RStrip(StripCommentSpec(raw));
    var c := LStrip(line);
    if line != "" && c == "" { assert false; }
  }

  lemma ItemHasText(content: string)
    requires Trimmed(content) && IsItem(content)
    ensures Strip(content[2..]) != ""
  {
    var item := content[2..];
    assert content[1] == ' ';
    assert item != "" && item[|item| - 1] == content[|content| - 1];
    assert RStrip(item) == item;
    assert LStrip(item) != "";
  }

  /** Tokenised text never reaches the empty-item branch: a `- ` line always has an item. */
  lemma {:induction false} EmptyItemUnreachable(raws: seq<string>)
    ensures forall l | l in TokensSpec(raws) :: Trimmed(l.content) && l.content != ""
    ensures forall l | l in TokensSpec(raws) && IsItem(l.content) :: Strip(l.content[2..]) != ""
  {
    hide Trimmed, TokenSpec, Strip;
    if raws == [] {
    } else {
      TokenShape(raws[0]);
      EmptyItemUnreachable(raws[1..]);
      forall l | l in TokensSpec(raws) && IsItem(l.content) ensures Strip(l.content[2..]) != "" {
        ItemHasText(l.content);
      }
    }
  }
}
