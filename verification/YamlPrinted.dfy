/** The values whose printed lines survive the scan for comments, and what each reads back as. */
module YamlPrinted {
  import opened Values
  import opened PyText
  import opened YamlReader
  import opened YamlWriter

  /* ---- the domain: what a printed line must keep when it is scanned ---- */

  /** The comment scan reaches the end of the text. */
  predicate NoComment(content: string) { Cut(content, 0, None) == |content| }

  /** A key on one line, without `:` and without blanks around it. */
  predicate PlainKey(key: string) { Trimmed(key) && OneLine(key) && ':' !in key }

  /** A string that stays on its line: JSON escapes the control characters, but not U+0085,
      U+2028 and U+2029. */
  predicate OneLineString(s: string) { forall c | c in s :: IsBreak(c) ==> c < ' ' }

  predicate ScannableScalar(v: Value) {
    match v
    case Str(s) => OneLineString(s)
    case Float(literal) => IsFloatLiteral(literal)
    case _ => true
  }

  /** The printed lines of the value are its lines again when they are scanned. */
  ghost predicate Scannable(v: Value)
    decreases v, 0
  {
    match v
    case List(items) => forall x | x in items :: Scannable(x) && (IsInline(x) ==> NoComment("- " + InlineText(x)))
    case Map(entries) => DistinctKeys(entries) && forall e | e in entries :: ScannableEntry(e)
    case _ => ScannableScalar(v)
  }

  ghost predicate ScannableEntry(e: Entry)
    decreases e, 1
  {
    && PlainKey(e.key) && Scannable(e.value)
    && NoComment(e.key + if IsInline(e.value) then ": " + InlineText(e.value) else ":")
  }

  /** No key looks like a list item. */
  ghost predicate ItemFree(v: Value)
    decreases v, 0
  {
    match v
    case List(items) => forall x | x in items :: ItemFree(x)
    case Map(entries) => forall e | e in entries :: ItemFreeEntry(e)
    case _ => true
  }

  ghost predicate ItemFreeEntry(e: Entry)
    decreases e, 1
  {
    !IsItem(e.key) && ItemFree(e.value)
  }

  ghost predicate Readable(v: Value) { Scannable(v) && ItemFree(v) }

  ghost predicate ReadableEntry(e: Entry) { ScannableEntry(e) && ItemFreeEntry(e) }

  /* ---- the image: what comes back ---- */

  function InlineImage(v: Value): Value
    requires IsInline(v)
  {
    if v.Str? then Str(Escape(v.s)) else v
  }

  /** A quoted list item with a colon comes back as a one-entry mapping. */
  function ItemImage(v: Value): Option<Value> {
    if !IsInline(v) then None
    else if v.Str? && ':' in Quote(v.s) then Some(Map(InlineEntry(Quote(v.s))))
    else Some(InlineImage(v))
  }

  function ItemsImage(items: seq<Value>): Option<seq<Value>> {
    if items == [] then Some([])
    else
      var head, tail := ItemImage(items[0]), ItemsImage(items[1..]);
      if head.None? || tail.None? then None else Some([head.value] + tail.value)
  }

  function EntryImage(v: Value): Option<Value>
    decreases v, 0
  {
    if IsInline(v) then Some(InlineImage(v))
    else match v
      case List(items) => (match ItemsImage(items) case None => None case Some(xs) => Some(List(xs)))
      case Map(entries) => (match EntriesImage(entries) case None => None case Some(es) => Some(Map(es)))
  }

  function EntriesImage(entries: seq<Entry>): Option<seq<Entry>>
    decreases entries, 0
  {
    if entries == [] then Some([])
    else
      var head, tail := EntryImage(entries[0].value), EntriesImage(entries[1..]);
      if head.None? || tail.None? then None else Some([Entry(entries[0].key, head.value)] + tail.value)
  }

  /* ---- scalars ---- */

  predicate FieldText(t: string) {
    t != "" && Trimmed(t) && OneLine(t) && t != "|"
  }

  lemma QuotedShape(s: string)
    requires OneLineString(s)
    ensures FieldText(Quote(s)) && ('#' in Quote(s) ==> '#' in s)
  {
    EscapeChars(s);
    forall k | 0 <= k < |Quote(s)| ensures !IsBreak(Quote(s)[k]) {
      if 0 < k < |Quote(s)| - 1 { assert Quote(s)[k] == Escape(s)[k - 1]; }
    }
  }

  /** A token that starts like no keyword and no list is a literal. */
  lemma LiteralToken(t: string)
    requires t != "" && ToLower(t[0]) !in "ntf["
    ensures ParseScalar(t) == Literal(t)
  {
    assert Lower(t)[0] == ToLower(t[0]);
  }

  lemma PlainText(t: string)
    requires t != "" && forall c | c in t :: FloatChar(c)
    ensures FieldText(t) && ':' !in t && '#' !in t
  {
    assert t[0] in t && t[|t| - 1] in t;
  }

  lemma FloatReadsBack(t: string)
    requires IsFloatLiteral(t)
    ensures t != "" && ParseScalar(t) == Float(t)
  {
    var u := Unsigned(t);
    assert u[Find(u, '.')] == '.' && u[Find(u, '.')] in t;
    assert FloatChar(t[0]);
    LiteralToken(t);
  }

  lemma IntReadsBack(n: int)
    ensures IntText(n) != "" && ParseScalar(IntText(n)) == Int(n)
    ensures forall c | c in IntText(n) :: FloatChar(c)
  {
    var t := IntText(n);
    IntRoundTrip(n);
    assert t[0] in t;
    LiteralToken(t);
  }

  lemma QuotedReadsBack(s: string)
    ensures ParseScalar(Quote(s)) == Str(Escape(s))
  {
    LiteralToken(Quote(s));
  }

  lemma WordsReadBack()
    ensures ParseScalar("null") == Null && ParseScalar("true") == Bool(true) && ParseScalar("false") == Bool(false)
    ensures ParseScalar("[]") == List([]) && ParseScalar("{}") == Map([])
  {
    assert Lower("null") == "null" && Keyword("null") == Some(Null);
    assert Lower("true") == "true" && Keyword("true") == Some(Bool(true));
    assert Lower("false") == "false" && Keyword("false") == Some(Bool(false));
    assert Lower("[]")[0] == '[' && Inner("[]") == "";
    LiteralToken("{}");
  }

  lemma InlineReadsBack(v: Value)
    requires IsInline(v) && (v.Float? ==> IsFloatLiteral(v.literal))
    ensures ParseScalar(InlineText(v)) == InlineImage(v)
  {
    match v
    case Int(n) => IntReadsBack(n);
    case Str(s) => QuotedReadsBack(s);
    case Float(literal) => FloatReadsBack(literal);
    case _ => WordsReadBack();
  }

  lemma WordsShape()
    ensures forall t | t in ["null", "true", "false", "[]", "{}"] :: FieldText(t) && ':' !in t && '#' !in t
  {}

  /** An inline value prints as a trimmed field on one line. */
  lemma InlineShape(v: Value)
    requires IsInline(v) && (IsScalar(v) ==> ScannableScalar(v))
    ensures FieldText(InlineText(v))
    ensures var t := InlineText(v); if v.Str? then '#' in t ==> '#' in v.s else ':' !in t && '#' !in t
  {
    match v
    case Int(n) => IntReadsBack(n); PlainText(IntText(n));
    case Str(s) => QuotedShape(s);
    case Float(literal) => FloatReadsBack(literal); PlainText(literal);
    case _ => WordsShape();
  }

  /** At the level of one token: which strings the reader returns unchanged. */
  lemma StringTokenRoundTrip(s: string)
    ensures ParseScalar(ScalarText(Str(s))) == Str(s) <==> EscapeFree(s)
  {
    QuotedReadsBack(s);
    EscapeIsIdentity(s);
  }

  /* ---- one line ---- */

  lemma {:induction false} CutNoHash(line: string, i: nat, open: Option<char>)
    requires i <= |line| && forall k :: i <= k < |line| ==> line[k] != '#'
    ensures Cut(line, i, open) == |line|
    decreases |line| - i
  {
    if i < |line| { CutNoHash(line, i + 1, QuoteAfter(open, line[i])); }
  }

  lemma {:induction false} CutPlain(line: string, i: nat, j: nat)
    requires i <= j <= |line|
    requires forall k {:trigger line[k]} :: i <= k < j ==>
               !IsQuote(line[k]) && (line[k] == '#' ==> k > 0 && !IsSpace(line[k - 1]))
    ensures Cut(line, i, None) == Cut(line, j, None)
    decreases j - i
  {
    if i < j { CutPlain(line, i + 1, j); }
  }

  lemma {:induction false} CutQuoted(line: string, i: nat, j: nat)
    requires i <= j <= |line| && forall k :: i <= k < j ==> line[k] != '"'
    ensures Cut(line, i, Some('"')) == Cut(line, j, Some('"'))
    decreases j - i
  {
    if i < j { CutQuoted(line, i + 1, j); }
  }

  predicate NoQuotes(s: string) { forall c | c in s :: !IsQuote(c) }

  // No `#` here can open a comment.
  predicate HashesInside(s: string) {
    forall i :: 0 <= i < |s| && s[i] == '#' ==> i > 0 && !IsSpace(s[i - 1])
  }

  /** A line without `#` holds no comment; nor does one whose hashes stand inside words, or inside a
      quoted string without quotes of its own. */
  lemma PlainLineHasNoComment(prefix: string, v: Value)
    requires IsInline(v) && Scannable(v)
    requires '#' !in prefix || (NoQuotes(prefix) && HashesInside(prefix))
    requires v.Str? && '#' in v.s ==> '"' !in v.s && NoQuotes(prefix) && HashesInside(prefix)
    ensures NoComment(prefix + InlineText(v))
  {
    var text := InlineText(v);
    var line := prefix + text;
    InlineShape(v);
    if '#' !in prefix && '#' !in text {
      CutNoHash(line, 0, None);
    } else {
      assert NoQuotes(prefix) && HashesInside(prefix);
      forall k | 0 <= k < |prefix|
        ensures !IsQuote(line[k]) && (line[k] == '#' ==> k > 0 && !IsSpace(line[k - 1]))
      {
        assert line[k] == prefix[k];
      }
      CutPlain(line, 0, |prefix|);
      if '#' !in text {
        CutNoHash(line, |prefix|, None);
      } else {
        QuotedKept(prefix, v.s);
      }
    }
  }

  lemma QuotedKept(prefix: string, s: string)
    requires '"' !in s
    ensures Cut(prefix + Quote(s), |prefix|, None) == |prefix + Quote(s)|
  {
    var line := prefix + Quote(s);
    EscapeChars(s);
    var p, n := |prefix|, |line|;
    forall k | p + 1 <= k < n - 1 ensures line[k] != '"' {
      assert line[k] == Escape(s)[k - p - 1];
    }
    assert line[p] == '"' && line[n - 1] == '"';
    CutQuoted(line, p + 1, n - 1);
    assert Cut(line, p, None) == Cut(line, p + 1, Some('"'));
  }

  /** Scanning is the same behind blanks. */
  lemma {:induction false} CutShift(n: nat, content: string, k: nat, open: Option<char>)
    requires k <= |content|
    ensures Cut(Spaces(n) + content, n + k, open) == n + Cut(content, k, open)
    decreases |content| - k
  {
    if k < |content| {
      var line := Spaces(n) + content;
      assert line[n + k] == content[k];
      assert k > 0 ==> line[n + k - 1] == content[k - 1];
      assert k == 0 && n > 0 ==> line[n - 1] == ' ';
      CutShift(n, content, k + 1, QuoteAfter(open, content[k]));
    }
  }

  lemma CutIndented(n: nat, content: string)
    ensures Cut(Spaces(n) + content, 0, None) == n + Cut(content, 0, None)
  {
    CutPlain(Spaces(n) + content, 0, n);
    CutShift(n, content, 0, None);
  }

  ghost predicate KeptLine(l: Line) {
    && l.content != "" && Trimmed(l.content) && OneLine(Render(l))
    && Cut(Render(l), 0, None) == |Render(l)|
  }

  lemma {:induction false} DropBlanks(n: nat, s: string)
    requires s == "" || !IsSpace(s[0])
    ensures LStrip(Spaces(n) + s) == s && LeadingBlanks(Spaces(n) + s) == n
    decreases n
  {
    if n == 0 {
      assert Spaces(0) + s == s;
    } else {
      assert (Spaces(n) + s)[1..] == Spaces(n - 1) + s;
      DropBlanks(n - 1, s);
    }
  }

  /** The tokeniser gives a printed line back. */
  lemma KeptLineToken(l: Line)
    requires KeptLine(l)
    ensures TokenSpec(Render(l)) == [l]
  {
    var line := Render(l);
    assert line[..|line|] == line;
    assert line[|line| - 1] == l.content[|l.content| - 1];
    DropBlanks(l.indent, l.content);
  }

  /** A head that starts the line and a field after it make a trimmed line without breaks. */
  lemma FieldLineKept(head: string, text: string, indent: nat)
    requires FieldText(text) && head != "" && !IsSpace(head[0]) && OneLine(head) && NoComment(head + text)
    ensures KeptLine(Line(indent, head + text))
  {
    hide IsSpace;
    var content := head + text;
    assert content[0] == head[0] && content[|content| - 1] == text[|text| - 1];
    SpacesOneLine(indent);
    CutIndented(indent, content);
  }

  lemma SpacesOneLine(n: nat)
    ensures OneLine(Spaces(n))
  {}

  lemma HeadStart(key: string, tail: string)
    requires PlainKey(key) && (tail == ":" || tail == ": ")
    ensures !IsSpace((key + tail)[0]) && OneLine(key + tail)
  {}

  lemma EntryLineKept(e: Entry, indent: nat)
    requires ScannableEntry(e) && IsInline(e.value)
    ensures KeptLine(Line(indent, e.key + ": " + InlineText(e.value)))
  {
    hide InlineText, ScannableScalar, OneLine, IsSpace, Trimmed, KeptLine;
    var text := InlineText(e.value);
    InlineShape(e.value);
    HeadStart(e.key, ": ");
    assert e.key + (": " + text) == e.key + ": " + text;
    FieldLineKept(e.key + ": ", text, indent);
  }

  lemma HeaderLineKept(key: string, indent: nat)
    requires PlainKey(key) && NoComment(key + ":")
    ensures KeptLine(Line(indent, key + ":"))
  {
    hide IsSpace;
    HeadStart(key, ":");
    SpacesOneLine(indent);
    CutIndented(indent, key + ":");
    ColonEnds(key + ":");
  }

  lemma ColonEnds(s: string)
    requires s != "" && s[|s| - 1] == ':'
    ensures !IsSpace(s[|s| - 1])
  {}

  lemma DashKept(indent: nat)
    ensures KeptLine(Line(indent, "-"))
  {
    CutNoHash(Render(Line(indent, "-")), 0, None);
  }

  lemma ItemLineKept(v: Value, indent: nat)
    requires Scannable(v) && IsInline(v) && NoComment("- " + InlineText(v))
    ensures KeptLine(Line(indent, "- " + InlineText(v)))
  {
    hide InlineText, ScannableScalar;
    InlineShape(v);
    FieldLineKept("- ", InlineText(v), indent);
  }

  ghost predicate KeptLines(lines: seq<Line>) { forall l | l in lines :: KeptLine(l) }

  /** Printing and tokenising a layout gives the layout back. */
  lemma DumpTokens(lines: seq<Line>)
    requires lines != [] && KeptLines(lines)
    ensures TokensSpec(SplitLines(Join(Rendered(lines)) + "\n")) == lines
  {
    forall raw | raw in Rendered(lines) ensures OneLine(raw) {
      var i :| 0 <= i < |lines| && raw == Render(lines[i]);
      assert KeptLine(lines[i]);
    }
    forall i | 0 <= i < |lines| ensures TokenSpec(Render(lines[i])) == [lines[i]] {
      KeptLineToken(lines[i]);
    }
    SplitJoined(Rendered(lines));
    FlatMapSingletons(TokenSpec, Rendered(lines), lines);
  }
}
