/** The printer `_yaml_dump_text` falls back to, as a layout of indented lines. */
module YamlWriter {
  import opened Values
  import opened PyText
  import opened YamlReader

  /* ---- scalars: json.dumps(s, ensure_ascii=False) for strings (RFC 8259, section 7) ---- */

  predicate NeedsEscape(c: char) { c == '"' || c == '\\' || c < ' ' }

  // Printable, and none of the characters the reader looks for.
  predicate IsNeutral(c: char) { ' ' <= c <= '~' && c != ':' && c != '#' && c != '"' }

  function EscapeChar(c: char): (r: string)
    ensures if NeedsEscape(c) then |r| >= 2 else r == [c]
    ensures forall k :: 0 <= k < |r| ==> IsNeutral(r[k]) || (r[k] == c && c >= ' ')
  {
    if c == '"' then "\\\"" else if c == '\\' then "\\\\"
    else if c == '\n' then "\\n" else if c == '\r' then "\\r" else if c == '\t' then "\\t"
    else if c == '\U{8}' then "\\b" else if c == '\U{c}' then "\\f"
    else if c < ' ' then "\\u00" + [HexDigit(c as nat / 16), HexDigit(c as nat % 16)]
    else [c]
  }

  function Escape(s: string): string {
    if s == "" then "" else EscapeChar(s[0]) + Escape(s[1..])
  }

  function Quote(s: string): string { "\"" + Escape(s) + "\"" }

  predicate IsScalar(v: Value) { !v.List? && !v.Map? }

  function ScalarText(v: Value): string
    requires IsScalar(v)
  {
    match v
    case Null => "null"
    case Bool(b) => if b then "true" else "false"
    case Int(n) => IntText(n)
    case Float(literal) => literal
    case Str(s) => Quote(s)
  }

  /* ---- layout ---- */

  // An empty container or a scalar: printed on the line of its key or dash.
  predicate IsInline(v: Value) { v != List([]) && v != Map([]) ==> IsScalar(v) }

  function InlineText(v: Value): string
    requires IsInline(v)
  {
    if v == Map([]) then "{}" else if v == List([]) then "[]" else ScalarText(v)
  }

  function Layout(v: Value, indent: nat): seq<Line>
    decreases v, 0
  {
    if IsInline(v) then [Line(indent, InlineText(v))]
    else match v
      case Map(entries) => EntriesLayout(entries, indent)
      case List(items) => ItemsLayout(items, indent)
  }

  function EntryLayout(e: Entry, indent: nat): seq<Line>
    decreases e, 0
  {
    if IsInline(e.value) then [Line(indent, e.key + ": " + InlineText(e.value))]
    else [Line(indent, e.key + ":")] + Layout(e.value, indent + 2)
  }

  function EntriesLayout(entries: seq<Entry>, indent: nat): seq<Line>
    decreases entries, 0
  {
    if entries == [] then [] else EntryLayout(entries[0], indent) + EntriesLayout(entries[1..], indent)
  }

  function ItemLayout(v: Value, indent: nat): seq<Line>
    decreases v, 1
  {
    if IsInline(v) then [Line(indent, "- " + InlineText(v))]
    else [Line(indent, "-")] + Layout(v, indent + 2)
  }

  function ItemsLayout(items: seq<Value>, indent: nat): seq<Line>
    decreases items, 0
  {
    if items == [] then [] else ItemLayout(items[0], indent) + ItemsLayout(items[1..], indent)
  }

  function Render(line: Line): string { Spaces(line.indent) + line.content }

  function Rendered(lines: seq<Line>): (r: seq<string>)
    ensures |r| == |lines|
  {
    seq(|lines|, i requires 0 <= i < |lines| => Render(lines[i]))
  }

  function DumpSpec(entries: seq<Entry>): string {
    Join(Rendered(Layout(Map(entries), 0))) + "\n"
  }

  /* ---- the printing loops ---- */

  method DumpLines(v: Value, indent: nat) returns (lines: seq<string>)
    ensures lines == Rendered(Layout(v, indent))
    decreases v, 0
  {
    var prefix := Spaces(indent);
    if v.Map? && v.entries != [] {
      lines := DumpEntries(v.entries, indent);
    } else if v.List? && v.items != [] {
      lines := DumpItems(v.items, indent);
    } else {
      lines := [prefix + InlineText(v)];
    }
  }

  lemma RenderedAppend(a: seq<Line>, b: seq<Line>)
    ensures Rendered(a + b) == Rendered(a) + Rendered(b)
  {}

  method DumpEntries(entries: seq<Entry>, indent: nat) returns (lines: seq<string>)
    ensures lines == Rendered(EntriesLayout(entries, indent))
    decreases entries, 0
  {
    lines := [];
    for i := 0 to |entries|
      invariant lines + Rendered(EntriesLayout(entries[i..], indent)) == Rendered(EntriesLayout(entries, indent))
    {
      var more := DumpEntry(entries[i], indent);
      RenderedAppend(EntryLayout(entries[i], indent), EntriesLayout(entries[i + 1..], indent));
      lines := lines + more;
    }
  }

  method DumpEntry(e: Entry, indent: nat) returns (lines: seq<string>)
    ensures lines == Rendered(EntryLayout(e, indent))
    decreases e, 0
  {
    var keyPrefix := Spaces(indent) + e.key + ":";
    if IsInline(e.value) {
      lines := [keyPrefix + " " + InlineText(e.value)];
      assert lines[0] == Render(Line(indent, e.key + ": " + InlineText(e.value)));
    } else {
      var sub := DumpLines(e.value, indent + 2);
      lines := [keyPrefix] + sub;
      assert keyPrefix == Render(Line(indent, e.key + ":"));
    }
  }

  method DumpItems(items: seq<Value>, indent: nat) returns (lines: seq<string>)
    ensures lines == Rendered(ItemsLayout(items, indent))
    decreases items, 0
  {
    lines := [];
    for i := 0 to |items|
      invariant lines + Rendered(ItemsLayout(items[i..], indent)) == Rendered(ItemsLayout(items, indent))
    {
      var more := DumpItem(items[i], indent);
      RenderedAppend(ItemLayout(items[i], indent), ItemsLayout(items[i + 1..], indent));
      lines := lines + more;
    }
  }

  method DumpItem(v: Value, indent: nat) returns (lines: seq<string>)
    ensures lines == Rendered(ItemLayout(v, indent))
    decreases v, 1
  {
    var prefix := Spaces(indent);
    if IsInline(v) {
      lines := [prefix + "- " + InlineText(v)];
      assert lines[0] == Render(Line(indent, "- " + InlineText(v)));
    } else {
      var sub := DumpLines(v, indent + 2);
      lines := [prefix + "-"] + sub;
      assert prefix + "-" == Render(Line(indent, "-"));
    }
  }

  method DumpText(entries: seq<Entry>) returns (text: string)
    ensures text == DumpSpec(entries)
  {
    var lines := DumpLines(Map(entries), 0);
    text := Join(lines) + "\n";
  }

  /** Loading what was printed gives an equal dictionary. */
  ghost predicate Survives(entries: seq<Entry>) {
    var r := LoadSpec(DumpSpec(entries));
    r.Doc? && EqualValue(r.value, Map(entries))
  }

  /* ---- escaping ---- */

  predicate EscapeFree(s: string) { forall c | c in s :: !NeedsEscape(c) }

  lemma {:induction false} EscapeChars(s: string)
    ensures |Escape(s)| >= |s|
    ensures forall k :: 0 <= k < |Escape(s)| ==> IsNeutral(Escape(s)[k]) || (Escape(s)[k] in s && Escape(s)[k] >= ' ')
    ensures ':' in s ==> ':' in Escape(s)
  {
    if s == "" {
    } else {
      EscapeChars(s[1..]);
      var head := EscapeChar(s[0]);
      assert Escape(s) == head + Escape(s[1..]);
      if s[0] == ':' { assert Escape(s)[0] == ':'; }
    }
  }

  /** Reading does not unescape, so a string survives exactly when JSON leaves it alone. */
  lemma {:induction false} EscapeIsIdentity(s: string)
    ensures Escape(s) == s <==> EscapeFree(s)
    ensures !EscapeFree(s) ==> |Escape(s)| > |s|
  {
    hide EscapeChar, NeedsEscape;
    if s == "" {
    } else {
      EscapeIsIdentity(s[1..]);
      EscapeChars(s[1..]);
      if NeedsEscape(s[0]) {
        assert s[0] in s;
      } else {
        assert Escape(s) == [s[0]] + Escape(s[1..]) && s == [s[0]] + s[1..];
        assert EscapeFree(s) == EscapeFree(s[1..]);
      }
    }
  }

  /* ---- what printed text looks like ---- */

  /** The texts of scalars and empty containers. */
  lemma InlineTexts(n: int, literal: string)
    ensures InlineText(Null) == "null" && InlineText(Bool(true)) == "true" && InlineText(Bool(false)) == "false"
    ensures InlineText(Int(n)) == IntText(n) && InlineText(Float(literal)) == literal
    ensures InlineText(List([])) == "[]" && InlineText(Map([])) == "{}"
  {
    hide IntText;
  }

  /** A text stands in double quotes, each character as JSON escapes it. */
  lemma EscapedTexts(c: char, s: string)
    ensures InlineText(Str(s)) == "\"" + Escape(s) + "\""
    ensures Escape("") == "" && Escape([c] + s) == EscapeChar(c) + Escape(s)
  {
    hide EscapeChar;
    assert ([c] + s)[1..] == s;
  }

  lemma EscapeTable()
    ensures EscapeChar('"') == "\\\"" && EscapeChar('\\') == "\\\\" && EscapeChar('\n') == "\\n"
            && EscapeChar('\r') == "\\r"
    ensures EscapeChar('\t') == "\\t" && EscapeChar('\U{8}') == "\\b" && EscapeChar('\U{c}') == "\\f"
  {}

  /** The other characters: control characters by their code, in four hexadecimal digits, and the rest as they are. */
  lemma EscapeOthers(c: char)
    requires c != '"' && c != '\\' && c != '\n' && c != '\r' && c != '\t' && c != '\U{8}' && c != '\U{c}'
    ensures c >= ' ' ==> EscapeChar(c) == [c]
    ensures c < ' ' ==>
            EscapeChar(c) == (if c as int < 16 then "\\u000" else "\\u001") + ["0123456789abcdef"[c as int % 16]]
  {}

  /** No line of a value is left of its indent. */
  lemma {:induction false} LayoutNests(v: Value, indent: nat)
    ensures Layout(v, indent) != [] && Layout(v, indent)[0].indent == indent
    ensures forall l | l in Layout(v, indent) :: l.indent >= indent
    decreases v, 0
  {
    hide InlineText;
    if !IsInline(v) {
      if v.Map? { EntriesNest(v.entries, indent); } else { ItemsNest(v.items, indent); }
    }
  }

  lemma {:induction false} EntriesNest(entries: seq<Entry>, indent: nat)
    ensures forall l | l in EntriesLayout(entries, indent) :: l.indent >= indent
    ensures entries != [] ==> EntriesLayout(entries, indent) != [] && EntriesLayout(entries, indent)[0].indent == indent
    decreases entries, 0
  {
    hide InlineText, Layout;
    if entries == [] {
    } else {
      if !IsInline(entries[0].value) { LayoutNests(entries[0].value, indent + 2); }
      EntriesNest(entries[1..], indent);
    }
  }

  lemma {:induction false} ItemsNest(items: seq<Value>, indent: nat)
    ensures forall l | l in ItemsLayout(items, indent) :: l.indent >= indent
    ensures items != [] ==> ItemsLayout(items, indent) != [] && ItemsLayout(items, indent)[0].indent == indent
    decreases items, 0
  {
    hide InlineText, Layout;
    if items == [] {
    } else {
      if !IsInline(items[0]) { LayoutNests(items[0], indent + 2); }
      ItemsNest(items[1..], indent);
    }
  }

  /** A container stands under its key or under a bare dash, and begins two deeper; the rest is no less deep. */
  lemma ContainersNest(e: Entry, indent: nat)
    requires !IsInline(e.value)
    ensures var (entry, item) := (EntryLayout(e, indent), ItemLayout(e.value, indent));
            && |entry| > 1 && entry[0] == Line(indent, e.key + ":") && |item| > 1 && item[0] == Line(indent, "-")
            && entry[1..] == item[1..] && entry[1].indent == indent + 2
            && forall k | 1 <= k < |entry| :: entry[k].indent >= indent + 2
  {
    hide InlineText, Layout;
    var inner := Layout(e.value, indent + 2);
    LayoutNests(e.value, indent + 2);
    assert EntryLayout(e, indent) == [Line(indent, e.key + ":")] + inner;
    assert ItemLayout(e.value, indent) == [Line(indent, "-")] + inner;
    forall k | 1 <= k < |inner| + 1 ensures EntryLayout(e, indent)[k] in inner {
      assert EntryLayout(e, indent)[k] == inner[k - 1];
    }
  }

  /** The document is its lines, indented with blanks, each ended. */
  lemma LinesOfText(k: string, v: Value)
    requires IsInline(v)
    ensures DumpSpec([Entry(k, v)]) == k + ": " + InlineText(v) + "\n"
    ensures Render(Line(2, k)) == "  " + k
  {
    hide InlineText;
    var e := Entry(k, v);
    assert [e][1..] == [];
    assert EntriesLayout([e], 0) == EntryLayout(e, 0) + EntriesLayout([], 0) == [Line(0, k + ": " + InlineText(v))];
    assert Spaces(0) == "" && Spaces(2) == "  ";
  }
}
