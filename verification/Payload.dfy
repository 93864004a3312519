/** The values records are written with: their truth, their text, and looking up what was written. */
module Payload {
  import opened Values
  import opened PyText

  function Text(t: Option<string>): Value { if t.None? then Null else Str(t.value) }

  /** bool(value). A float is zero when no digit of its mantissa is not. */
  predicate Truthy(v: Value) {
    match v
    case Null => false
    case Bool(b) => b
    case Int(n) => n != 0
    case Float(literal) => exists k :: 0 <= k < MinI(Find(literal, 'e'), Find(literal, 'E')) && '1' <= literal[k] <= '9'
    case Str(s) => s != ""
    case List(items) => items != []
    case Map(entries) => entries != []
  }

  function Shown(c: char, quote: char): string {
    if c == '\\' || c == quote then ['\\', c]
    else if c == '\n' then "\\n"
    else if c == '\r' then "\\r"
    else if c == '\t' then "\\t"
    else if c < ' ' || c == '\U{7f}' then "\\x" + [HexDigit(c as nat / 16), HexDigit(c as nat % 16)]
    else [c]
  }

  function Quoted(s: string): string {
    var quote := if '\'' in s && '"' !in s then '"' else '\'';
    [quote] + FlatMap(c => Shown(c, quote), s) + [quote]
  }

  /** repr(value); every character beyond ASCII counts as printable. */
  function Repr(v: Value): (r: string)
    ensures !v.Float? ==> r != ""
    decreases v, 0
  {
    match v
    case Null => "None"
    case Bool(b) => if b then "True" else "False"
    case Int(n) => IntText(n)
    case Float(literal) => literal
    case Str(s) => Quoted(s)
    case List(items) => "[" + ReprItems(items) + "]"
    case Map(entries) => "{" + ReprEntries(entries) + "}"
  }

  function ReprItems(items: seq<Value>): string
    decreases items, 1
  {
    if items == [] then "" else Repr(items[0]) + (if |items| > 1 then ", " else "") + ReprItems(items[1..])
  }

  function ReprEntries(entries: seq<Entry>): string
    decreases entries, 1
  {
    if entries == [] then ""
    else
      var e := entries[0];
      Quoted(e.key) + ": " + Repr(e.value) + (if |entries| > 1 then ", " else "") + ReprEntries(entries[1..])
  }

  /** str(value). */
  function StrOf(v: Value): string { if v.Str? then v.s else Repr(v) }

  /** str(data.get(key)). */
  function TextAt(data: seq<Entry>, key: string): string { StrOf(ValueAt(data, key)) }

  /** data.get(key). */
  function ValueAt(data: seq<Entry>, key: string): Value {
    match Get(data, key) case None => Null case Some(v) => v
  }

  /** int(data[key]); None is an error. Of a float only a literal without exponent is read. */
  function IntAt(data: seq<Entry>, key: string): Option<int> {
    match Get(data, key)
    case Some(Int(n)) => Some(n)
    case Some(Bool(b)) => Some(if b then 1 else 0)
    case Some(Str(s)) => ParseInt(Strip(s))
    case Some(Float(literal)) =>
      if 'e' in literal || 'E' in literal then None else ParseInt(literal[..Find(literal, '.')])
    case _ => None
  }

  /** The entry at `p` answers for its key when no earlier one has it. */
  lemma KeyAt(data: seq<Entry>, p: nat, key: string)
    requires p < |data| && data[p].key == key && forall j | 0 <= j < p :: data[j].key != key
    ensures Get(data, key) == Some(data[p].value)
  {}

  lemma KeyAbsent(data: seq<Entry>, key: string)
    requires forall j | 0 <= j < |data| :: data[j].key != key
    ensures Get(data, key) == None
  {}

  /** What is true has a text. */
  lemma TruthyHasText(v: Value)
    requires Truthy(v)
    ensures StrOf(v) != ""
  {}

  /* ---- what these readings are ---- */

  /** What counts as false: nothing, false, zero, and what is empty. */
  lemma FalseValues(v: Value)
    requires !v.Float?
    ensures Truthy(v) <==> v !in {Null, Bool(false), Int(0), Str(""), List([]), Map([])}
  {}

  /** A float is false when its digits before any exponent are all zero. */
  lemma FloatTruth(digits: string, exponent: string)
    requires 'e' !in digits && 'E' !in digits
    ensures Truthy(Float(digits)) <==> exists c :: c in digits && '1' <= c <= '9'
    ensures Truthy(Float(digits + "e" + exponent)) <==> exists c :: c in digits && '1' <= c <= '9'
  {
    var more := digits + "e" + exponent;
    assert Find(digits, 'e') == Find(digits, 'E') == |digits|;
    FindIs(more, 'e', |digits|);
    assert forall k | 0 <= k < |digits| :: more[k] == digits[k] && digits[k] in digits;
    assert Find(more, 'E') >= |digits| by { NotBefore(more, 'E', |digits|); }
    if exists c :: c in digits && '1' <= c <= '9' {
      var c :| c in digits && '1' <= c <= '9';
      var k :| 0 <= k < |digits| && digits[k] == c;
      assert more[k] == c;
    }
  }

  lemma NotBefore(s: string, c: char, n: nat)
    requires n <= |s| && forall k | 0 <= k < n :: s[k] != c
    ensures Find(s, c) >= n
  {
    hide Find;
  }

  /** Whole numbers are read from numbers, truth values, floats cut toward zero, and texts with blanks around. */
  lemma WholeNumbers(data: seq<Entry>, key: string, n: int)
    ensures Get(data, key) == Some(Int(n)) ==> IntAt(data, key) == Some(n)
    ensures Get(data, key) == Some(Bool(true)) ==> IntAt(data, key) == Some(1)
    ensures Get(data, key) == Some(Bool(false)) ==> IntAt(data, key) == Some(0)
    ensures Get(data, key) == Some(Str(IntText(n))) || Get(data, key) == Some(Str(" " + IntText(n))) ==>
            IntAt(data, key) == Some(n)
    ensures Get(data, key) == Some(Float(IntText(n) + ".75")) ==> IntAt(data, key) == Some(n)
    ensures Get(data, key) in {None, Some(Null)} || (Get(data, key).Some?
                                                     && (Get(data, key).value.List? || Get(data, key).value.Map?)) ==>
            IntAt(data, key) == None
  {
    hide Get, ParseInt, IntText, Find;
    IntRoundTrip(n);
    NumberTrimmed(n);
    CutAtPoint(n);
  }

  lemma NumberTrimmed(n: int)
    ensures Strip(IntText(n)) == IntText(n) && Strip(" " + IntText(n)) == IntText(n)
  {
    hide IntText, LStrip, RStrip;
    var t := IntText(n);
    IntRoundTrip(n);
    assert t[0] in t && t[|t| - 1] in t;
    assert Trimmed(t);
    LeadingBlank(t);
  }

  lemma LeadingBlank(t: string)
    requires t != "" && Trimmed(t)
    ensures Strip(" " + t) == t
  {
    assert (" " + t)[1..] == t;
    assert RStrip(" " + t) == " " + t && LStrip(" " + t) == LStrip(t) == t;
  }

  lemma CutAtPoint(n: int)
    ensures var t := IntText(n) + ".75"; 'e' !in t && 'E' !in t && t[..Find(t, '.')] == IntText(n)
  {
    hide IntText;
    IntRoundTrip(n);
    var t := IntText(n) + ".75";
    forall k | 0 <= k < |IntText(n)| ensures t[k] != '.' { assert IntText(n)[k] in IntText(n); }
    FindIs(t, '.', |IntText(n)|);
  }

  /** The text of a value: a text is its own, and inside a container it is quoted. */
  lemma TextsOf(s: string, n: int, a: Value, e: Entry)
    ensures StrOf(Str(s)) == s && StrOf(Null) == "None" && StrOf(Bool(true)) == "True" && StrOf(Bool(false)) == "False"
    ensures StrOf(Int(n)) == IntText(n) && StrOf(List([])) == "[]" && StrOf(Map([])) == "{}"
    ensures StrOf(List([a])) == "[" + Repr(a) + "]"
    ensures StrOf(Map([e])) == "{" + (Repr(Str(e.key)) + ": " + Repr(e.value)) + "}"
  {
    hide Quoted, IntText, ReprItems, ReprEntries;
    NoMore(a, e);
  }

  lemma NoMore(a: Value, e: Entry)
    ensures ReprItems([]) == "" && ReprItems([a]) == Repr(a)
    ensures ReprEntries([]) == "" && ReprEntries([e]) == Quoted(e.key) + ": " + Repr(e.value)
  {
    hide Quoted, Repr;
    assert [a][1..] == [] && [e][1..] == [];
    assert Repr(a) + "" + "" == Repr(a);
    var text := Quoted(e.key) + ": " + Repr(e.value);
    assert text + "" + "" == text;
  }

  /** A further item comes after a comma and a blank. */
  lemma OneMoreItem(a: Value, items: seq<Value>)
    requires items != []
    ensures StrOf(List([a] + items)) == "[" + Repr(a) + ", " + StrOf(List(items))[1..]
  {
    hide ReprItems;
    ItemsCons(a, items);
    Opened("[", Repr(a) + ", ", ReprItems(items), "]");
  }

  /** And so does a further entry. */
  lemma OneMoreEntry(e: Entry, entries: seq<Entry>)
    requires entries != []
    ensures StrOf(Map([e] + entries)) ==
            "{" + (Repr(Str(e.key)) + ": " + Repr(e.value) + ", ") + StrOf(Map(entries))[1..]
  {
    hide ReprEntries, Quoted;
    EntriesCons(e, entries);
    Opened("{", Quoted(e.key) + ": " + Repr(e.value) + ", ", ReprEntries(entries), "}");
  }

  lemma Opened(left: string, first: string, rest: string, right: string)
    requires |left| == 1
    ensures left + (first + rest) + right == left + first + (left + rest + right)[1..]
  {}

  lemma ItemsCons(a: Value, items: seq<Value>)
    requires items != []
    ensures ReprItems([a] + items) == Repr(a) + ", " + ReprItems(items)
  {
    hide Repr;
    assert ([a] + items)[1..] == items;
  }

  lemma EntriesCons(e: Entry, entries: seq<Entry>)
    requires entries != []
    ensures ReprEntries([e] + entries) == Quoted(e.key) + ": " + Repr(e.value) + ", " + ReprEntries(entries)
  {
    hide Repr, Quoted;
    assert ([e] + entries)[1..] == entries;
  }

  /** Without quotes, backslashes and control characters a text stands in single quotes as it is; with single
      quotes only, in double ones. */
  lemma {:induction false} QuotedPlain(s: string)
    requires forall c | c in s :: c >= ' ' && c != '\\' && c != '"' && c != '\U{7f}'
    ensures Repr(Str(s)) == if '\'' in s then "\"" + s + "\"" else "'" + s + "'"
  {
    var quote := if '\'' in s then '"' else '\'';
    ShownPlain(s, quote);
    assert FlatMap(c => Shown(c, quote), s) == s;
  }

  lemma ShownPlain(s: string, quote: char)
    requires forall c | c in s :: c >= ' ' && c != '\\' && c != quote && c != '\U{7f}'
    ensures FlatMap(c => Shown(c, quote), s) == s
  {
    assert forall i | 0 <= i < |s| :: s[i] in s;
    FlatMapSingletons(c => Shown(c, quote), s, s);
  }

  /** What is escaped, and how. */
  lemma Escaped(c: char, quote: char)
    requires quote == '"' || quote == '\''
    ensures Shown('\\', quote) == "\\\\" && Shown(quote, quote) == "\\" + [quote] && Shown('\n', quote) == "\\n"
    ensures Shown('\r', quote) == "\\r" && Shown('\t', quote) == "\\t" && Shown('\U{1f}', quote) == "\\x1f"
    ensures Shown('\U{7f}', quote) == "\\x7f" && Shown('\0', quote) == "\\x00"
    ensures c >= ' ' && c != '\\' && c != quote && c != '\U{7f}' ==> Shown(c, quote) == [c]
  {}
}
