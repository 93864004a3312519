/** The Python text operations the YAML subset rests on: whitespace, `strip`, `splitlines`,
    `split`, and the literals `int()` and `float()` accept (ASCII digits only). */
module PyText {
  import opened Values

  // str.isspace, which is also the set str.strip() removes.
  predicate IsSpace(c: char) {
    || '\U{9}' <= c <= '\U{d}' || '\U{1c}' <= c <= ' ' || c == '\U{85}' || c == '\U{a0}'
    || c == '\U{1680}' || '\U{2000}' <= c <= '\U{200a}' || '\U{2028}' <= c <= '\U{2029}'
    || c == '\U{202f}' || c == '\U{205f}' || c == '\U{3000}'
  }

  // The characters str.splitlines() breaks at.
  predicate IsBreak(c: char) {
    '\n' <= c <= '\r' || '\U{1c}' <= c <= '\U{1e}' || c == '\U{85}' || '\U{2028}' <= c <= '\U{2029}'
  }

  predicate Trimmed(s: string) {
    s == "" || (!IsSpace(s[0]) && !IsSpace(s[|s| - 1]))
  }

  function RStrip(s: string): (r: string)
    ensures r <= s
    ensures r == "" || !IsSpace(r[|r| - 1])
  {
    if s == "" || !IsSpace(s[|s| - 1]) then s else RStrip(s[..|s| - 1])
  }

  function LStrip(s: string): (r: string)
    ensures |r| <= |s| && (r == "" || !IsSpace(r[0]))
    ensures s != "" && !IsSpace(s[|s| - 1]) ==> r != "" && r[|r| - 1] == s[|s| - 1]
  {
    if s == "" || !IsSpace(s[0]) then s else LStrip(s[1..])
  }

  function Strip(s: string): (r: string)
    ensures Trimmed(r) && |r| <= |s|
    ensures Trimmed(s) ==> r == s
  {
    LStrip(RStrip(s))
  }

  function Spaces(n: nat): (r: string)
    ensures |r| == n && forall k :: 0 <= k < n ==> r[k] == ' '
  {
    seq(n, _ => ' ')
  }

  /** len(s) - len(s.lstrip(" ")): leading blanks only, not other whitespace. */
  function LeadingBlanks(s: string): (n: nat)
    ensures n <= |s|
  {
    if s == "" || s[0] != ' ' then 0 else 1 + LeadingBlanks(s[1..])
  }

  /** Index of the first `c`, or the length. */
  function Find(s: string, c: char): (i: nat)
    ensures i <= |s| && (i < |s| ==> s[i] == c) && (i < |s| <==> c in s)
  {
    if s == "" || s[0] == c then 0 else 1 + Find(s[1..], c)
  }

  lemma {:induction false} FindIs(s: string, c: char, n: nat)
    requires n <= |s| && (n < |s| ==> s[n] == c) && forall k :: 0 <= k < n ==> s[k] != c
    ensures Find(s, c) == n
  {
    if n == 0 {
    } else {
      FindIs(s[1..], c, n - 1);
    }
  }

  function FirstBreak(s: string): (i: nat)
    ensures i <= |s| && (i < |s| ==> IsBreak(s[i]))
  {
    if s == "" || IsBreak(s[0]) then 0 else 1 + FirstBreak(s[1..])
  }

  function SplitLines(text: string): seq<string>
    decreases |text|
  {
    var n := FirstBreak(text);
    if text == "" then []
    else if n == |text| then [text]
    else
      var width := if text[n] == '\r' && n + 1 < |text| && text[n + 1] == '\n' then 2 else 1;
      [text[..n]] + SplitLines(text[n + width..])
  }

  function SplitOn(s: string, c: char): (parts: seq<string>)
    ensures |parts| > 0 && forall p | p in parts :: |p| <= |s|
    decreases |s|
  {
    var n := Find(s, c);
    if n == |s| then [s] else [s[..n]] + SplitOn(s[n + 1..], c)
  }

  /** "\n".join(lines). */
  function Join(lines: seq<string>): string {
    if lines == [] then "" else if |lines| == 1 then lines[0] else lines[0] + "\n" + Join(lines[1..])
  }

  function ToLower(c: char): char {
    if 'A' <= c <= 'Z' then c - 'A' + 'a' else c
  }

  // Enough of str.lower() to compare with an ASCII word that has no 'k'.
  function Lower(s: string): string {
    seq(|s|, i requires 0 <= i < |s| => ToLower(s[i]))
  }

  predicate IsDigit(c: char) { '0' <= c <= '9' }

  /** Digits with single underscores between them. */
  predicate DigitPart(s: string) {
    && s != "" && IsDigit(s[0])
    && (|s| == 1 || DigitPart(s[1..]) || (|s| >= 3 && s[1] == '_' && DigitPart(s[2..])))
  }

  function DigitsValue(s: string): nat {
    if s == "" then 0
    else
      var c := s[|s| - 1];
      var rest := DigitsValue(s[..|s| - 1]);
      if IsDigit(c) then 10 * rest + (c as int - '0' as int) else rest
  }

  function Unsigned(s: string): string {
    if s != "" && (s[0] == '+' || s[0] == '-') then s[1..] else s
  }

  /** int(s) of a trimmed string, None for ValueError. */
  function ParseInt(s: string): Option<int> {
    var u := Unsigned(s);
    if !DigitPart(u) then None
    else
      var n: int := DigitsValue(u);
      Some(if s[0] == '-' then -n else n)
  }

  predicate FloatChar(c: char) { IsDigit(c) || c in "_.+-eE" }

  /** The literals with a point that float() accepts. */
  predicate IsFloatLiteral(s: string) {
    var u := Unsigned(s);
    var p := Find(u, '.');
    && p < |u| && (forall c | c in s :: FloatChar(c))
    && (p == 0 || DigitPart(u[..p]))
    && var tail := u[p + 1..];
       var e := if Find(tail, 'e') < |tail| then Find(tail, 'e') else Find(tail, 'E');
       && (e == 0 || DigitPart(tail[..e])) && (p > 0 || e > 0)
       && (e == |tail| || DigitPart(Unsigned(tail[e + 1..])))
  }

  function DigitChar(d: nat): (c: char)
    requires d < 10
    ensures IsDigit(c) && c as int - '0' as int == d
  {
    '0' + d as char
  }

  function HexDigit(d: nat): (c: char)
    requires d < 16
    ensures IsDigit(c) || 'a' <= c <= 'f'
  {
    if d < 10 then '0' + d as char else 'a' + (d - 10) as char
  }

  function Decimal(n: nat): (s: string)
    ensures s != "" && forall k :: 0 <= k < |s| ==> IsDigit(s[k])
  {
    if n < 10 then [DigitChar(n)] else Decimal(n / 10) + [DigitChar(n % 10)]
  }

  /** str(n). */
  function IntText(n: int): string {
    if n < 0 then "-" + Decimal(-n) else Decimal(n)
  }

  lemma {:induction false} DigitsAreDigitPart(s: string)
    requires s != "" && forall k :: 0 <= k < |s| ==> IsDigit(s[k])
    ensures DigitPart(s)
  {
    if |s| > 1 { DigitsAreDigitPart(s[1..]); }
  }

  lemma {:induction false} DecimalValue(n: nat)
    ensures DigitsValue(Decimal(n)) == n
  {
    var s := Decimal(n);
    if n < 10 {
      assert s[..0] == "";
    } else {
      DecimalValue(n / 10);
      assert s[..|s| - 1] == Decimal(n / 10);
    }
  }

  /** int(str(n)) == n. */
  lemma {:induction false} IntRoundTrip(n: int)
    ensures ParseInt(IntText(n)) == Some(n)
    ensures IntText(n) != "" && forall c | c in IntText(n) :: IsDigit(c) || c == '-'
  {
    var m: nat := if n < 0 then -n else n;
    DecimalValue(m);
    DigitsAreDigitPart(Decimal(m));
  }

  predicate OneLine(s: string) {
    forall c | c in s :: !IsBreak(c)
  }

  lemma {:induction false} FirstBreakIs(s: string, n: nat)
    requires n < |s| && IsBreak(s[n]) && forall k :: 0 <= k < n ==> !IsBreak(s[k])
    ensures FirstBreak(s) == n
  {
    if n == 0 {
    } else {
      FirstBreakIs(s[1..], n - 1);
    }
  }

  lemma {:induction false} SplitOneLine(line: string, rest: string)
    requires OneLine(line)
    ensures SplitLines(line + "\n" + rest) == [line] + SplitLines(rest)
  {
    var text := line + "\n" + rest;
    assert text[|line|] == '\n';
    assert forall k :: 0 <= k < |line| ==> text[k] == line[k];
    FirstBreakIs(text, |line|);
    assert text[..|line|] == line;
    assert text[|line| + 1..] == rest;
  }

  /** splitlines undoes joining lines that hold no line break. */
  lemma {:induction false} SplitJoined(lines: seq<string>)
    requires lines != [] && forall l | l in lines :: OneLine(l)
    ensures SplitLines(Join(lines) + "\n") == lines
  {
    if |lines| == 1 {
      SplitOneLine(lines[0], "");
      assert lines[0] + "\n" + "" == Join(lines) + "\n";
      assert [lines[0]] == lines;
    } else {
      SplitOneLine(lines[0], Join(lines[1..]) + "\n");
      assert lines[0] + "\n" + (Join(lines[1..]) + "\n") == Join(lines) + "\n";
      SplitJoined(lines[1..]);
    }
  }
}
