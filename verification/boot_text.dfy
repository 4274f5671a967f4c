/** Lines and whitespace as Python's `str.splitlines`, `str.strip` and `str.partition` see them.
    Text is a sequence of characters; a byte that is not UTF-8 is one that is none of these. */
module BootText {
  predicate Separator(c: char) {
    || c == '\n' || c == '\r' || c == '\U{0B}' || c == '\U{0C}' || c == '\U{1C}' || c == '\U{1D}' || c == '\U{1E}'
    || c == '\U{85}' || c == '\U{2028}' || c == '\U{2029}'
  }

  predicate Space(c: char) {
    || Separator(c) || c == ' ' || c == '\t' || c == '\U{1F}' || c == '\U{A0}' || c == '\U{1680}'
    || '\U{2000}' <= c <= '\U{200A}' || c == '\U{202F}' || c == '\U{205F}' || c == '\U{3000}'
  }

  /** The white space `str.strip` takes off, one character at a time. */
  lemma SpacesAre(c: char)
    ensures Space(c) <==> c in "\t\n\U{0B}\U{0C}\r\U{1C}\U{1D}\U{1E}\U{1F} \U{85}\U{A0}\U{1680}"
                               + "\U{2000}\U{2001}\U{2002}\U{2003}\U{2004}\U{2005}\U{2006}\U{2007}\U{2008}\U{2009}"
                               + "\U{200A}\U{2028}\U{2029}\U{202F}\U{205F}\U{3000}"
  {
  }

  /** Where the first line of a text ends, its separator not included. */
  function LineEnd(text: string): (n: nat)
    ensures n <= |text| && (forall i | 0 <= i < n :: !Separator(text[i])) && (n < |text| ==> Separator(text[n]))
  {
    if text == "" || Separator(text[0]) then 0 else 1 + LineEnd(text[1..])
  }

  /** What separates a line from the next: nothing at the end, one character, or CR LF. */
  function SeparatorLength(text: string, n: nat): (m: nat)
    requires n <= |text|
    ensures n + m <= |text| && (n < |text| ==> m > 0)
  {
    if n == |text| then 0
    else if text[n] == '\r' && n + 1 < |text| && text[n + 1] == '\n' then 2 else 1
  }

  function SplitLines(text: string): seq<string>
    decreases |text|
  {
    if text == "" then []
    else
      var n := LineEnd(text);
      [text[..n]] + SplitLines(text[n + SeparatorLength(text, n)..])
  }

  predicate EndsLine(text: string) {
    text == "" || text[|text| - 1] == '\n'
  }

  lemma {:induction false} LineEndIs(text: string, n: nat)
    requires n <= |text| && (forall i | 0 <= i < n :: !Separator(text[i])) && (n < |text| ==> Separator(text[n]))
    ensures LineEnd(text) == n
  {
    if n > 0 {
      LineEndIs(text[1..], n - 1);
    }
  }

  /** What follows the first line and its separator. */
  function Rest(text: string): (rest: string)
    requires text != ""
    ensures |rest| < |text|
  {
    text[LineEnd(text) + SeparatorLength(text, LineEnd(text))..]
  }

  lemma SplitsOnce(text: string)
    requires text != ""
    ensures SplitLines(text) == [text[..LineEnd(text)]] + SplitLines(Rest(text))
  {
  }

  /** Text appended after a finished line leaves that line alone. */
  lemma FirstLineStays(p: string, q: string)
    requires p != "" && EndsLine(p)
    ensures LineEnd(p + q) == LineEnd(p) && (p + q)[..LineEnd(p)] == p[..LineEnd(p)]
    ensures Rest(p + q) == Rest(p) + q && EndsLine(Rest(p))
  {
    var n := LineEnd(p);
    assert Separator(p[|p| - 1]);
    assert forall i | 0 <= i < |p| :: (p + q)[i] == p[i];
    LineEndIs(p + q, n);
    var k := n + SeparatorLength(p, n);
    assert SeparatorLength(p + q, n) == SeparatorLength(p, n);
    assert (p + q)[k..] == p[k..] + q;
  }

  /** Text appended after a finished line splits on its own. */
  lemma {:induction false} SplitApart(p: string, q: string)
    requires EndsLine(p)
    ensures SplitLines(p + q) == SplitLines(p) + SplitLines(q)
    decreases |p|
  {
    hide SplitLines, LineEnd, Rest;
    if p == "" {
      assert p + q == q;
      NoLines();
    } else {
      FirstLineStays(p, q);
      SplitApart(Rest(p), q);
      SplitsOnce(p);
      SplitsOnce(p + q);
    }
  }

  lemma NoLines()
    ensures SplitLines("") == []
  {
  }

  predicate Blank(lines: seq<string>) {
    forall i | 0 <= i < |lines| :: lines[i] == ""
  }

  /** Every line as it was, and at most empty ones after them. */
  predicate Padded(lines: seq<string>, longer: seq<string>) {
    lines <= longer && Blank(longer[|lines|..])
  }

  lemma {:induction false} NewlineKeepsLines(text: string)
    ensures Padded(SplitLines(text), SplitLines(text + "\n"))
    decreases |text|
  {
    hide SplitLines, LineEnd, Rest;
    NoLines();
    if text == "" {
      assert text + "\n" == "\n";
      NewlineAlone();
    } else {
      var longer := text + "\n";
      SplitsOnce(text);
      SplitsOnce(longer);
      NewlineAfter(text);
      if Rest(longer) != "" {
        NewlineKeepsLines(Rest(text));
      }
    }
  }

  lemma NewlineAlone()
    ensures SplitLines("\n") == [""]
  {
    LineEndIs("\n", 0);
    assert Rest("\n") == "";
  }

  /** A newline at the end lengthens what follows the first line, unless it only ends that line. */
  lemma NewlineAfter(text: string)
    requires text != ""
    ensures LineEnd(text + "\n") == LineEnd(text) && (text + "\n")[..LineEnd(text)] == text[..LineEnd(text)]
    ensures Rest(text + "\n") == if Rest(text) == "" && Absorbs(text) then "" else Rest(text) + "\n"
  {
    var longer, n := text + "\n", LineEnd(text);
    assert forall i | 0 <= i < |text| :: longer[i] == text[i];
    LineEndIs(longer, n);
    if n < |text| && !(text[n] == '\r' && n + 1 == |text|) {
      var k := n + SeparatorLength(text, n);
      assert SeparatorLength(longer, n) == SeparatorLength(text, n);
      assert longer[k..] == text[k..] + "\n";
    }
  }

  /** The last line has no newline of its own, or only a carriage return. */
  predicate Absorbs(text: string)
    requires text != ""
  {
    LineEnd(text) == |text| || (text[LineEnd(text)] == '\r' && LineEnd(text) + 1 == |text|)
  }

  predicate OneLine(line: string) {
    forall i | 0 <= i < |line| :: !Separator(line[i])
  }

  /** Lines, each with its newline. */
  function Terminated(lines: seq<string>): string {
    if lines == [] then "" else lines[0] + "\n" + Terminated(lines[1..])
  }

  lemma {:induction false} TerminatedSplits(lines: seq<string>)
    requires forall i | 0 <= i < |lines| :: OneLine(lines[i])
    ensures SplitLines(Terminated(lines)) == lines && EndsLine(Terminated(lines))
  {
    if lines != [] {
      var first, rest := lines[0] + "\n", Terminated(lines[1..]);
      TerminatedSplits(lines[1..]);
      SingleLine(lines[0]);
      SplitApart(first, rest);
      assert Terminated(lines) == first + rest;
      assert lines == [lines[0]] + lines[1..];
    }
  }

  lemma SingleLine(line: string)
    requires OneLine(line)
    ensures SplitLines(line + "\n") == [line]
  {
    var text := line + "\n";
    assert forall i | 0 <= i < |line| :: text[i] == line[i];
    LineEndIs(text, |line|);
    assert text[..|line|] == line && Rest(text) == "";
    SplitsOnce(text);
    NoLines();
    hide SplitLines;
  }

  // ---------------------------------------------------------------- one line

  function StripLeft(s: string): string {
    if s != "" && Space(s[0]) then StripLeft(s[1..]) else s
  }

  function StripRight(s: string): string {
    if s != "" && Space(s[|s| - 1]) then StripRight(s[..|s| - 1]) else s
  }

  function Strip(s: string): string {
    StripRight(StripLeft(s))
  }

  /** Nothing to strip. */
  predicate Bare(s: string) {
    s != "" && !Space(s[0]) && !Space(s[|s| - 1])
  }

  /** What stripping leaves: what stands between the spaces at either end. */
  lemma {:induction false} StripExactly(s: string, i: nat, j: nat)
    requires i <= j <= |s| && (forall k | 0 <= k < i || j <= k < |s| :: Space(s[k]))
    requires i < j ==> !Space(s[i]) && !Space(s[j - 1])
    ensures Strip(s) == s[i..j]
    decreases |s|
  {
    if i > 0 {
      StripExactly(s[1..], i - 1, j - 1);
      assert s[1..][i - 1..j - 1] == s[i..j];
    } else if i == j && s != "" {
      assert Space(s[0]);
      StripExactly(s[1..], 0, 0);
    } else if j < |s| {
      assert StripLeft(s) == s && StripLeft(s[..|s| - 1]) == s[..|s| - 1];
      StripExactly(s[..|s| - 1], 0, j);
      assert s[..|s| - 1][..j] == s[..j];
    }
  }

  /** A line, however it ends, is split from what follows: at a newline, at CR LF as at one
      separator, and at any other separator on its own. */
  lemma LineByLine(line: string, separator: string, rest: string)
    requires OneLine(line)
    requires separator == "\r\n" || (|separator| == 1 && Separator(separator[0]))
    requires separator == "\r" && rest != "" ==> rest[0] != '\n'
    ensures SplitLines(line + separator + rest) == [line] + SplitLines(rest)
    ensures line != "" ==> SplitLines(line) == [line]
  {
    hide SplitLines, Rest, LineEnd, OneLine;
    var text := line + separator + rest;
    FirstOf(line, separator, rest);
    SplitsOnce(text);
    if line != "" {
      WholeLine(line);
    }
  }

  lemma FirstOf(line: string, separator: string, rest: string)
    requires OneLine(line)
    requires separator == "\r\n" || (|separator| == 1 && Separator(separator[0]))
    requires separator == "\r" && rest != "" ==> rest[0] != '\n'
    ensures var text := line + separator + rest; text[..LineEnd(text)] == line && Rest(text) == rest
  {
    var text, n := line + separator + rest, |line|;
    assert forall i | 0 <= i < n :: text[i] == line[i];
    assert text[n] == separator[0] && Separator(text[n]);
    LineEndIs(text, n);
    hide Separator, LineEnd;
    assert n + 1 < |text| ==> text[n + 1] == (separator + rest)[1];
    assert SeparatorLength(text, n) == |separator|;
    assert text[n + |separator|..] == rest;
  }

  lemma WholeLine(line: string)
    requires OneLine(line) && line != ""
    ensures SplitLines(line) == [line]
  {
    LineEndIs(line, |line|);
    SplitsOnce(line);
    NoLines();
    hide SplitLines;
    assert line[..|line|] == line;
  }

  lemma BareIsStripped(s: string)
    requires Bare(s)
    ensures Strip(s) == s
  {
  }

  predicate StartsWith(s: string, prefix: string) {
    prefix <= s
  }

  function Lower(s: string): string {
    seq(|s|, i requires 0 <= i < |s| =>
      if 'A' <= s[i] <= 'Z' then ((s[i] as int) + 32) as char else s[i])
  }

  /** The place of the first equals sign. */
  function Equals(s: string): (n: nat)
    ensures n <= |s| && (forall i | 0 <= i < n :: s[i] != '=') && (n < |s| ==> s[n] == '=')
  {
    if s == "" || s[0] == '=' then 0 else 1 + Equals(s[1..])
  }
}
