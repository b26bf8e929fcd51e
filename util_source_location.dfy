/** Positions in the source text, used to stamp tokens and render diagnostics.
    The source buffer is a NUL-terminated character sequence; here reading
    past its end reads the terminator. */
module SourceLocations {

  const NUL: char := '\0'

  /** The character at index i, or the terminator past the end of the buffer. */
  function At(buf: string, i: nat): char
  {
    if i < |buf| then buf[i] else NUL
  }

  /** One line of source: its text (without the newline) and its 0-based number. */
  datatype Line = Line(src: string, num: nat)

  /** A line and a 0-based column within it. */
  datatype SourceLocation = SourceLocation(line: Line, column: nat)

  /** Index of the first '\n' or terminator at or after p. */
  function LineEnd(buf: string, p: nat): (e: nat)
    requires p <= |buf|
    ensures p <= e <= |buf|
    ensures forall k :: p <= k < e ==> buf[k] != '\n' && buf[k] != NUL
    ensures At(buf, e) == '\n' || At(buf, e) == NUL
    decreases |buf| - p
  {
    if p == |buf| || buf[p] == '\n' || buf[p] == NUL then p else LineEnd(buf, p + 1)
  }

  /** `Line(p, n)`: the text from p up to, excluding, the first newline or the
      terminator, numbered n. */
  function MakeLine(buf: string, p: nat, num: nat): (l: Line)
    requires p <= |buf|
    ensures l.num == num && p + |l.src| <= |buf|
  {
    Line(buf[p..LineEnd(buf, p)], num)
  }

  /** A line's text is the longest newline-free span of the buffer at p. */
  lemma MakeLineIsLongest(buf: string, p: nat, num: nat)
    requires p <= |buf|
    ensures var l := MakeLine(buf, p, num);
      && l.src == buf[p..p + |l.src|]
      && (forall k :: 0 <= k < |l.src| ==> l.src[k] != '\n' && l.src[k] != NUL)
      && (At(buf, p + |l.src|) == '\n' || At(buf, p + |l.src|) == NUL)
  {
  }

  function Spaces(n: nat): (s: string)
    ensures |s| == n && forall k :: 0 <= k < n ==> s[k] == ' '
  {
    seq(n, _ => ' ')
  }

  const Arrow: string := "└----"

  /** The caret diagram `to_string(loc)` prints: the line, then a caret under
      the column, then an arrow under the caret; no trailing newline. */
  function Diagram(loc: SourceLocation): string
  {
    loc.line.src + "\n" + Spaces(loc.column) + "^\n" + Spaces(loc.column) + Arrow
  }

  /** `to_string(loc)`, with its two loops that append one space per column. */
  method Render(loc: SourceLocation) returns (out: string)
    ensures out == Diagram(loc)
  {
    out := loc.line.src + "\n";
    var i := 0;
    while i < loc.column
      invariant 0 <= i <= loc.column
      invariant out == loc.line.src + "\n" + Spaces(i)
    {
      out := out + " ";
      i := i + 1;
    }
    out := out + "^\n";
    var j := 0;
    while j < loc.column
      invariant 0 <= j <= loc.column
      invariant out == loc.line.src + "\n" + Spaces(loc.column) + "^\n" + Spaces(j)
    {
      out := out + " ";
      j := j + 1;
    }
    out := out + Arrow;
  }

  /** The diagram's layout: the source line, then exactly `column` spaces and
      the caret, then exactly `column` spaces and the arrow, so the caret and
      the arrow's corner both sit at the location's column. */
  lemma DiagramLayout(loc: SourceLocation)
    ensures var d := Diagram(loc); var s := |loc.line.src|; var c := loc.column;
      && |d| == s + 2 * c + 8
      && d[..s] == loc.line.src
      && d[s] == '\n'
      && (forall k :: s + 1 <= k < s + 1 + c ==> d[k] == ' ')
      && d[s + 1 + c] == '^' && d[s + 2 + c] == '\n'
      && (forall k :: s + 3 + c <= k < s + 3 + 2 * c ==> d[k] == ' ')
      && d[s + 3 + 2 * c..] == Arrow
  {
    var s := |loc.line.src|;
    var c := loc.column;
    var d := Diagram(loc);
    assert d == loc.line.src + "\n" + Spaces(c) + "^\n" + Spaces(c) + Arrow;
    forall k | s + 1 <= k < s + 1 + c ensures d[k] == ' ' {
      assert d[k] == Spaces(c)[k - s - 1];
    }
    forall k | s + 3 + c <= k < s + 3 + 2 * c ensures d[k] == ' ' {
      assert d[k] == Spaces(c)[k - s - 3 - c];
    }
  }
}
