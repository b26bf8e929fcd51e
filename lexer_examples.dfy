/** A worked example of token locations: the stream of a small program, read
    through the scanning rules, stamps each token with its line and column. */
module LexerExamples {
  import opened SourceLocations
  import opened Tokens
  import opened LexerRules
  import opened LexerProperties

  /** One scanning step from st stamps its token with loc and leaves the
      scanner at next. */
  predicate Moves(buf: string, st: ScanState, loc: SourceLocation, next: ScanState)
  {
    Step(buf, st).0.location == loc && Step(buf, st).1 == next
  }

  /** The token k places after the next state is the one k + 1 places after st. */
  lemma NthAfterStep(buf: string, st: ScanState, next: ScanState, k: nat)
    requires Step(buf, st).1 == next
    ensures Nth(buf, next, k) == Nth(buf, st, k + 1)
  {
    AdvanceAfterStep(buf, st, k);
  }

  /** `let` followed by a blank is the keyword, three characters long. */
  lemma LetStep(buf: string, st: ScanState)
    requires Ready(buf, st) && st.pos + 4 <= |buf|
    requires buf[st.pos] == 'l' && buf[st.pos + 1] == 'e' && buf[st.pos + 2] == 't' && buf[st.pos + 3] == ' '
    ensures Step(buf, st).0.kind == Keyword
    ensures Moves(buf, st, Loc(st), Shifted(st, st.pos + 3))
  {
    var p := st.pos;
    assert RunEnd(buf, p + 1, LowerOrDigit) == p + 3 by {
      assert RunEnd(buf, p + 3, LowerOrDigit) == p + 3;
      assert RunEnd(buf, p + 2, LowerOrDigit) == p + 3;
    }
    assert buf[p..p + 3] == "let" by {
      assert buf[p..p + 3][0] == 'l' && buf[p..p + 3][1] == 'e' && buf[p..p + 3][2] == 't';
    }
    StepAtRule(buf, st, Lexed(Keyword, p + 3));
  }

  /** A blank and then a one-letter name followed by a blank is a value
      identifier starting after the blank. */
  lemma NameStep(buf: string, st: ScanState)
    requires Ready(buf, st) && st.pos + 3 <= |buf|
    requires buf[st.pos] == ' ' && IsLower(buf[st.pos + 1]) && buf[st.pos + 2] == ' '
    ensures Step(buf, st).0.kind == ValueIdentifier
    ensures Moves(buf, st, Loc(Shifted(st, st.pos + 1)), Shifted(st, st.pos + 2))
  {
    var q := st.pos + 1;
    var r := Lexed(ValueIdentifier, q + 1);
    assert AlphaLowerRule(buf, q) == r by {
      assert RunEnd(buf, q + 1, LowerOrDigit) == q + 1;
      assert RunEnd(buf, q + 1, IdentTail) == q + 1;
      assert |buf[q..q + 1]| == 1;
    }
    assert Rule(buf, q) == r;
    StepAtRule(buf, Shifted(st, q), r);
    BlankSkipped(buf, st);
  }

  /** A blank and then '=' is the one-character Equal after the blank. */
  lemma EqualStep(buf: string, st: ScanState)
    requires Ready(buf, st) && st.pos + 2 <= |buf|
    requires buf[st.pos] == ' ' && buf[st.pos + 1] == '='
    ensures Step(buf, st).0.kind == Equal
    ensures Moves(buf, st, Loc(Shifted(st, st.pos + 1)), Shifted(st, st.pos + 2))
  {
    var q := st.pos + 1;
    assert Rule(buf, q) == Lexed(Equal, q + 1);
    StepAtRule(buf, Shifted(st, q), Lexed(Equal, q + 1));
    BlankSkipped(buf, st);
  }

  /** A blank and then three digits before a newline is a Number after the blank. */
  lemma NumberStep(buf: string, st: ScanState)
    requires Ready(buf, st) && st.pos + 5 <= |buf|
    requires buf[st.pos] == ' ' && IsDigit(buf[st.pos + 1]) && IsDigit(buf[st.pos + 2])
    requires IsDigit(buf[st.pos + 3]) && buf[st.pos + 4] == '\n'
    ensures Step(buf, st).0.kind == Number
    ensures Moves(buf, st, Loc(Shifted(st, st.pos + 1)), Shifted(st, st.pos + 4))
  {
    var q := st.pos + 1;
    var r := Lexed(Number, q + 3);
    assert NumberRule(buf, q) == r by {
      assert RunEnd(buf, q + 3, Digit) == q + 3;
      assert RunEnd(buf, q + 2, Digit) == q + 3;
      assert RunEnd(buf, q + 1, Digit) == q + 3;
    }
    assert Rule(buf, q) == r;
    StepAtRule(buf, Shifted(st, q), r);
    BlankSkipped(buf, st);
  }

  /** A newline right at the scan position starts the next line at column 0. */
  lemma LineBreakStep(buf: string, st: ScanState)
    requires Ready(buf, st) && buf[st.pos] == '\n'
    ensures var line := MakeLine(buf, st.pos + 1, st.line.num + 1);
      Moves(buf, st, SourceLocation(line, 0), ScanState(st.pos + 1, line, 0))
  {
  }

  /** The first two lines of the worked example's program. */
  const Opening: string := "let x = 123\nlet y = 456\n"

  /** The program of the worked example. */
  function Code(): string
  {
    Opening + "let result = x + y\nprint result\n"
  }

  /** The lexer's buffer for it. */
  function Buf(): string
  {
    Code() + [NUL]
  }

  /** A buffer that starts with the two opening lines of the program. */
  predicate Opens(buf: string)
  {
    WellFormed(buf) && |buf| > |Opening| && buf[..|Opening|] == Opening
  }

  lemma OpeningChars(buf: string)
    requires Opens(buf)
    ensures forall k :: 0 <= k < |Opening| ==> buf[k] == Opening[k]
  {
  }

  lemma OpeningChar(buf: string, k: nat)
    requires Opens(buf) && k < |Opening|
    ensures buf[k] == Opening[k]
  {
  }

  /** The second line runs from index 12 up to the newline at 23. */
  lemma SecondLineText(buf: string)
    requires Opens(buf)
    ensures Line1(buf).src == "let y = 456"
  {
    OpeningChars(buf);
    assert LineEnd(buf, 12) == 23 by {
      assert LineEnd(buf, 23) == 23;
      assert LineEnd(buf, 22) == 23;
      assert LineEnd(buf, 21) == 23;
      assert LineEnd(buf, 20) == 23;
      assert LineEnd(buf, 19) == 23;
      assert LineEnd(buf, 18) == 23;
      assert LineEnd(buf, 17) == 23;
      assert LineEnd(buf, 16) == 23;
      assert LineEnd(buf, 15) == 23;
      assert LineEnd(buf, 14) == 23;
      assert LineEnd(buf, 13) == 23;
    }
    assert buf[12..23] == Opening[12..23];
  }

  /** The first line of the program, numbered 0. */
  function Line0(buf: string): Line
    requires Opens(buf)
  {
    MakeLine(buf, 0, 0)
  }

  /** The second line of the program, numbered 1. */
  function Line1(buf: string): Line
    requires Opens(buf)
  {
    MakeLine(buf, 12, 1)
  }

  /** `let x`: the first two steps over the first line, with their locations. */
  lemma FirstLineWords(buf: string)
    requires Opens(buf)
    ensures var l := Line0(buf);
      && Moves(buf, ScanState(0, l, 0), SourceLocation(l, 0), ScanState(3, l, 3))
      && Moves(buf, ScanState(3, l, 3), SourceLocation(l, 4), ScanState(5, l, 5))
  {
    OpeningChar(buf, 0);
    OpeningChar(buf, 1);
    OpeningChar(buf, 2);
    OpeningChar(buf, 3);
    OpeningChar(buf, 4);
    OpeningChar(buf, 5);
    var l := Line0(buf);
    LetStep(buf, ScanState(0, l, 0));
    NameStep(buf, ScanState(3, l, 3));
  }

  /** ` = 123\n`: the rest of the first line, up to and including its line break. */
  lemma FirstLineEnd(buf: string)
    requires Opens(buf)
    ensures var l := Line0(buf);
      && Moves(buf, ScanState(5, l, 5), SourceLocation(l, 6), ScanState(7, l, 7))
      && Moves(buf, ScanState(7, l, 7), SourceLocation(l, 8), ScanState(11, l, 11))
      && Moves(buf, ScanState(11, l, 11), SourceLocation(Line1(buf), 0), ScanState(12, Line1(buf), 0))
  {
    OpeningChar(buf, 5);
    OpeningChar(buf, 6);
    OpeningChar(buf, 7);
    OpeningChar(buf, 8);
    OpeningChar(buf, 9);
    OpeningChar(buf, 10);
    OpeningChar(buf, 11);
    var l := Line0(buf);
    EqualStep(buf, ScanState(5, l, 5));
    NumberStep(buf, ScanState(7, l, 7));
    LineBreakStep(buf, ScanState(11, l, 11));
  }

  /** `let y`: the first two steps over the second line. */
  lemma SecondLineWords(buf: string)
    requires Opens(buf)
    ensures var l := Line1(buf);
      && Moves(buf, ScanState(12, l, 0), SourceLocation(l, 0), ScanState(15, l, 3))
      && Moves(buf, ScanState(15, l, 3), SourceLocation(l, 4), ScanState(17, l, 5))
  {
    OpeningChar(buf, 12);
    OpeningChar(buf, 13);
    OpeningChar(buf, 14);
    OpeningChar(buf, 15);
    OpeningChar(buf, 16);
    OpeningChar(buf, 17);
    var l := Line1(buf);
    LetStep(buf, ScanState(12, l, 0));
    NameStep(buf, ScanState(15, l, 3));
  }

  /** ` = 456`: the next two steps over the second line. */
  lemma SecondLineValue(buf: string)
    requires Opens(buf)
    ensures var l := Line1(buf);
      && Moves(buf, ScanState(17, l, 5), SourceLocation(l, 6), ScanState(19, l, 7))
      && Moves(buf, ScanState(19, l, 7), SourceLocation(l, 8), ScanState(23, l, 11))
  {
    OpeningChar(buf, 17);
    OpeningChar(buf, 18);
    OpeningChar(buf, 19);
    OpeningChar(buf, 20);
    OpeningChar(buf, 21);
    OpeningChar(buf, 22);
    OpeningChar(buf, 23);
    var l := Line1(buf);
    EqualStep(buf, ScanState(17, l, 5));
    NumberStep(buf, ScanState(19, l, 7));
  }

  /** The first two tokens sit at columns 0 and 4 of line 0, and five tokens
      take the scanner to column 0 of line 1. */
  lemma FirstLineTokens(buf: string)
    requires Opens(buf)
    ensures var s0 := Init(buf);
      && Nth(buf, s0, 0).location == SourceLocation(Line0(buf), 0)
      && Nth(buf, s0, 1).location == SourceLocation(Line0(buf), 4)
      && Advance(buf, s0, 5) == ScanState(12, Line1(buf), 0)
  {
    FirstLineWords(buf);
    FirstLineEnd(buf);
    var l := Line0(buf);
    var s0, s1, s2 := ScanState(0, l, 0), ScanState(3, l, 3), ScanState(5, l, 5);
    var s3, s4 := ScanState(7, l, 7), ScanState(11, l, 11);
    assert Init(buf) == s0 by {
      assert Init(buf) == ScanState(0, MakeLine(buf, 0, 0), 0);
    }
    NthAfterStep(buf, s0, s1, 0);
    AdvanceAfterStep(buf, s0, 4);
    AdvanceAfterStep(buf, s1, 3);
    AdvanceAfterStep(buf, s2, 2);
    AdvanceAfterStep(buf, s3, 1);
    AdvanceAfterStep(buf, s4, 0);
  }

  /** From the start of the second line, the first token sits at column 0 and
      the fourth (`456`) at column 8 of that line. */
  lemma SecondLineTokens(buf: string)
    requires Opens(buf)
    ensures var s := ScanState(12, Line1(buf), 0);
      && Nth(buf, s, 0).location == SourceLocation(Line1(buf), 0)
      && Nth(buf, s, 3).location == SourceLocation(Line1(buf), 8)
  {
    SecondLineWords(buf);
    SecondLineValue(buf);
    var l := Line1(buf);
    var s5, s6, s7, s8 := ScanState(12, l, 0), ScanState(15, l, 3), ScanState(17, l, 5), ScanState(19, l, 7);
    NthAfterStep(buf, s7, s8, 0);
    NthAfterStep(buf, s6, s7, 1);
    NthAfterStep(buf, s5, s6, 2);
  }

  /** On `let x = 123\nlet y = 456\n...`: the first two tokens are on line 0
      at columns 0 and 4; after five tokens have been consumed, the fourth
      upcoming token (`456`) is on line 1 at column 8, and the next token's
      line is the text `let y = 456`. */
  lemma TokenLocations()
    ensures var buf := Buf(); var s0 := Init(buf);
      && Nth(buf, s0, 0).location.line.num == 0 && Nth(buf, s0, 0).location.column == 0
      && Nth(buf, s0, 1).location.line.num == 0 && Nth(buf, s0, 1).location.column == 4
      && Nth(buf, Advance(buf, s0, 5), 3).location.line.num == 1
      && Nth(buf, Advance(buf, s0, 5), 3).location.column == 8
      && Nth(buf, Advance(buf, s0, 5), 0).location.line.src == "let y = 456"
  {
    var buf := Buf();
    assert buf[..|Opening|] == Opening;
    FirstLineTokens(buf);
    SecondLineTokens(buf);
    SecondLineText(buf);
  }
}
