/** The lexing rules as functions of the buffer: which token the scanner
    produces from a given position and where it stops. The Lexer class's
    methods are proved to compute exactly these. */
module LexerRules {
  import opened SourceLocations
  import opened Tokens
  import opened Iteration

  /** A NUL-terminated buffer: the last character is the terminator. */
  predicate WellFormed(buf: string)
  {
    |buf| > 0 && buf[|buf| - 1] == NUL
  }

  predicate IsDigit(c: char) { '0' <= c <= '9' }

  predicate IsLower(c: char) { 'a' <= c <= 'z' }

  predicate IsUpper(c: char) { 'A' <= c <= 'Z' }

  predicate IsAlpha(c: char) { IsLower(c) || IsUpper(c) }

  /** `is_alphalower_or_number`. */
  predicate IsAlphaLowerOrNumber(c: char) { IsDigit(c) || IsLower(c) }

  /** `is_boolean`. */
  predicate IsBoolean(view: string) { view == "true" || view == "false" }

  /** `is_keyword`: any of the reserved words. */
  predicate IsKeyword(view: string)
  {
    view in {"let", "fn", "data", "satisfy", "concept", "interpret", "effect"}
  }

  /** The character classes the scanner's loops run over. */
  datatype CharClass =
    | Space          // the blank skipped before a token
    | Digit          // a number's digit runs
    | LowerOrDigit   // the first run of a lowercase word
    | IdentTail      // the rest of a value identifier, '_' allowed
    | AlphaOrDigit   // a type identifier
    | StringBody     // inside a string literal, up to the quote or the terminator

  predicate InClass(cls: CharClass, c: char)
  {
    match cls
    case Space => c == ' '
    case Digit => IsDigit(c)
    case LowerOrDigit => IsAlphaLowerOrNumber(c)
    case IdentTail => c == '_' || IsAlphaLowerOrNumber(c)
    case AlphaOrDigit => IsAlpha(c) || IsDigit(c)
    case StringBody => c != '"' && c != NUL
  }

  /** The end of the longest run of `cls` characters starting at i; runs
      never include the terminator, so they stop inside the buffer. */
  function RunEnd(buf: string, i: nat, cls: CharClass): (e: nat)
    requires WellFormed(buf) && i < |buf|
    ensures i <= e < |buf|
    decreases |buf| - i
  {
    if !InClass(cls, buf[i]) then i else RunEnd(buf, i + 1, cls)
  }

  /** The run is exactly the longest one: every character before its end is
      in the class and the one at its end is not. */
  lemma {:induction false} RunEndIsLongest(buf: string, i: nat, cls: CharClass)
    requires WellFormed(buf) && i < |buf|
    ensures forall k :: i <= k < RunEnd(buf, i, cls) ==> InClass(cls, buf[k])
    ensures !InClass(cls, buf[RunEnd(buf, i, cls)])
    decreases |buf| - i
  {
    if InClass(cls, buf[i]) {
      RunEndIsLongest(buf, i + 1, cls);
    }
  }

  /** What one scanning rule recognised: the kind and the end of the lexeme. */
  datatype Lexed = Lexed(kind: Kind, end: nat)

  /** `tok_number`: a digit run; a '.' is accepted only when the character two
      past it is a digit, in which case the '.', the character after it and a
      further digit run are taken; otherwise the '.' is taken and the result
      is Unknown. */
  function NumberRule(buf: string, p: nat): (r: Lexed)
    requires WellFormed(buf) && p < |buf| && IsDigit(buf[p])
    ensures p < r.end < |buf|
  {
    FractionRule(buf, RunEnd(buf, p + 1, Digit))
  }

  /** The part of `tok_number` after the leading digit run, which ends at d. */
  function FractionRule(buf: string, d: nat): (r: Lexed)
    requires WellFormed(buf) && d < |buf|
    ensures d <= r.end < |buf|
  {
    if buf[d] != '.' then Lexed(Number, d)
    else if !IsDigit(At(buf, d + 2)) then Lexed(Unknown, d + 1)
    else Lexed(Number, RunEnd(buf, d + 2, Digit))
  }

  /** `tok_char`: a quote, any character and a closing quote; otherwise a
      one-character Unknown. */
  function CharRule(buf: string, p: nat): (r: Lexed)
    requires WellFormed(buf) && p < |buf| && buf[p] == '\''
    ensures p < r.end < |buf|
  {
    if At(buf, p + 2) == '\'' then Lexed(Char, p + 3) else Lexed(Unknown, p + 1)
  }

  /** `tok_string`: everything up to the closing quote, which is included;
      an unterminated literal is Unknown and spans to the terminator. */
  function StringRule(buf: string, p: nat): (r: Lexed)
    requires WellFormed(buf) && p < |buf| && buf[p] == '"'
    ensures p < r.end < |buf|
  {
    var e := RunEnd(buf, p + 1, StringBody);
    if buf[e] == NUL then Lexed(Unknown, e) else Lexed(String, e + 1)
  }

  /** `tok_alphalower`: a run of lowercase letters and digits that is not
      followed by '_' may be a Boolean or a Keyword; otherwise the run goes on
      over '_' too and is a ValueIdentifier. */
  function AlphaLowerRule(buf: string, p: nat): (r: Lexed)
    requires WellFormed(buf) && p < |buf| && IsLower(buf[p])
    ensures p < r.end < |buf|
  {
    var a := RunEnd(buf, p + 1, LowerOrDigit);
    if buf[a] != '_' && IsBoolean(buf[p..a]) then Lexed(Boolean, a)
    else if buf[a] != '_' && IsKeyword(buf[p..a]) then Lexed(Keyword, a)
    else Lexed(ValueIdentifier, RunEnd(buf, a, IdentTail))
  }

  /** `tok_type_identifier`: an uppercase letter, then letters and digits. */
  function TypeIdentifierRule(buf: string, p: nat): (r: Lexed)
    requires WellFormed(buf) && p < |buf| && IsUpper(buf[p])
    ensures p < r.end < |buf|
  {
    Lexed(TypeIdentifier, RunEnd(buf, p + 1, AlphaOrDigit))
  }

  /** `tok_is` / `tok_returns`: a two-character token when the second
      character matches, else a one-character Unknown. */
  function PairRule(buf: string, p: nat, second: char, kind: Kind): (r: Lexed)
    requires WellFormed(buf) && p < |buf| && buf[p] != NUL && second != NUL
    ensures p < r.end < |buf|
  {
    if At(buf, p + 1) == second then Lexed(kind, p + 2) else Lexed(Unknown, p + 1)
  }

  /** The single-character punctuation of `_next`. */
  function Punctuation(c: char): (k: Kind)
  {
    match c
    case ';' => End
    case '=' => Equal
    case '.' => Dot
    case ',' => Comma
    case '{' => OpenScope
    case '}' => CloseScope
    case '[' => OpenContext
    case ']' => CloseContext
    case '(' => OpenGroup
    case ')' => CloseGroup
    case _ => Unknown
  }

  predicate IsPunctuation(c: char)
  {
    c in {';', '=', '.', ',', '{', '}', '[', ']', '(', ')'}
  }

  /** `_next`'s dispatch on the first character of a token other than the
      terminator and the newline. */
  function Rule(buf: string, p: nat): (r: Lexed)
    requires WellFormed(buf) && p < |buf| && buf[p] != NUL && buf[p] != '\n'
    ensures p < r.end < |buf|
    ensures r.kind != Halt
  {
    var c := buf[p];
    if IsPunctuation(c) then Lexed(Punctuation(c), p + 1)
    else if c == ':' then PairRule(buf, p, ':', Is)
    else if c == '-' then PairRule(buf, p, '>', Returns)
    else if c == '\'' then CharRule(buf, p)
    else if c == '"' then StringRule(buf, p)
    else if IsDigit(c) then NumberRule(buf, p)
    else if IsAlpha(c) then
      if IsLower(c) then AlphaLowerRule(buf, p) else TypeIdentifierRule(buf, p)
    else Lexed(Unknown, p + 1)
  }

  /** The scanner's state: the cursor and the tracker's line and column. */
  datatype ScanState = ScanState(pos: nat, line: Line, column: nat)

  predicate Ready(buf: string, st: ScanState)
  {
    WellFormed(buf) && st.pos < |buf|
  }

  function Loc(st: ScanState): SourceLocation
  {
    SourceLocation(st.line, st.column)
  }

  /** The state after consuming characters up to e on the same line: one
      column per character. */
  function Shifted(st: ScanState, e: nat): (r: ScanState)
    requires st.pos <= e
  {
    ScanState(e, st.line, st.column + (e - st.pos))
  }

  /** A token spanning [st.pos, r.end) stamped at the start location, and the
      state after it. */
  function Emit(buf: string, st: ScanState, r: Lexed): (Token, ScanState)
    requires st.pos < r.end <= |buf|
  {
    (Token(r.kind, Loc(st), buf[st.pos..r.end]), Shifted(st, r.end))
  }

  /** `tok_unary(Newline)`: one character; the token and the new state are at
      the start of the next line. */
  function NewlineStep(buf: string, st: ScanState): (Token, ScanState)
    requires Ready(buf, st) && buf[st.pos] == '\n'
  {
    var line := MakeLine(buf, st.pos + 1, st.line.num + 1);
    (Token(Newline, SourceLocation(line, 0), buf[st.pos..st.pos + 1]), ScanState(st.pos + 1, line, 0))
  }

  /** `_next` after the blanks: halt at the terminator without moving, take
      a newline, or apply the rule for the current character. */
  function StepAt(buf: string, at: ScanState): (r: (Token, ScanState))
    requires Ready(buf, at)
    ensures Ready(buf, r.1) && at.pos <= r.1.pos
    ensures r.0.kind == Halt ==> buf[r.1.pos] == NUL
  {
    var p := at.pos;
    if buf[p] == NUL then (Token(Halt, Loc(at), buf[p..p + 1]), at)
    else if buf[p] == '\n' then NewlineStep(buf, at)
    else Emit(buf, at, Rule(buf, p))
  }

  /** `_next`: skip blanks, then scan from there. Outside a terminated buffer
      everything reads as the terminator, so the scanner halts in place there. */
  function Step(buf: string, st: ScanState): (r: (Token, ScanState))
    ensures Ready(buf, st) ==> Ready(buf, r.1) && st.pos <= r.1.pos
    ensures Ready(buf, st) && r.0.kind == Halt ==> buf[r.1.pos] == NUL
  {
    if !Ready(buf, st) then (Token(Halt, Loc(st), [NUL]), st)
    else StepAt(buf, Shifted(st, RunEnd(buf, st.pos, Space)))
  }

  /** One scanning step as a state transformer. */
  function Successor(buf: string): ScanState -> ScanState
  {
    st => Step(buf, st).1
  }

  /** The token one scanning step produces from a state. */
  function Produced(buf: string): ScanState -> Token
  {
    st => Step(buf, st).0
  }

  /** The state after k tokens. */
  function Advance(buf: string, st: ScanState, k: nat): ScanState
  {
    Iterate(Successor(buf), st, k)
  }

  /** The k-th token (0-based) produced from st. */
  function Nth(buf: string, st: ScanState, k: nat): Token
  {
    Produced(buf)(Advance(buf, st, k))
  }

  /** The first n tokens produced from st. */
  function Upcoming(buf: string, st: ScanState, n: nat): seq<Token>
  {
    Trace(Successor(buf), Produced(buf), st, n)
  }

  /** The state of a fresh lexer on `buf`. */
  function Init(buf: string): (st: ScanState)
    requires WellFormed(buf)
    ensures Ready(buf, st) && st.pos == 0 && st.column == 0 && st.line.num == 0
  {
    ScanState(0, MakeLine(buf, 0, 0), 0)
  }

  /** Scanning one token and then k more is scanning k + 1 tokens. */
  lemma AdvanceAfterStep(buf: string, st: ScanState, k: nat)
    ensures Advance(buf, Step(buf, st).1, k) == Advance(buf, st, k + 1)
  {
    IterateShift(Successor(buf), st, k);
  }

  /** The tokens after the first one are the tokens of the state after it. */
  lemma UpcomingAfterStep(buf: string, st: ScanState, n: nat)
    ensures Upcoming(buf, Step(buf, st).1, n) == Upcoming(buf, st, n + 1)[1..]
  {
    TraceShift(Successor(buf), Produced(buf), st, n);
  }

  /** The j-th of the upcoming tokens is the j-th token. */
  lemma UpcomingIndex(buf: string, st: ScanState, n: nat, j: nat)
    requires j < n
    ensures Upcoming(buf, st, n)[j] == Nth(buf, st, j)
  {
    TraceIndex(Successor(buf), Produced(buf), st, n, j);
  }

  /** The lookahead invariant: scanning from `origin` produces the tokens
      `la` one by one and ends in state `st`. */
  ghost predicate Buffered(buf: string, origin: ScanState, la: seq<Token>, st: ScanState)
    decreases |la|
  {
    if la == [] then origin == st
    else la[0] == Step(buf, origin).0 && Buffered(buf, Step(buf, origin).1, la[1..], st)
  }

  lemma SameHeadAndTail<T>(a: seq<T>, b: seq<T>)
    requires a != [] && |a| == |b| && a[0] == b[0] && a[1..] == b[1..]
    ensures a == b
  {
    assert a == [a[0]] + a[1..] && b == [b[0]] + b[1..];
  }

  /** The buffered tokens are the first tokens of the stream and the state
      after them is the state after that many steps. */
  lemma {:induction false} BufferedIsUpcoming(buf: string, origin: ScanState, la: seq<Token>, st: ScanState)
    requires Buffered(buf, origin, la, st)
    ensures la == Upcoming(buf, origin, |la|) && Advance(buf, origin, |la|) == st
    decreases |la|
  {
    if la != [] {
      var n := |la|;
      BufferedIsUpcoming(buf, Step(buf, origin).1, la[1..], st);
      UpcomingAfterStep(buf, origin, n - 1);
      AdvanceAfterStep(buf, origin, n - 1);
      UpcomingIndex(buf, origin, n, 0);
      assert Nth(buf, origin, 0) == la[0];
      SameHeadAndTail(la, Upcoming(buf, origin, n));
    }
  }

  /** Scanning one token past the buffered ones extends the buffer. */
  lemma {:induction false} BufferedPush(buf: string, origin: ScanState, la: seq<Token>, st: ScanState)
    requires Buffered(buf, origin, la, st)
    ensures Buffered(buf, origin, la + [Step(buf, st).0], Step(buf, st).1)
    decreases |la|
  {
    if la != [] {
      BufferedPush(buf, Step(buf, origin).1, la[1..], st);
      assert (la + [Step(buf, st).0])[1..] == la[1..] + [Step(buf, st).0];
    }
  }

  /** The buffered tokens are the first ones of the stream. */
  lemma BufferedIndex(buf: string, origin: ScanState, la: seq<Token>, st: ScanState, j: nat)
    requires Buffered(buf, origin, la, st) && j < |la|
    ensures la[j] == Nth(buf, origin, j)
  {
    BufferedIsUpcoming(buf, origin, la, st);
    UpcomingIndex(buf, origin, |la|, j);
  }
}
