/** What the scanning rules promise, stated over the rule functions and the
    token stream they define. */
module LexerProperties {
  import opened SourceLocations
  import opened Tokens
  import opened Iteration
  import opened LexerRules
  import opened Options

  /** A blank before a token changes nothing but where scanning starts: the
      same token and the same following state come out. */
  lemma BlankSkipped(buf: string, st: ScanState)
    requires Ready(buf, st) && buf[st.pos] == ' '
    ensures Step(buf, Shifted(st, st.pos + 1)) == Step(buf, st)
  {
    assert RunEnd(buf, st.pos, Space) == RunEnd(buf, st.pos + 1, Space);
  }

  /** A newline (after blanks) is never skipped: it is a one-character Newline
      token stamped at column 0 of the next line, and scanning resumes there. */
  lemma NewlineToken(buf: string, st: ScanState)
    requires Ready(buf, st) && buf[RunEnd(buf, st.pos, Space)] == '\n'
    ensures var p := RunEnd(buf, st.pos, Space);
      var line := MakeLine(buf, p + 1, st.line.num + 1);
      && Step(buf, st).0 == Token(Newline, SourceLocation(line, 0), "\n")
      && Step(buf, st).1 == ScanState(p + 1, line, 0)
  {
  }

  /** At the terminator the scanner produces Halt with the one-character
      lexeme and does not move, so scanning again gives the same again. */
  lemma HaltRepeats(buf: string, st: ScanState)
    requires Ready(buf, st) && Step(buf, st).0.kind == Halt
    ensures Step(buf, st).0.lexeme == [NUL]
    ensures Step(buf, Step(buf, st).1) == Step(buf, st)
  {
    var at := Shifted(st, RunEnd(buf, st.pos, Space));
    assert Step(buf, st) == StepAt(buf, at);
    assert buf[at.pos] == NUL;
    assert RunEnd(buf, at.pos, Space) == at.pos;
    assert Shifted(at, at.pos) == at;
  }

  /** Once the stream yields Halt it yields that same Halt forever. */
  lemma {:induction false} HaltForever(buf: string, st: ScanState, k: nat)
    requires Ready(buf, st) && Step(buf, st).0.kind == Halt
    ensures Nth(buf, st, k) == Step(buf, st).0
    ensures Advance(buf, st, k + 1) == Step(buf, st).1
  {
    HaltRepeats(buf, st);
    if k > 0 {
      HaltForever(buf, st, k - 1);
    }
  }

  predicate AllIn(cls: CharClass, s: string)
  {
    forall k :: 0 <= k < |s| ==> InClass(cls, s[k])
  }

  /** `tok_number`: the leading digit run ends at d. The result is Unknown
      exactly when a '.' follows and the character two past it is not a
      digit; it then spans the digits and the '.'. Otherwise it is a Number:
      the digits alone when no '.' follows, else the digits, the '.', the
      character after it and a further, maximal and non-empty digit run. */
  lemma NumberLexemes(buf: string, p: nat)
    requires WellFormed(buf) && p < |buf| && IsDigit(buf[p])
    ensures var r := NumberRule(buf, p); var d := RunEnd(buf, p, Digit);
      && p < d && AllIn(Digit, buf[p..d]) && !IsDigit(buf[d])
      && (r.kind == Number || r.kind == Unknown)
      && (r.kind == Unknown <==> buf[d] == '.' && !IsDigit(At(buf, d + 2)))
      && (r.kind == Unknown ==> r.end == d + 1)
      && (r.kind == Number && buf[d] != '.' ==> r.end == d)
      && (r.kind == Number && buf[d] == '.' ==>
            d + 2 < r.end && AllIn(Digit, buf[d + 2..r.end]) && !IsDigit(buf[r.end]))
  {
    var d := RunEnd(buf, p, Digit);
    assert d == RunEnd(buf, p + 1, Digit);
    RunEndIsLongest(buf, p, Digit);
    if buf[d] == '.' && IsDigit(At(buf, d + 2)) {
      RunEndIsLongest(buf, d + 2, Digit);
    }
  }

  /** `tok_alphalower`: with a the end of the run of lowercase letters and
      digits, the word is a Boolean when it is `true` or `false` and no '_'
      follows, a Keyword when it is a reserved word and no '_' follows, and
      otherwise a ValueIdentifier that extends over the longest run of
      lowercase letters, digits and '_'. */
  lemma LowercaseWords(buf: string, p: nat)
    requires WellFormed(buf) && p < |buf| && IsLower(buf[p])
    ensures var r := AlphaLowerRule(buf, p); var a := RunEnd(buf, p, LowerOrDigit);
      && (r.kind == Boolean || r.kind == Keyword || r.kind == ValueIdentifier)
      && (r.kind == Boolean <==> buf[a] != '_' && IsBoolean(buf[p..a]))
      && (r.kind == Keyword <==> buf[a] != '_' && !IsBoolean(buf[p..a]) && IsKeyword(buf[p..a]))
      && (r.kind != ValueIdentifier ==> r.end == a)
      && AllIn(IdentTail, buf[p..r.end]) && (r.kind == ValueIdentifier ==> !InClass(IdentTail, buf[r.end]))
  {
    var a := RunEnd(buf, p, LowerOrDigit);
    assert a == RunEnd(buf, p + 1, LowerOrDigit);
    RunEndIsLongest(buf, p, LowerOrDigit);
    var r := AlphaLowerRule(buf, p);
    if r.kind == ValueIdentifier {
      RunEndIsLongest(buf, a, IdentTail);
    }
  }

  /** `tok_type_identifier`: an uppercase letter and the longest run of
      letters and digits after it. */
  lemma TypeIdentifiers(buf: string, p: nat)
    requires WellFormed(buf) && p < |buf| && IsUpper(buf[p])
    ensures var r := TypeIdentifierRule(buf, p);
      && r.kind == TypeIdentifier
      && AllIn(AlphaOrDigit, buf[p..r.end]) && !InClass(AlphaOrDigit, buf[r.end])
  {
    RunEndIsLongest(buf, p + 1, AlphaOrDigit);
  }

  /** `tok_is` / `tok_returns`: the two-character token exactly when the
      second character matches, otherwise a one-character Unknown. */
  lemma PairForms(buf: string, p: nat, second: char, kind: Kind)
    requires WellFormed(buf) && p < |buf| && buf[p] != NUL && second != NUL && kind != Unknown
    ensures var r := PairRule(buf, p, second, kind);
      && (r.kind == kind <==> At(buf, p + 1) == second)
      && (r.kind == kind ==> r.end == p + 2)
      && (r.kind != kind ==> r == Lexed(Unknown, p + 1))
  {
  }

  /** `tok_char`: a three-character Char exactly when the character two
      past the quote is a quote, otherwise a one-character Unknown. */
  lemma CharForms(buf: string, p: nat)
    requires WellFormed(buf) && p < |buf| && buf[p] == '\''
    ensures var r := CharRule(buf, p);
      && (r.kind == Char <==> At(buf, p + 2) == '\'')
      && (r.kind == Char ==> r.end == p + 3 && buf[p + 2] == '\'')
      && (r.kind != Char ==> r == Lexed(Unknown, p + 1))
  {
  }

  /** `tok_string`: a String spans from the opening quote to the first
      closing quote, newlines included; with no closing quote before the
      terminator it is Unknown and spans up to the terminator. */
  lemma StringForms(buf: string, p: nat)
    requires WellFormed(buf) && p < |buf| && buf[p] == '"'
    ensures var r := StringRule(buf, p);
      && (r.kind == String || r.kind == Unknown)
      && (r.kind == String ==> p + 1 < r.end && buf[r.end - 1] == '"' && AllIn(StringBody, buf[p + 1..r.end - 1]))
      && (r.kind == Unknown ==> buf[r.end] == NUL && AllIn(StringBody, buf[p + 1..r.end]))
  {
    RunEndIsLongest(buf, p + 1, StringBody);
  }

  /** A character that starts no token form is a one-character Unknown. */
  lemma OtherIsUnknown(buf: string, p: nat)
    requires WellFormed(buf) && p < |buf|
    requires var c := buf[p];
      (c != NUL && c != '\n' && !IsPunctuation(c) && c != ':' && c != '-'
       && c != '\'' && c != '"' && !IsDigit(c) && !IsAlpha(c))
    ensures Rule(buf, p) == Lexed(Unknown, p + 1)
  {
  }

  /** The rule applied at a non-blank position decides the step. */
  lemma StepAtRule(buf: string, st: ScanState, r: Lexed)
    requires Ready(buf, st) && buf[st.pos] != ' ' && buf[st.pos] != NUL && buf[st.pos] != '\n'
    requires Rule(buf, st.pos) == r
    ensures Step(buf, st) == Emit(buf, st, r)
  {
    assert RunEnd(buf, st.pos, Space) == st.pos;
    assert Shifted(st, st.pos) == st;
  }

  /** "1.5" at the end of the input: the character two past the '.' is the
      terminator, so the number rule yields Unknown "1.", and scanning resumes
      at "5", which is a Number. */
  lemma DotBeforeLastDigit()
    ensures var buf := "1.5" + [NUL];
      && NumberRule(buf, 0) == Lexed(Unknown, 2) && buf[0..2] == "1."
      && NumberRule(buf, 2) == Lexed(Number, 3) && buf[2..3] == "5"
  {
    var buf := "1.5" + [NUL];
    assert RunEnd(buf, 1, Digit) == 1;
    assert RunEnd(buf, 3, Digit) == 3;
  }

  /** The character `peek_n` reads as written: `*(_code + n)` is not
      bounds-checked, so an index past the buffer (whose last character is
      the terminator) has no defined value, which is None here. */
  function RawAt(buf: string, i: nat): (r: Option<char>)
    ensures r.Some? <==> i < |buf|
    ensures r.Some? ==> r.value == At(buf, i)
  {
    if i < |buf| then Some(buf[i]) else None
  }

  /** `FractionRule` with the `peek_n(2)` test read as written: None when the
      test reads past the buffer. */
  function FractionRuleAsWritten(buf: string, d: nat): (r: Option<Lexed>)
    requires WellFormed(buf) && d < |buf|
  {
    if buf[d] != '.' then Some(Lexed(Number, d))
    else match RawAt(buf, d + 2)
      case None => None
      case Some(c) =>
        if !IsDigit(c) then Some(Lexed(Unknown, d + 1)) else Some(Lexed(Number, RunEnd(buf, d + 2, Digit)))
  }

  /** `CharRule` with the `peek_n(2)` test read as written. */
  function CharRuleAsWritten(buf: string, p: nat): (r: Option<Lexed>)
    requires WellFormed(buf) && p < |buf| && buf[p] == '\''
  {
    match RawAt(buf, p + 2)
    case None => None
    case Some(c) => if c == '\'' then Some(Lexed(Char, p + 3)) else Some(Lexed(Unknown, p + 1))
  }

  /** As written, the number rule's fraction test reads past the buffer
      exactly when a '.' is the last character before the terminator;
      everywhere else it agrees with `FractionRule`, which reads the
      terminator there and yields Unknown. */
  lemma FractionReadInBounds(buf: string, d: nat)
    requires WellFormed(buf) && d < |buf|
    ensures FractionRuleAsWritten(buf, d).None? <==> buf[d] == '.' && d + 2 == |buf|
    ensures FractionRuleAsWritten(buf, d).Some? ==> FractionRuleAsWritten(buf, d).value == FractionRule(buf, d)
    ensures buf[d] == '.' && d + 2 == |buf| ==> FractionRule(buf, d) == Lexed(Unknown, d + 1)
  {
  }

  /** As written, the char rule's closing-quote test reads past the buffer
      exactly when the quote is the last character before the terminator;
      everywhere else it agrees with `CharRule`, which yields a one-character
      Unknown there. */
  lemma CharReadInBounds(buf: string, p: nat)
    requires WellFormed(buf) && p < |buf| && buf[p] == '\''
    ensures CharRuleAsWritten(buf, p).None? <==> p + 2 == |buf|
    ensures CharRuleAsWritten(buf, p).Some? ==> CharRuleAsWritten(buf, p).value == CharRule(buf, p)
    ensures p + 2 == |buf| ==> CharRule(buf, p) == Lexed(Unknown, p + 1)
  {
  }

  /** "1." at the end of the input: after the digit run, `tok_number` tests
      index 3 of a three-character buffer; the corrected rule gives Unknown
      "1.". A lone quote at the end: `tok_char` tests index 2 of a
      two-character buffer; the corrected rule gives Unknown "'". */
  lemma ReadsPastTheTerminator()
    ensures var buf := "1." + [NUL];
      && RunEnd(buf, 1, Digit) == 1 && 1 + 2 == |buf|
      && FractionRuleAsWritten(buf, 1) == None
      && NumberRule(buf, 0) == Lexed(Unknown, 2) && buf[0..2] == "1."
    ensures var buf := "'" + [NUL];
      && CharRuleAsWritten(buf, 0) == None
      && CharRule(buf, 0) == Lexed(Unknown, 1)
  {
    var buf := "1." + [NUL];
    assert RunEnd(buf, 1, Digit) == 1;
  }

  /** "12190.123" is one Number; "12190. " stops after the '.' as Unknown. */
  lemma DecimalNumbers()
    ensures var buf := "12190.123" + [NUL]; NumberRule(buf, 0) == Lexed(Number, 9)
    ensures var buf := "12190. " + [NUL]; NumberRule(buf, 0) == Lexed(Unknown, 6) && buf[0..6] == "12190."
  {
    var a := "12190.123" + [NUL];
    assert RunEnd(a, 5, Digit) == 5;
    assert RunEnd(a, 3, Digit) == 5;
    assert RunEnd(a, 1, Digit) == 5;
    assert RunEnd(a, 9, Digit) == 9;
    assert RunEnd(a, 7, Digit) == 9;
    var b := "12190. " + [NUL];
    assert RunEnd(b, 5, Digit) == 5;
    assert RunEnd(b, 3, Digit) == 5;
    assert RunEnd(b, 1, Digit) == 5;
  }

  /** The quirk of the two-ahead check: "1.x5" is a single Number. */
  lemma NumberSkipsCharAfterDot()
    ensures var buf := "1.x5" + [NUL]; NumberRule(buf, 0) == Lexed(Number, 4)
  {
    var buf := "1.x5" + [NUL];
    assert RunEnd(buf, 1, Digit) == 1;
    assert RunEnd(buf, 3, Digit) == 4;
  }

  /** The loop condition of `tok_string` as written: go on while the lexer is
      not halted and the character is not a quote. Halted needs the
      lookahead buffer to be empty as well as the terminator under the cursor. */
  predicate StringLoopContinuesAsWritten(buf: string, i: nat, lookaheadEmpty: bool)
  {
    !(lookaheadEmpty && At(buf, i) == NUL) && At(buf, i) != '"'
  }

  /** With an empty lookahead buffer the condition as written is exactly the
      string-body class the model scans over, inside the buffer. */
  lemma StringLoopAgreesWhenNothingBuffered(buf: string, i: nat)
    requires i < |buf|
    ensures StringLoopContinuesAsWritten(buf, i, true) <==> InClass(StringBody, buf[i])
  {
  }

  /** With tokens buffered, as when `peek_token` scans a second token, the
      condition as written does not stop at the terminator of an unterminated
      literal, so the loop goes on to read past the end of the buffer. The
      model's rule stops there: `a "x` gives Unknown `"x` ending at the
      terminator. */
  lemma StringLoopPassesTerminator()
    ensures var buf := "a \"x" + [NUL];
      && StringLoopContinuesAsWritten(buf, |buf| - 1, false)
      && StringRule(buf, 2) == Lexed(Unknown, 4) && buf[4] == NUL
  {
    var buf := "a \"x" + [NUL];
    assert RunEnd(buf, 4, StringBody) == 4;
    assert RunEnd(buf, 3, StringBody) == 4;
  }
}
