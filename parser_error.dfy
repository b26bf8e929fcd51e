/** Parse errors: a class of failure, the token it was found at and the
    diagnostic message shown to the program author. */
module ParseErrors {
  import opened SourceLocations
  import opened TokenStreams
  import Decimal

  datatype ErrorType = InvalidInstruction | UnexpectedToken

  /** `to_string(ErrorType)`. */
  function TypeName(t: ErrorType): (s: string)
    ensures t == UnexpectedToken ==> s == "unexpected token"
    ensures t == InvalidInstruction ==> s == "invalid instruction"
  {
    match t
    case UnexpectedToken => "unexpected token"
    case InvalidInstruction => "invalid instruction"
  }

  const Preamble: string := "Failed to parse source code: "

  /** The message the constructor composes: a headline naming the error class
      and the (0-based) line number, a blank line, the caret diagram of the
      token's location, the caller's text and a final newline. */
  function Message(t: ErrorType, token: Token, detail: string): string
  {
    Preamble + TypeName(t) + " on line " + Decimal.Text(token.location.line.num) + "\n\n"
      + Diagram(token.location) + detail + "\n"
  }

  datatype ParseError = ParseError(errorType: ErrorType, token: Token, message: string)

  /** `ParseError(type, token, message)`. */
  function MakeError(t: ErrorType, token: Token, detail: string): (e: ParseError)
    ensures e.errorType == t && e.token == token && e.message == Message(t, token, detail)
  {
    ParseError(t, token, Message(t, token, detail))
  }

  /** `ParseError::invalid_instruction(token, message)`. */
  function InvalidInstructionError(token: Token, detail: string): (e: ParseError)
    ensures e.errorType == InvalidInstruction && e.token == token
    ensures e.message == Message(InvalidInstruction, token, detail)
  {
    MakeError(InvalidInstruction, token, detail)
  }

  /** `ParseError::unexpected_token(token, message)`. */
  function UnexpectedTokenError(token: Token, detail: string): (e: ParseError)
    ensures e.errorType == UnexpectedToken && e.token == token
    ensures e.message == Message(UnexpectedToken, token, detail)
  {
    MakeError(UnexpectedToken, token, detail)
  }

  /** The headline can be read back: after the preamble comes the error
      class, then " on line ", then the decimal digits of the line number up
      to the first newline, and those digits denote the line number. */
  lemma MessageHeadline(t: ErrorType, token: Token, detail: string)
    ensures var m := Message(t, token, detail);
      var head := Preamble + TypeName(t) + " on line ";
      var digits := Decimal.Text(token.location.line.num);
      && m[..|head|] == head
      && m[|head|..|head| + |digits|] == digits
      && Decimal.IsDigits(digits)
      && Decimal.Value(digits) == token.location.line.num
      && m[|head| + |digits|..|head| + |digits| + 2] == "\n\n"
  {
    var head := Preamble + TypeName(t) + " on line ";
    var digits := Decimal.Text(token.location.line.num);
    var d := Diagram(token.location);
    var rest := "\n\n" + d + detail + "\n";
    Regroup(head + digits, "\n\n", d, detail, "\n");
    Slices(head, digits, rest);
    Slices("\n\n", d + detail, "\n");
    Decimal.ValueOfText(token.location.line.num);
  }

  lemma Regroup(x: string, a: string, b: string, c: string, e: string)
    ensures x + a + b + c + e == x + (a + b + c + e)
  {
  }

  lemma Slices(a: string, b: string, c: string)
    ensures (a + b + c)[..|a|] == a
    ensures (a + b + c)[|a|..|a| + |b|] == b
    ensures (a + b + c)[|a| + |b|..] == c
    ensures forall k :: 0 <= k <= |c| ==> (a + b + c)[|a| + |b|..|a| + |b| + k] == c[..k]
  {
  }

  /** After the headline, the message holds the caret diagram of the token's
      location, then the caller's text, and it ends with a newline. */
  lemma MessageBody(t: ErrorType, token: Token, detail: string)
    ensures var m := Message(t, token, detail);
      var start := |Preamble + TypeName(t) + " on line " + Decimal.Text(token.location.line.num)| + 2;
      var d := Diagram(token.location);
      && |m| == start + |d| + |detail| + 1
      && m[start..start + |d|] == d
      && m[start + |d|..|m| - 1] == detail
      && m[|m| - 1] == '\n'
  {
    var head := Preamble + TypeName(t) + " on line " + Decimal.Text(token.location.line.num) + "\n\n";
    var d := Diagram(token.location);
    assert Message(t, token, detail) == head + d + detail + "\n";
  }

  /** The two error classes never produce the same message. */
  lemma ClassesDistinguished(token: Token, detail: string, token': Token, detail': string)
    ensures Message(InvalidInstruction, token, detail) != Message(UnexpectedToken, token', detail')
  {
    var m := Message(InvalidInstruction, token, detail);
    var m' := Message(UnexpectedToken, token', detail');
    assert m[|Preamble|] == 'i';
    assert m'[|Preamble|] == 'u';
  }
}
