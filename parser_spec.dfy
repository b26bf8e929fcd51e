/** What the v0 recursive-descent parser computes, as functions of the token
    stream and a position in it. Each function returns its result together
    with the position of the first token it did not consume; the parser's
    methods are proved to agree with them.

      program     := instruction*
      instruction := ('let' Identifier '=' expression | 'print' expression) Newline
      expression  := value ('+' expression)?
      value       := Number | Identifier */
module ParseSpec {
  import opened Results
  import opened Ast
  import opened TokenStreams
  import opened ParseErrors
  import Decimal

  const KeywordLet: string := "let"
  const KeywordPrint: string := "print"
  const Int64Max: nat := 0x7FFF_FFFF_FFFF_FFFF

  /** `std::from_chars` into an `int64_t` that starts at 0: the digits' value,
      or 0 when the value is out of range (the target is then left as it was). */
  function IntOfDigits(s: string): Int64
    requires Decimal.IsDigits(s)
  {
    if Decimal.Value(s) <= Int64Max then Decimal.Value(s) as Int64 else 0
  }

  /** A Number lexeme with a '.' denotes a double, any other an int64. */
  function ConstantOf(lexeme: string): Constant
    requires NumberLexeme(lexeme)
  {
    if '.' in lexeme then DoubleConstant(lexeme) else IntConstant(IntOfDigits(lexeme))
  }

  /** `unexpected_token` as the parser uses it: the token's lexeme is the detail. */
  function Unexpected(t: Token): ParseError
  {
    UnexpectedTokenError(t, t.lexeme)
  }

  /** `parse_value` at position k. */
  function ValueAt(s: TokenSeq, k: nat): (r: (Result<Value, ParseError>, nat))
    requires WellFormed(s)
    ensures r.1 == Succ(s, k)
  {
    var t := Produce(s, k);
    (if t.kind == Number then Ok(ConstantValue(ConstantOf(t.lexeme)))
     else if t.kind == Identifier then Ok(LocalValue(LocalVariable(t.lexeme)))
     else Err(Unexpected(t)),
     Succ(s, k))
  }

  /** `parse_expression` at position k. */
  function ExpressionAt(s: TokenSeq, k: nat): (r: (Result<Expression, ParseError>, nat))
    requires WellFormed(s)
    ensures k < End(s) ==> k < r.1
    ensures k <= End(s) ==> r.1 <= End(s)
    ensures k >= End(s) ==> r.1 == k
    decreases End(s) - k
  {
    var (v, k1) := ValueAt(s, k);
    if v.Err? then (Err(v.error), k1)
    else if Produce(s, k1).kind != Plus then (Ok(ValueExpression(v.value)), k1)
    else
      var (rest, k2) := ExpressionAt(s, k1 + 1);
      if rest.Err? then (Err(rest.error), k2)
      else (Ok(OperatorExpression(Operator(Add, ValueExpression(v.value), rest.value))), k2)
  }

  /** The mandatory Newline that ends an instruction. */
  function Terminated(s: TokenSeq, k: nat, instr: Instruction): (r: (Result<Instruction, ParseError>, nat))
    requires WellFormed(s)
  {
    var t := Produce(s, k);
    (if t.kind == Newline then Ok(instr) else Err(Unexpected(t)), Succ(s, k))
  }

  function InvalidDetail(lexeme: string): string
  {
    "must begin with 'let' or 'print'; found '" + lexeme + "'"
  }

  /** `parse_instruction` at position k. */
  function InstructionAt(s: TokenSeq, k: nat): (r: (Result<Instruction, ParseError>, nat))
    requires WellFormed(s)
    ensures k < End(s) ==> k < r.1
    ensures k <= End(s) ==> r.1 <= End(s)
  {
    var t0 := Produce(s, k);
    var k1 := Succ(s, k);
    if t0.kind != Identifier then (Err(Unexpected(t0)), k1)
    else if t0.lexeme == KeywordLet then
      var t1 := Produce(s, k1);
      var k2 := Succ(s, k1);
      if t1.kind != Identifier then (Err(Unexpected(t1)), k2)
      else
        var t2 := Produce(s, k2);
        var k3 := Succ(s, k2);
        if t2.kind != Equal then (Err(Unexpected(t2)), k3)
        else
          var (e, k4) := ExpressionAt(s, k3);
          if e.Err? then (Err(e.error), k4)
          else Terminated(s, k4, BindingInstruction(Binding(LocalVariable(t1.lexeme), e.value)))
    else if t0.lexeme == KeywordPrint then
      var (e, k2) := ExpressionAt(s, k1);
      if e.Err? then (Err(e.error), k2)
      else Terminated(s, k2, PrintInstruction(Print(e.value)))
    else (Err(InvalidInstructionError(t0, InvalidDetail(t0.lexeme))), k1)
  }

  /** The results of the `parse_instruction` calls `parse_program` makes from
      position k until the stream is halted; `pending` says whether a token
      is buffered (then the stream is not halted even at the end). With
      trailing blanks the stream is not halted right after the last ordinary
      token, so one more call is made there; it reads Halt. */
  function InstructionsFrom(s: TokenSeq, k: nat, pending: bool): (rs: seq<Result<Instruction, ParseError>>)
    requires WellFormed(s) && k <= End(s)
    decreases End(s) - k, pending
  {
    if k == End(s) && !pending then []
    else
      var (r, k') := InstructionAt(s, k);
      [r] + InstructionsFrom(s, k', false)
  }

  /** One turn of the `parse_program` loop: while the stream is not halted,
      the results are the next instruction's result followed by the results
      from where that instruction stopped. */
  lemma InstructionsFromStep(s: TokenSeq, k: nat, pending: bool)
    requires WellFormed(s) && k <= End(s) && !(k == End(s) && !pending)
    ensures InstructionsFrom(s, k, pending)
      == [InstructionAt(s, k).0] + InstructionsFrom(s, InstructionAt(s, k).1, false)
  {
  }

  lemma Reassociate<T>(a: seq<T>, x: T, b: seq<T>)
    ensures a + ([x] + b) == (a + [x]) + b
  {
  }

  /** `program_subsumer`: the program with one more instruction at its end. */
  function Append(program: seq<Instruction>, instr: Instruction): seq<Instruction>
  {
    program + [instr]
  }

  /** `parse_program`: the instruction results folded with `consume` into an
      initially empty program. */
  function ProgramFrom(s: TokenSeq, k: nat, pending: bool): Result<seq<Instruction>, ParseError>
    requires WellFormed(s) && k <= End(s)
  {
    ConsumeAll(Ok([]), Append, InstructionsFrom(s, k, pending))
  }
}
