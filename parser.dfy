/** The v0 recursive-descent parser: it owns a token stream and builds the
    syntax tree with the AST builders, threading every failure through
    `Result`. Each method is proved to compute the matching function of
    `ParseSpec` and to leave the stream at the position that function gives. */
module Parsing {
  import opened Options
  import opened Results
  import opened Ast
  import opened AstBuilders
  import opened TokenStreams
  import opened ParseErrors
  import opened ParseSpec

  /** The instructions of a parse result, read out of the program object. */
  function Contents(r: Result<Program, ParseError>): Result<seq<Instruction>, ParseError>
    reads if r.Ok? then {r.value} else {}
  {
    match r
    case Ok(p) => Ok(p.instructions)
    case Err(e) => Err(e)
  }

  class Parser {
    const stream: TokenStream

    /** The parser only ever peeks one token ahead. */
    ghost predicate Valid()
      reads this, stream
    {
      stream.Valid() && |stream.lookahead| <= 1
    }

    constructor (source: TokenSeq)
      requires WellFormed(source)
      ensures Valid() && fresh(stream)
      ensures stream.source == source && stream.origin == 0 && stream.lookahead == []
    {
      stream := new TokenStream(source);
    }

    /** `expect(kind)`: consumes one token; ok with it exactly when it has
        that kind, otherwise an unexpected-token error carrying its lexeme. */
    method Expect(kind: Kind) returns (r: Result<Token, ParseError>)
      requires Valid()
      modifies stream
      ensures Valid() && stream.lookahead == []
      ensures var t := Produce(stream.source, old(stream.origin));
        r == if t.kind == kind then Ok(t) else Err(Unexpected(t))
      ensures stream.origin == Succ(stream.source, old(stream.origin))
    {
      var token := stream.Next();
      if token.kind == kind {
        r := Ok(token);
      } else {
        r := Err(UnexpectedTokenError(token, token.lexeme));
      }
    }

    /** `attempt<0>(kind)`: the upcoming token if it has that kind; nothing
        is consumed. */
    method Attempt(kind: Kind) returns (r: Option<Token>)
      requires Valid()
      modifies stream
      ensures Valid() && |stream.lookahead| == 1
      ensures var t := Produce(stream.source, stream.origin);
        r == if t.kind == kind then Some(t) else None
      ensures stream.origin == old(stream.origin)
    {
      var token := stream.PeekToken(0);
      r := if token.kind == kind then Some(token) else None;
    }

    method ParseValue() returns (r: Result<Value, ParseError>)
      requires Valid()
      modifies stream
      ensures Valid() && stream.lookahead == []
      ensures r == ValueAt(stream.source, old(stream.origin)).0
      ensures stream.origin == ValueAt(stream.source, old(stream.origin)).1
    {
      var builder := new ValueBuilder();
      var maybeConstant := Attempt(Number);
      var maybeVariable := Attempt(Identifier);
      if maybeConstant.Some? {
        var _ := stream.Next();
        var lexeme := maybeConstant.value.lexeme;
        if '.' !in lexeme {
          builder.SetIntConstant(IntOfDigits(lexeme));
        } else {
          builder.SetDoubleConstant(lexeme);
        }
      } else if maybeVariable.Some? {
        var _ := stream.Next();
        builder.SetLocal(maybeVariable.value.lexeme);
      } else {
        var unexpected := stream.Next();
        return Err(UnexpectedTokenError(unexpected, unexpected.lexeme));
      }
      var v := builder.Build();
      r := Ok(v);
    }

    /** On success the token after the expression has been peeked and stays
        buffered; on failure nothing is buffered. */
    method ParseExpression() returns (r: Result<Expression, ParseError>)
      requires Valid()
      modifies stream
      ensures Valid()
      ensures r == ExpressionAt(stream.source, old(stream.origin)).0
      ensures stream.origin == ExpressionAt(stream.source, old(stream.origin)).1
      ensures if r.Ok? then |stream.lookahead| == 1 else stream.lookahead == []
      decreases End(stream.source) - stream.origin
    {
      var value := ParseValue();
      if value.Err? {
        return Err(value.error);
      }
      var plus := Attempt(Plus);
      if plus.None? {
        return value.ConsumeMap(v => ValueExpression(v));
      }
      var _ := stream.Next();
      var expr := ParseExpression();
      if expr.Err? {
        return Err(expr.error);
      }
      var opBuilder := new OperatorBuilder();
      opBuilder.SetKind(Add);
      opBuilder.SetA(ValueExpression(value.value));
      opBuilder.SetB(expr.value);
      var op := opBuilder.Build();
      r := Ok(OperatorExpression(op));
    }

    method ParseInstruction() returns (r: Result<Instruction, ParseError>)
      requires Valid()
      modifies stream
      ensures Valid() && stream.lookahead == []
      ensures r == InstructionAt(stream.source, old(stream.origin)).0
      ensures stream.origin == InstructionAt(stream.source, old(stream.origin)).1
    {
      var identifier := Expect(Identifier);
      if identifier.Err? {
        return Err(identifier.error);
      }
      var instructionBuilder := new InstructionBuilder();
      if identifier.value.lexeme == KeywordLet {
        var variable := Expect(Identifier);
        if variable.Err? {
          return Err(variable.error);
        }
        instructionBuilder.binding.SetVariable(variable.value.lexeme);
        var equals := Expect(Equal);
        if equals.Err? {
          return Err(equals.error);
        }
        var expression := ParseExpression();
        if expression.Err? {
          return Err(expression.error);
        }
        instructionBuilder.binding.SetExpression(expression.value);
      } else if identifier.value.lexeme == KeywordPrint {
        var expression := ParseExpression();
        if expression.Err? {
          return Err(expression.error);
        }
        instructionBuilder.printing.SetExpression(expression.value);
      } else {
        return Err(InvalidInstructionError(identifier.value, InvalidDetail(identifier.value.lexeme)));
      }
      var newline := Expect(Newline);
      if newline.Err? {
        return Err(newline.error);
      }
      var instr := instructionBuilder.Build();
      r := Ok(instr);
    }

    /** `parse_program`: instructions are parsed until the stream is halted
        and folded, in order, into one program with `consume`. */
    method ParseProgram() returns (r: Result<Program, ParseError>)
      requires Valid()
      modifies stream
      ensures Valid() && stream.IsHalted()
      ensures r.Ok? ==> fresh(r.value)
      ensures Contents(r) == ProgramFrom(stream.source, old(stream.origin), old(stream.lookahead) != [])
    {
      var program := new Program();
      r := Ok(program);
      ghost var all := InstructionsFrom(stream.source, stream.origin, stream.lookahead != []);
      ghost var rs: seq<Result<Instruction, ParseError>> := [];
      while !stream.IsHalted()
        invariant Valid()
        invariant r.Ok? ==> r.value == program
        invariant all == rs + InstructionsFrom(stream.source, stream.origin, stream.lookahead != [])
        invariant Contents(r) == ConsumeAll(Ok([]), Append, rs)
        decreases End(stream.source) - stream.origin, stream.lookahead != []
      {
        ghost var before := Contents(r);
        ghost var k := stream.origin;
        InstructionsFromStep(stream.source, k, stream.lookahead != []);
        ghost var later := InstructionsFrom(stream.source, InstructionAt(stream.source, k).1, false);
        var instr := ParseInstruction();
        assert InstructionsFrom(stream.source, stream.origin, stream.lookahead != []) == later;
        if r.Ok? {
          if instr.Ok? {
            program.AddInstruction(instr.value);
          } else {
            r := Err(instr.error);
          }
        }
        ConsumeAllSnoc(Ok([]), Append, rs, instr);
        assert Contents(r) == before.Consume(Append, instr);
        Reassociate(rs, instr, later);
        rs := rs + [instr];
      }
      assert InstructionsFrom(stream.source, stream.origin, false) == [];
      assert rs + [] == rs;
    }
  }
}
