/** What the C back end promises about the code it writes: a sum's code is
    its operands' code joined by " + ", an integer literal is written back
    as it was read, programs compose, and the file carries `<stdio.h>`
    exactly when the program prints. */
module CodegenProperties {
  import opened Ast
  import opened CDependencies
  import opened CFileBuilders
  import opened CVisitors
  import opened Results
  import Decimal
  import TokenStreams
  import ParseSpec
  import ParserProperties
  import ParseErrors

  /** Codes joined by " + ". */
  function JoinPlus(codes: seq<string>): string
    decreases |codes|
  {
    if codes == [] then "" else if |codes| == 1 then codes[0] else codes[0] + " + " + JoinPlus(codes[1..])
  }

  function ValueCodes(vs: seq<Value>): (r: seq<string>)
    ensures |r| == |vs|
  {
    seq(|vs|, i requires 0 <= i < |vs| => ValueCode(vs[i]))
  }

  lemma {:induction false} JoinPlusAppend(xs: seq<string>, ys: seq<string>)
    requires xs != [] && ys != []
    ensures JoinPlus(xs + ys) == JoinPlus(xs) + " + " + JoinPlus(ys)
    decreases |xs|
  {
    assert (xs + ys)[0] == xs[0];
    assert (xs + ys)[1..] == xs[1..] + ys;
    if |xs| > 1 {
      JoinPlusAppend(xs[1..], ys);
    }
  }

  /** The code of any expression tree, however it nests, is the code of its
      values, left to right, joined by " + ". */
  lemma {:induction false} ExpressionCodeJoins(e: Expression)
    ensures ExpressionCode(e) == JoinPlus(ValueCodes(ParserProperties.Operands(e)))
  {
    match e
    case ValueExpression(v) =>
    case OperatorExpression(op) =>
      ExpressionCodeJoins(op.a);
      ExpressionCodeJoins(op.b);
      var xs, ys := ParserProperties.Operands(op.a), ParserProperties.Operands(op.b);
      ParserProperties.OperandsNonEmpty(op.a);
      ParserProperties.OperandsNonEmpty(op.b);
      assert ValueCodes(xs + ys) == ValueCodes(xs) + ValueCodes(ys);
      JoinPlusAppend(ValueCodes(xs), ValueCodes(ys));
  }

  /** An integer literal in its usual decimal form that fits in an int64 is
      written to C exactly as it was read. */
  lemma IntLiteralCode(lexeme: string)
    requires Decimal.IsCanonical(lexeme) && Decimal.Value(lexeme) <= ParseSpec.Int64Max
    ensures TokenStreams.NumberLexeme(lexeme) && ConstantCode(ParseSpec.ConstantOf(lexeme)) == lexeme
  {
    Decimal.TextOfValue(lexeme);
  }

  /** A negative constant is written with a leading minus and then its
      magnitude. */
  lemma NegativeConstantCode(i: Int64)
    requires i < 0
    ensures var c := ConstantCode(IntConstant(i));
      c[0] == '-' && c[1..] == Decimal.Text(-(i as int))
  {
  }

  /** Visiting two runs of instructions writes their codes one after the other. */
  lemma {:induction false} ProgramCodeAppend(xs: seq<Instruction>, ys: seq<Instruction>)
    ensures ProgramCode(xs + ys) == ProgramCode(xs) + ProgramCode(ys)
    decreases |ys|
  {
    if ys == [] {
      assert xs + ys == xs;
    } else {
      var front, last := ys[..|ys| - 1], ys[|ys| - 1];
      assert (xs + ys)[..|xs + ys| - 1] == xs + front;
      ProgramCodeAppend(xs, front);
      Associate(ProgramCode(xs), ProgramCode(front), InstructionCode(last));
    }
  }

  /** The include section of the file is the `<stdio.h>` line when the
      program prints and empty when it does not. */
  lemma ProgramIncludes(instrs: seq<Instruction>)
    ensures IncludeSection(ProgramDependencies(instrs)) == if HasPrint(instrs) then "<stdio.h>\n" else ""
  {
    if HasPrint(instrs) {
      assert IncludeSection([StdIo]) == IncludeSection([]) + IncludeLine(StdIo);
    }
  }

  /** Whether the program prints can be read off the file's first character:
      the `<` of the include line, or else the newline of the empty line. */
  lemma FileOpensWithInclude(instrs: seq<Instruction>)
    ensures HasPrint(instrs) <==> ProgramFile(instrs)[0] == '<'
  {
    ProgramIncludes(instrs);
  }

  /** The end-to-end sample `let x = 1 + 2`, `let y = 3`, `print x + y`, as
      the parser builds it (SampleParses). */
  function SampleBindingX(): Instruction
  {
    BindingInstruction(Binding(LocalVariable("x"), OperatorExpression(Operator(Add,
      ValueExpression(ConstantValue(IntConstant(1))), ValueExpression(ConstantValue(IntConstant(2)))))))
  }

  function SampleBindingY(): Instruction
  {
    BindingInstruction(Binding(LocalVariable("y"), ValueExpression(ConstantValue(IntConstant(3)))))
  }

  function SamplePrint(): Instruction
  {
    PrintInstruction(Print(OperatorExpression(Operator(Add,
      ValueExpression(LocalValue(LocalVariable("x"))), ValueExpression(LocalValue(LocalVariable("y")))))))
  }

  function Sample(): seq<Instruction>
  {
    [SampleBindingX(), SampleBindingY(), SamplePrint()]
  }

  /** Each sample instruction's line of C. */
  lemma SampleLines()
    ensures InstructionCode(SampleBindingX()) == "int x = 1 + 2;\n"
    ensures InstructionCode(SampleBindingY()) == "int y = 3;\n"
    ensures InstructionCode(SamplePrint()) == "printf(\"%d\\n\", x + y);\n"
  {
    assert ConstantCode(IntConstant(1)) == "1" && ConstantCode(IntConstant(2)) == "2";
    assert ConstantCode(IntConstant(3)) == "3";
  }

  /** The sample's code is its three lines in order, and it needs `<stdio.h>`. */
  lemma SampleProgramCode()
    ensures ProgramCode(Sample()) == "int x = 1 + 2;\n" + "int y = 3;\n" + "printf(\"%d\\n\", x + y);\n"
    ensures ProgramDependencies(Sample()) == [StdIo]
  {
    var i0, i1, i2 := SampleBindingX(), SampleBindingY(), SamplePrint();
    SampleLines();
    var instrs := Sample();
    assert ProgramCode([i0]) == InstructionCode(i0) by {
      assert [i0][..0] == [];
    }
    assert ProgramCode([i0, i1]) == InstructionCode(i0) + InstructionCode(i1) by {
      assert [i0, i1][..1] == [i0];
    }
    assert ProgramCode(instrs) == InstructionCode(i0) + InstructionCode(i1) + InstructionCode(i2) by {
      assert instrs[..2] == [i0, i1];
    }
    assert instrs[2].PrintInstruction?;
  }

  /** The tokens of `let x = 1 + 2` and its newline. */
  function LineX(): seq<TokenStreams.Token>
  {
    var T := ParserProperties.Tok;
    [T(TokenStreams.Identifier, "let"), T(TokenStreams.Identifier, "x"), T(TokenStreams.Equal, "="),
     T(TokenStreams.Number, "1"), T(TokenStreams.Plus, "+"), T(TokenStreams.Number, "2"),
     T(TokenStreams.Newline, "\n")]
  }

  /** The tokens of `let y = 3` and its newline. */
  function LineY(): seq<TokenStreams.Token>
  {
    var T := ParserProperties.Tok;
    [T(TokenStreams.Identifier, "let"), T(TokenStreams.Identifier, "y"), T(TokenStreams.Equal, "="),
     T(TokenStreams.Number, "3"), T(TokenStreams.Newline, "\n")]
  }

  /** The tokens of `print x + y` and its newline. */
  function LinePrint(): seq<TokenStreams.Token>
  {
    var T := ParserProperties.Tok;
    [T(TokenStreams.Identifier, "print"), T(TokenStreams.Identifier, "x"), T(TokenStreams.Plus, "+"),
     T(TokenStreams.Identifier, "y"), T(TokenStreams.Newline, "\n")]
  }

  /** The sample's tokens, one instruction per line, then Halt. */
  function SampleTokens(): TokenStreams.TokenSeq
  {
    TokenStreams.TokenSeq(LineX() + LineY() + LinePrint(), ParserProperties.Tok(TokenStreams.Halt, "\0"), false)
  }

  /** The token at k + i of a stream whose tokens from k on are `line`. */
  lemma TokenOfLine(s: TokenStreams.TokenSeq, k: nat, line: seq<TokenStreams.Token>, i: nat)
    requires k + |line| <= |s.toks| && s.toks[k..k + |line|] == line && i < |line|
    ensures TokenStreams.Produce(s, k + i) == line[i]
  {
  }

  /** Wherever the tokens of `let x = 1 + 2` and a newline stand, they parse
      to the first sample instruction and the parser stops after them. */
  lemma ParsesLineX(s: TokenStreams.TokenSeq, k: nat)
    requires TokenStreams.WellFormed(s) && k + 7 <= |s.toks| && s.toks[k..k + 7] == LineX()
    ensures ParseSpec.InstructionAt(s, k) == (Ok(SampleBindingX()), k + 7)
  {
    var line := LineX();
    TokenOfLine(s, k, line, 0);
    TokenOfLine(s, k, line, 1);
    TokenOfLine(s, k, line, 2);
    TokenOfLine(s, k, line, 3);
    TokenOfLine(s, k, line, 4);
    TokenOfLine(s, k, line, 5);
    TokenOfLine(s, k, line, 6);
    assert Decimal.Value("1") == 1 && Decimal.Value("2") == 2;
    assert ParseSpec.ExpressionAt(s, k + 5) == (Ok(ValueExpression(ConstantValue(IntConstant(2)))), k + 6);
  }

  /** Likewise for `let y = 3` and the second sample instruction. */
  lemma ParsesLineY(s: TokenStreams.TokenSeq, k: nat)
    requires TokenStreams.WellFormed(s) && k + 5 <= |s.toks| && s.toks[k..k + 5] == LineY()
    ensures ParseSpec.InstructionAt(s, k) == (Ok(SampleBindingY()), k + 5)
  {
    var line := LineY();
    TokenOfLine(s, k, line, 0);
    TokenOfLine(s, k, line, 1);
    TokenOfLine(s, k, line, 2);
    TokenOfLine(s, k, line, 3);
    TokenOfLine(s, k, line, 4);
    assert Decimal.Value("3") == 3;
  }

  /** Likewise for `print x + y` and the third sample instruction. */
  lemma ParsesLinePrint(s: TokenStreams.TokenSeq, k: nat)
    requires TokenStreams.WellFormed(s) && k + 5 <= |s.toks| && s.toks[k..k + 5] == LinePrint()
    ensures ParseSpec.InstructionAt(s, k) == (Ok(SamplePrint()), k + 5)
  {
    var line := LinePrint();
    TokenOfLine(s, k, line, 0);
    TokenOfLine(s, k, line, 1);
    TokenOfLine(s, k, line, 2);
    TokenOfLine(s, k, line, 3);
    TokenOfLine(s, k, line, 4);
    assert ParseSpec.ExpressionAt(s, k + 3) == (Ok(ValueExpression(LocalValue(LocalVariable("y")))), k + 4);
  }

  /** The sample's tokens are a stream the parser accepts as input. */
  lemma SampleTokensWellFormed()
    ensures TokenStreams.WellFormed(SampleTokens())
  {
  }

  /** The `parse_instruction` results on the sample's tokens: its three
      instructions, all ok, in order. */
  lemma SampleResults()
    ensures TokenStreams.WellFormed(SampleTokens())
    ensures ParseSpec.InstructionsFrom(SampleTokens(), 0, false)
      == [Ok(SampleBindingX()), Ok(SampleBindingY()), Ok(SamplePrint())]
  {
    SampleTokensWellFormed();
    var s := SampleTokens();
    var a, b, c := LineX(), LineY(), LinePrint();
    assert s.toks[0..7] == a && s.toks[7..12] == b && s.toks[12..17] == c;
    ParsesLineX(s, 0);
    ParsesLineY(s, 7);
    ParsesLinePrint(s, 12);
    ParseSpec.InstructionsFromStep(s, 0, false);
    ParseSpec.InstructionsFromStep(s, 7, false);
    ParseSpec.InstructionsFromStep(s, 12, false);
  }

  /** Folding three ok instructions with `consume` into the empty program
      gives the sample. */
  lemma SampleFold<E>()
    ensures var rs: seq<Result<Instruction, E>> := [Ok(SampleBindingX()), Ok(SampleBindingY()), Ok(SamplePrint())];
      ConsumeAll(Ok([]), ParseSpec.Append, rs) == Ok(Sample())
  {
    var rs: seq<Result<Instruction, E>> := [Ok(SampleBindingX()), Ok(SampleBindingY()), Ok(SamplePrint())];
    var x, y := SampleBindingX(), SampleBindingY();
    var empty: Result<seq<Instruction>, E> := Ok([]);
    assert ParseSpec.Append([], x) == [x] && ParseSpec.Append([x], y) == [x, y];
    assert ParseSpec.Append([x, y], SamplePrint()) == Sample();
    assert empty.Consume(ParseSpec.Append, rs[0]) == Ok([x]);
    assert Ok([x]).Consume(ParseSpec.Append, rs[1]) == Ok([x, y]);
    assert Ok([x, y]).Consume(ParseSpec.Append, rs[2]) == Ok(Sample());
    assert rs[1..][0] == rs[1] && rs[1..][1..] == rs[2..] && rs[2..][0] == rs[2] && rs[2..][1..] == rs[3..] == [];
    assert ConsumeAll(Ok([]), ParseSpec.Append, rs)
        == ConsumeAll(Ok([SampleBindingX()]), ParseSpec.Append, rs[1..]);
    assert ConsumeAll(Ok([SampleBindingX()]), ParseSpec.Append, rs[1..])
        == ConsumeAll(Ok([SampleBindingX(), SampleBindingY()]), ParseSpec.Append, rs[2..]);
    assert ConsumeAll(Ok([SampleBindingX(), SampleBindingY()]), ParseSpec.Append, rs[2..])
        == ConsumeAll(Ok(Sample()), ParseSpec.Append, rs[3..]);
  }

  /** `parse_program` on the sample's tokens yields exactly the sample. */
  lemma SampleParses()
    ensures TokenStreams.WellFormed(SampleTokens())
    ensures ParseSpec.ProgramFrom(SampleTokens(), 0, false) == Ok(Sample())
  {
    SampleResults();
    SampleFold<ParseErrors.ParseError>();
  }
}
