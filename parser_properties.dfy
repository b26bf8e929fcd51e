/** What the v0 grammar's functions promise: how values are read, that sums
    nest to the right, how an instruction is dispatched on its first word,
    and that a program keeps either every instruction in order or the first
    error only. */
module ParserProperties {
  import opened Results
  import opened Ast
  import opened TokenStreams
  import opened ParseErrors
  import opened ParseSpec
  import Decimal

  /** A value consumes exactly one token; it succeeds exactly on a Number or
      an Identifier, and otherwise reports that token as unexpected, with its
      lexeme as the detail. An Identifier becomes the local of that name. */
  lemma ValueForms(s: TokenSeq, k: nat)
    requires WellFormed(s)
    ensures var t := Produce(s, k); var r := ValueAt(s, k).0;
      && (k < |s.toks| ==> ValueAt(s, k).1 == k + 1)
      && (r.Ok? <==> t.kind == Number || t.kind == Identifier)
      && (t.kind == Identifier ==> r == Ok(LocalValue(LocalVariable(t.lexeme))))
      && (r.Err? ==> r.error.errorType == UnexpectedToken && r.error.token == t
                     && r.error.message == Message(UnexpectedToken, t, t.lexeme))
  {
  }

  /** A Number lexeme with a '.' gives the double alternative; one without
      gives an int64 constant equal to its decimal value, or 0 when that
      value does not fit. */
  lemma NumberForms(s: TokenSeq, k: nat)
    requires WellFormed(s) && Produce(s, k).kind == Number
    ensures var lx := Produce(s, k).lexeme; var r := ValueAt(s, k).0;
      && ('.' in lx ==> r == Ok(ConstantValue(DoubleConstant(lx))))
      && ('.' !in lx ==>
            && Decimal.IsDigits(lx)
            && r.Ok? && r.value.ConstantValue? && r.value.constant.IntConstant?
            && (Decimal.Value(lx) <= Int64Max ==> r.value.constant.i as int == Decimal.Value(lx))
            && (Decimal.Value(lx) > Int64Max ==> r.value.constant.i == 0))
  {
    var lx := Produce(s, k).lexeme;
    if '.' !in lx {
      forall i | 0 <= i < |lx| ensures Decimal.IsDigit(lx[i]) {
        assert lx[i] != '.';
      }
    }
  }

  /** An integer written in its usual decimal form is read back as itself. */
  lemma IntLiteralRoundTrip(s: TokenSeq, k: nat, n: nat)
    requires WellFormed(s) && k < |s.toks|
    requires s.toks[k].kind == Number && s.toks[k].lexeme == Decimal.Text(n) && n <= Int64Max
    ensures ValueAt(s, k).0 == Ok(ConstantValue(IntConstant(n as Int64)))
  {
    Decimal.ValueOfText(n);
  }

  /** The values of an expression tree, left to right. */
  function Operands(e: Expression): seq<Value>
  {
    match e
    case ValueExpression(v) => [v]
    case OperatorExpression(op) => Operands(op.a) + Operands(op.b)
  }

  /** Every sum has a plain value as its left operand: `a + (b + (c + ...))`. */
  predicate RightNested(e: Expression)
  {
    match e
    case ValueExpression(_) => true
    case OperatorExpression(op) => op.kind == Add && op.a.ValueExpression? && RightNested(op.b)
  }

  /** Positions k .. end-1 hold the values `ops` at even offsets and '+'
      at odd offsets. */
  ghost predicate Alternates(s: TokenSeq, k: nat, end: nat, ops: seq<Value>)
    requires WellFormed(s)
  {
    && end == k + 2 * |ops| - 1
    && (forall i :: k <= i < end && (i - k) % 2 == 0 ==> ValueAt(s, i).0 == Ok(ops[(i - k) / 2]))
    && (forall i :: k <= i < end && (i - k) % 2 == 1 ==> Produce(s, i).kind == Plus)
  }

  lemma AlternatesCons(s: TokenSeq, k: nat, end: nat, v: Value, ops: seq<Value>)
    requires WellFormed(s) && Alternates(s, k + 2, end, ops)
    requires ValueAt(s, k).0 == Ok(v) && Produce(s, k + 1).kind == Plus
    ensures Alternates(s, k, end, [v] + ops)
  {
    var all := [v] + ops;
    forall i | k <= i < end && (i - k) % 2 == 0
      ensures ValueAt(s, i).0 == Ok(all[(i - k) / 2])
    {
      if i > k {
        assert (i - (k + 2)) / 2 == (i - k) / 2 - 1;
      }
    }
  }

  /** A successful expression spans an odd number of tokens that alternate
      value, '+', value, ..., value; the token after it is not '+'; the tree
      is nested to the right and its operands are those values in order. */
  lemma {:induction false} ExpressionShape(s: TokenSeq, k: nat)
    requires WellFormed(s)
    ensures var (r, k') := ExpressionAt(s, k);
      r.Ok? ==>
        && RightNested(r.value)
        && Alternates(s, k, k', Operands(r.value))
        && Produce(s, k').kind != Plus
    decreases End(s) - k
  {
    var v := ValueAt(s, k).0;
    var k1 := ValueAt(s, k).1;
    if v.Ok? {
      if Produce(s, k1).kind != Plus {
        assert ExpressionAt(s, k) == (Ok(ValueExpression(v.value)), k1);
        AlternatesSingle(s, k, v.value);
      } else {
        var rest := ExpressionAt(s, k1 + 1);
        if rest.0.Ok? {
          assert k1 == k + 1;
          assert ExpressionAt(s, k)
            == (Ok(OperatorExpression(Operator(Add, ValueExpression(v.value), rest.0.value))), rest.1);
          ExpressionShape(s, k1 + 1);
          AlternatesCons(s, k, rest.1, v.value, Operands(rest.0.value));
        }
      }
    }
  }

  lemma AlternatesSingle(s: TokenSeq, k: nat, v: Value)
    requires WellFormed(s) && ValueAt(s, k).0 == Ok(v)
    ensures Alternates(s, k, k + 1, [v])
  {
  }

  /** Right-nested sums are determined by their operands, so the tree the
      parser builds is the only right-nested tree with those values. */
  lemma {:induction false} RightNestedUnique(e1: Expression, e2: Expression)
    requires RightNested(e1) && RightNested(e2) && Operands(e1) == Operands(e2)
    ensures e1 == e2
  {
    match e1
    case ValueExpression(_) =>
      if e2.OperatorExpression? {
        assert |Operands(e2.op.b)| >= 1 by { OperandsNonEmpty(e2.op.b); }
      }
    case OperatorExpression(op1) =>
      OperandsNonEmpty(op1.b);
      var op2 := e2.op;
      OperandsNonEmpty(op2.b);
      assert Operands(op1.b) == Operands(e1)[1..];
      assert Operands(op2.b) == Operands(e2)[1..];
      RightNestedUnique(op1.b, op2.b);
  }

  lemma {:induction false} OperandsNonEmpty(e: Expression)
    ensures |Operands(e)| >= 1
  {
    match e
    case ValueExpression(_) =>
    case OperatorExpression(op) => OperandsNonEmpty(op.a);
  }

  /** How an instruction is dispatched on its first token: a non-identifier is
      unexpected; an identifier other than `let` and `print` is an invalid
      instruction whose message names it; a successful instruction starts
      with `let` exactly when it is a binding and with `print` exactly when it
      is a print, and its last token is the mandatory Newline. */
  lemma InstructionForms(s: TokenSeq, k: nat)
    requires WellFormed(s)
    ensures var (r, k') := InstructionAt(s, k); var t := Produce(s, k);
      && (t.kind != Identifier ==> r == Err(Unexpected(t)))
      && (t.kind == Identifier && t.lexeme != KeywordLet && t.lexeme != KeywordPrint ==>
            r.Err? && r.error.errorType == InvalidInstruction && r.error.token == t
            && r.error.message == Message(InvalidInstruction, t, "must begin with 'let' or 'print'; found '" + t.lexeme + "'"))
      && (r.Ok? ==>
            && t.kind == Identifier
            && k < k' && Produce(s, k' - 1).kind == Newline
            && (r.value.BindingInstruction? <==> t.lexeme == KeywordLet)
            && (r.value.PrintInstruction? <==> t.lexeme == KeywordPrint))
  {
  }

  /** A successful binding reads `let`, the variable's identifier, '=', and
      the expression; a successful print reads `print` and the expression. */
  lemma InstructionParts(s: TokenSeq, k: nat)
    requires WellFormed(s)
    ensures var r := InstructionAt(s, k).0;
      && (r.Ok? && r.value.BindingInstruction? ==>
            && Produce(s, k + 1).kind == Identifier
            && r.value.binding.variable == LocalVariable(Produce(s, k + 1).lexeme)
            && Produce(s, k + 2).kind == Equal
            && ExpressionAt(s, k + 3).0 == Ok(r.value.binding.expression))
      && (r.Ok? && r.value.PrintInstruction? ==>
            ExpressionAt(s, k + 1).0 == Ok(r.value.printed.expression))
  {
  }

  /** Folding with `program_subsumer` appends every ok value, in order. */
  lemma {:induction false} FoldAppends(acc: seq<Instruction>, rs: seq<Result<Instruction, ParseError>>)
    requires AllOk(rs)
    ensures var p := FoldValues(acc, Append, rs);
      && |p| == |acc| + |rs| && p[..|acc|] == acc
      && forall i :: 0 <= i < |rs| ==> p[|acc| + i] == rs[i].value
    decreases |rs|
  {
    if rs != [] {
      assert AllOk(rs[1..]) by {
        forall i | 0 <= i < |rs| - 1 ensures rs[1..][i].Ok? {
          assert rs[1..][i] == rs[i + 1];
        }
      }
      FoldAppends(acc + [rs[0].value], rs[1..]);
      var p := FoldValues(acc, Append, rs);
      assert p == FoldValues(acc + [rs[0].value], Append, rs[1..]);
      assert p[..|acc| + 1][..|acc|] == p[..|acc|];
      forall i | 0 <= i < |rs| ensures p[|acc| + i] == rs[i].value {
        if i > 0 {
          assert p[|acc| + 1 + (i - 1)] == rs[1..][i - 1].value;
        }
      }
    }
  }

  /** `parse_program` yields every instruction in source order when all of
      them parse, and otherwise the first error; later results are ignored. */
  lemma ProgramOutcome(s: TokenSeq, k: nat, pending: bool)
    requires WellFormed(s) && k <= End(s)
    ensures var rs := InstructionsFrom(s, k, pending); var r := ProgramFrom(s, k, pending);
      && (AllOk(rs) ==> r.Ok? && |r.value| == |rs| && forall i :: 0 <= i < |rs| ==> r.value[i] == rs[i].value)
      && (!AllOk(rs) ==> r == Err(rs[FirstErr(rs)].error))
  {
    var rs := InstructionsFrom(s, k, pending);
    ConsumeAllFirstError([], Append, rs);
    if AllOk(rs) {
      FoldAppends([], rs);
    }
  }

  /** With blanks after the last ordinary token, the loop makes one call
      whose reading ends on the terminator, and that call fails: a successful
      instruction ends with a Newline, never with Halt. */
  lemma {:induction false} TrailingLastFails(s: TokenSeq, k: nat, pending: bool)
    requires WellFormed(s) && s.trailing && k <= |s.toks|
    ensures var rs := InstructionsFrom(s, k, pending); rs != [] && rs[|rs| - 1].Err?
    decreases End(s) - k
  {
    InstructionsFromStep(s, k, pending);
    var k' := InstructionAt(s, k).1;
    if k' == End(s) {
      InstructionForms(s, k);
    } else {
      TrailingLastFails(s, k', false);
    }
  }

  /** `parse_program` fails on any source whose last token is followed by
      blanks, whatever came before them. */
  lemma TrailingBlanksFail(s: TokenSeq, k: nat, pending: bool)
    requires WellFormed(s) && s.trailing && k <= |s.toks|
    ensures ProgramFrom(s, k, pending).Err?
  {
    var rs := InstructionsFrom(s, k, pending);
    TrailingLastFails(s, k, pending);
    assert !AllOk(rs);
    ProgramOutcome(s, k, pending);
  }

  /** A source with no tokens is the empty program, unless it holds blanks:
      then the one instruction read is the Halt token, reported as
      unexpected. */
  lemma BlankOnlyProgram(s: TokenSeq)
    requires WellFormed(s) && s.toks == []
    ensures ProgramFrom(s, 0, false) == if s.trailing then Err(Unexpected(s.halt)) else Ok([])
  {
    if s.trailing {
      InstructionsFromStep(s, 0, false);
      var rs := InstructionsFrom(s, 0, false);
      assert rs == [Err(Unexpected(s.halt))];
      ConsumeAllFirstError([], Append, rs);
    }
  }

  /** Every `parse_instruction` call consumes at least one token, so a
      program from position k makes at most one call per remaining token
      (plus one for a buffered token at the end). */
  lemma {:induction false} InstructionCount(s: TokenSeq, k: nat, pending: bool)
    requires WellFormed(s) && k <= End(s)
    ensures |InstructionsFrom(s, k, pending)| <= End(s) - k + (if pending then 1 else 0)
    decreases End(s) - k, pending
  {
    if !(k == End(s) && !pending) {
      InstructionCount(s, InstructionAt(s, k).1, false);
    }
  }

  /** A token at an arbitrary location; the worked examples below do not
      depend on locations. */
  function Tok(kind: Kind, lexeme: string): Token
  {
    Token(kind, SourceLocations.SourceLocation(SourceLocations.Line("", 0), 0), lexeme)
  }

  /** `let x = 2` followed by a newline is the binding of x to the constant 2. */
  lemma LetExample()
    ensures var s := TokenSeq([Tok(Identifier, "let"), Tok(Identifier, "x"), Tok(Equal, "="),
                               Tok(Number, "2"), Tok(Newline, "\n")], Tok(Halt, "\0"), false);
      InstructionAt(s, 0)
        == (Ok(BindingInstruction(Binding(LocalVariable("x"), ValueExpression(ConstantValue(IntConstant(2)))))), 5)
  {
    var s := TokenSeq([Tok(Identifier, "let"), Tok(Identifier, "x"), Tok(Equal, "="),
                       Tok(Number, "2"), Tok(Newline, "\n")], Tok(Halt, "\0"), false);
    assert Decimal.Value("2") == 2;
    assert ExpressionAt(s, 3) == (Ok(ValueExpression(ConstantValue(IntConstant(2)))), 4);
  }

  /** `print 1 + 2` followed by a newline prints the sum of the constants 1 and 2. */
  lemma PrintExample()
    ensures var s := TokenSeq([Tok(Identifier, "print"), Tok(Number, "1"), Tok(Plus, "+"),
                               Tok(Number, "2"), Tok(Newline, "\n")], Tok(Halt, "\0"), false);
      InstructionAt(s, 0)
        == (Ok(PrintInstruction(Print(OperatorExpression(Operator(Add,
              ValueExpression(ConstantValue(IntConstant(1))),
              ValueExpression(ConstantValue(IntConstant(2)))))))), 5)
  {
    var s := TokenSeq([Tok(Identifier, "print"), Tok(Number, "1"), Tok(Plus, "+"),
                       Tok(Number, "2"), Tok(Newline, "\n")], Tok(Halt, "\0"), false);
    assert Decimal.Value("1") == 1;
    assert Decimal.Value("2") == 2;
    assert ExpressionAt(s, 3) == (Ok(ValueExpression(ConstantValue(IntConstant(2)))), 4);
    assert ExpressionAt(s, 1) == (Ok(OperatorExpression(Operator(Add,
              ValueExpression(ConstantValue(IntConstant(1))),
              ValueExpression(ConstantValue(IntConstant(2)))))), 4);
  }
}
