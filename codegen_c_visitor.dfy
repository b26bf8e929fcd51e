/** The C back end: a visitor over the syntax tree that writes C source into a
    file builder, then renders the file. Each node writes its code in place,
    in evaluation order; a print pulls in `stdio.h`. */
module CVisitors {
  import opened Options
  import opened Ast
  import opened Decimal
  import opened CDependencies
  import opened CFileBuilders
  import ParserProperties

  /** The one dependency the back end adds: the system header `stdio.h`. */
  const StdIo: Dependency := Dependency(System, "stdio.h", None)

  /** The format argument every print passes to `printf`, followed by ", ". */
  const PrintfFormat: string := "\"%d\\n\", "

  /** `std::to_string` of the constant: the decimal text of an integer; the
      literal's own text for a double (see the notes on floating point). */
  function ConstantCode(c: Constant): string
  {
    match c
    case IntConstant(i) => IntText(i as int)
    case DoubleConstant(text) => text
  }

  function ValueCode(v: Value): string
  {
    match v
    case ConstantValue(c) => ConstantCode(c)
    case LocalValue(l) => l.name
  }

  /** An operator's code is its left operand's, " + ", then its right operand's. */
  function ExpressionCode(e: Expression): string
  {
    match e
    case ValueExpression(v) => ValueCode(v)
    case OperatorExpression(op) => ExpressionCode(op.a) + " + " + ExpressionCode(op.b)
  }

  /** A binding declares an `int`: `int name = expression;`; a print calls
      `printf` with the format: `printf("%d\\n", expression);`. Each ends in
      a newline. */
  function InstructionCode(instr: Instruction): string
  {
    match instr
    case BindingInstruction(b) => BindingOpen("int", b.variable.name) + ExpressionCode(b.expression) + BindingClose
    case PrintInstruction(p) => CallOpen("printf") + PrintfFormat + ExpressionCode(p.expression) + CallClose
  }

  /** The instructions' code, one after another. */
  function ProgramCode(instrs: seq<Instruction>): string
    decreases |instrs|
  {
    if instrs == [] then "" else ProgramCode(instrs[..|instrs| - 1]) + InstructionCode(instrs[|instrs| - 1])
  }

  predicate HasPrint(instrs: seq<Instruction>)
  {
    exists i :: 0 <= i < |instrs| && instrs[i].PrintInstruction?
  }

  /** The dependencies a program needs: `stdio.h` exactly when it prints. */
  function ProgramDependencies(instrs: seq<Instruction>): seq<Dependency>
  {
    if HasPrint(instrs) then [StdIo] else []
  }

  /** The file the back end produces for a program. */
  function ProgramFile(instrs: seq<Instruction>): string
  {
    Rendered(ProgramDependencies(instrs), ProgramCode(instrs))
  }

  /** What `generate` returns: the program's name and its rendered source. */
  datatype Executable = Executable(name: string, source: string)

  class CVisitor {
    const name: string
    const fileBuilder: FileBuilder

    /** The only dependency the visitor ever adds is `stdio.h`, so the map
        is empty or holds exactly that one. */
    ghost predicate Valid()
      reads this, fileBuilder
    {
      && fileBuilder.Valid()
      && (fileBuilder.Dependencies() == map[] || fileBuilder.Dependencies() == map[StdIo.includePath := StdIo])
    }

    constructor (name: string)
      ensures Valid() && this.name == name && fresh(fileBuilder)
      ensures fileBuilder.entries == [] && fileBuilder.body == ""
    {
      this.name := name;
      fileBuilder := new FileBuilder();
    }

    method VisitConstant(c: Constant)
      modifies fileBuilder
      ensures fileBuilder.entries == old(fileBuilder.entries)
      ensures fileBuilder.body == old(fileBuilder.body) + ConstantCode(c)
    {
      var str := match c
        case IntConstant(i) => IntText(i as int)
        case DoubleConstant(text) => text;
      DirectExpression(fileBuilder, str);
    }

    method VisitLocalVariable(l: LocalVariable)
      modifies fileBuilder
      ensures fileBuilder.entries == old(fileBuilder.entries)
      ensures fileBuilder.body == old(fileBuilder.body) + l.name
    {
      DirectExpression(fileBuilder, l.name);
    }

    method VisitValue(v: Value)
      modifies fileBuilder
      ensures fileBuilder.entries == old(fileBuilder.entries)
      ensures fileBuilder.body == old(fileBuilder.body) + ValueCode(v)
    {
      match v {
        case ConstantValue(c) => VisitConstant(c);
        case LocalValue(l) => VisitLocalVariable(l);
      }
    }

    method VisitExpression(e: Expression)
      modifies fileBuilder
      ensures fileBuilder.entries == old(fileBuilder.entries)
      ensures fileBuilder.body == old(fileBuilder.body) + ExpressionCode(e)
      decreases e
    {
      match e {
        case OperatorExpression(op) => VisitOperator(op);
        case ValueExpression(v) => VisitValue(v);
      }
    }

    /** The left operand, the operator's symbol, then the right operand. */
    method VisitOperator(op: Operator)
      modifies fileBuilder
      ensures fileBuilder.entries == old(fileBuilder.entries)
      ensures fileBuilder.body == old(fileBuilder.body) + ExpressionCode(OperatorExpression(op))
      decreases op
    {
      VisitExpression(op.a);
      match op.kind {
        case Add => DirectExpression(fileBuilder, " + ");
      }
      VisitExpression(op.b);
    }

    /** `int name = ` and the expression; the binding's end closes the
        statement with `;` and a newline. */
    method VisitBinding(b: Binding)
      modifies fileBuilder
      ensures fileBuilder.entries == old(fileBuilder.entries)
      ensures fileBuilder.body == old(fileBuilder.body) + InstructionCode(BindingInstruction(b))
    {
      BeginVariableBinding(fileBuilder, "int", b.variable.name);
      VisitExpression(b.expression);
      EndVariableBinding(fileBuilder);
    }

    /** Adds `stdio.h`, which can never diverge from an earlier addition,
        then writes the `printf` call around the expression. */
    method VisitPrint(p: Print)
      requires Valid()
      modifies fileBuilder
      ensures Valid()
      ensures fileBuilder.Dependencies() == map[StdIo.includePath := StdIo]
      ensures fileBuilder.body == old(fileBuilder.body) + InstructionCode(PrintInstruction(p))
    {
      var result := fileBuilder.AddDependency(StdIo);
      assert result.None?;
      ghost var body0 := fileBuilder.body;
      BeginFunctionCall(fileBuilder, "printf");
      DirectExpression(fileBuilder, PrintfFormat);
      VisitExpression(p.expression);
      EndFunctionCall(fileBuilder);
      ghost var open, code := CallOpen("printf"), ExpressionCode(p.expression);
      Associate(body0, open, PrintfFormat);
      Associate(body0, open + PrintfFormat, code);
      Associate(body0, open + PrintfFormat + code, CallClose);
    }

    method VisitInstruction(instr: Instruction)
      requires Valid()
      modifies fileBuilder
      ensures Valid()
      ensures fileBuilder.Dependencies() ==
        if instr.PrintInstruction? then map[StdIo.includePath := StdIo] else old(fileBuilder.Dependencies())
      ensures fileBuilder.body == old(fileBuilder.body) + InstructionCode(instr)
    {
      match instr {
        case BindingInstruction(b) => VisitBinding(b);
        case PrintInstruction(p) => VisitPrint(p);
      }
    }

    /** Visits the instructions in order: the body grows by the program's
        code, and `stdio.h` is present afterwards exactly when it was before
        or the program prints. */
    method VisitProgram(program: Program)
      requires Valid()
      modifies fileBuilder
      ensures Valid()
      ensures fileBuilder.body == old(fileBuilder.body) + ProgramCode(program.instructions)
      ensures fileBuilder.Dependencies() ==
        if HasPrint(program.instructions) then map[StdIo.includePath := StdIo] else old(fileBuilder.Dependencies())
    {
      ghost var body0, deps0 := fileBuilder.body, fileBuilder.Dependencies();
      ghost var instrs := program.instructions;
      var i := 0;
      while i < |program.instructions|
        invariant 0 <= i <= |instrs| && program.instructions == instrs
        invariant Valid()
        invariant fileBuilder.body == body0 + ProgramCode(instrs[..i])
        invariant fileBuilder.Dependencies() ==
          if HasPrint(instrs[..i]) then map[StdIo.includePath := StdIo] else deps0
      {
        ghost var before := fileBuilder.body;
        VisitInstruction(program.instructions[i]);
        ProgramStep(instrs, i);
        PrintStep(instrs, i);
        Associate(body0, ProgramCode(instrs[..i]), InstructionCode(instrs[i]));
        i := i + 1;
      }
      assert instrs[..i] == instrs;
    }

    /** `generate`: the name and the rendered file; nothing changes. */
    method Generate() returns (executable: Executable)
      requires Valid()
      ensures executable == Executable(name, Rendered(fileBuilder.entries, fileBuilder.body))
    {
      var source := fileBuilder.Build();
      executable := Executable(name, source);
    }
  }

  /** One more instruction adds its code at the end ... */
  lemma ProgramStep(instrs: seq<Instruction>, i: nat)
    requires i < |instrs|
    ensures ProgramCode(instrs[..i + 1]) == ProgramCode(instrs[..i]) + InstructionCode(instrs[i])
  {
    assert instrs[..i + 1][..i] == instrs[..i];
  }

  /** ... and a print if it is one. */
  lemma PrintStep(instrs: seq<Instruction>, i: nat)
    requires i < |instrs|
    ensures HasPrint(instrs[..i + 1]) <==> HasPrint(instrs[..i]) || instrs[i].PrintInstruction?
  {
    var pre, all := instrs[..i], instrs[..i + 1];
    if HasPrint(pre) {
      var j :| 0 <= j < |pre| && pre[j].PrintInstruction?;
      assert all[j] == pre[j];
    }
    if HasPrint(all) {
      var j :| 0 <= j < |all| && all[j].PrintInstruction?;
      if j < i {
        assert all[j] == pre[j];
      }
    }
  }

  lemma Associate(a: string, b: string, c: string)
    ensures a + b + c == a + (b + c)
  {
  }

  /** After visiting a program from an empty map, the entries are the
      program's dependencies. */
  lemma ProgramEntries(es: seq<Dependency>, instrs: seq<Instruction>)
    requires Sorted(es)
    requires AsMap(es) == if HasPrint(instrs) then map[StdIo.includePath := StdIo] else AsMap([])
    ensures es == ProgramDependencies(instrs)
  {
    SortedUnique(es, ProgramDependencies(instrs));
  }

  /** The whole back end on one program, as the end-to-end usage drives it:
      a fresh visitor, one visit of the program, then `generate`. The file
      is the program's code inside `main`, preceded by `<stdio.h>` exactly
      when the program prints. */
  method Compile(name: string, program: Program) returns (executable: Executable)
    ensures executable == Executable(name, ProgramFile(program.instructions))
  {
    var visitor := new CVisitor(name);
    visitor.VisitProgram(program);
    ProgramEntries(visitor.fileBuilder.entries, program.instructions);
    assert visitor.fileBuilder.body == ProgramCode(program.instructions);
    executable := visitor.Generate();
  }
}
