/** The v0 syntax tree: values, expressions, instructions and the program.
    Every node except the program is an immutable value; the program is a
    growing list of instructions, appended to in place. The node accessors
    (`int_unsafe`, `binding_unsafe`, `a()`, ...) are the datatype destructors,
    whose use Dafny only admits on the matching alternative. */
module Ast {

  /** The range of `int64_t`. */
  newtype Int64 = x: int | -0x8000_0000_0000_0000 <= x < 0x8000_0000_0000_0000

  /** A literal. The double alternative keeps the literal's source text, since
      floating point is not part of this model. */
  datatype Constant = IntConstant(i: Int64) | DoubleConstant(text: string)

  datatype LocalVariable = LocalVariable(name: string)

  datatype Value = ConstantValue(constant: Constant) | LocalValue(local: LocalVariable)

  datatype OperatorType = Add

  datatype Expression = OperatorExpression(op: Operator) | ValueExpression(value: Value)

  datatype Operator = Operator(kind: OperatorType, a: Expression, b: Expression)

  datatype Binding = Binding(variable: LocalVariable, expression: Expression)

  datatype Print = Print(expression: Expression)

  datatype Instruction = BindingInstruction(binding: Binding) | PrintInstruction(printed: Print)

  /** A program: its instructions in the order they were added. */
  class Program {
    var instructions: seq<Instruction>

    /** A fresh program has no instructions. */
    constructor ()
      ensures instructions == []
    {
      instructions := [];
    }

    /** Appends `instr`; the earlier instructions keep their order. */
    method AddInstruction(instr: Instruction)
      modifies this
      ensures instructions == old(instructions) + [instr]
      ensures |instructions| == |old(instructions)| + 1 && instructions[..|old(instructions)|] == old(instructions)
    {
      instructions := instructions + [instr];
    }
  }
}
