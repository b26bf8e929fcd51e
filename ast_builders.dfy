/** The AST builders: small mutable records that collect a node's parts one
    setter at a time and assemble the node in `Build`, which may only be called
    once the parts it needs have been set. */
module AstBuilders {
  import opened Options
  import opened Ast

  /** The flag every builder carries (the `AstBuilder` base): clear when the
      builder is made, set by every setter, never cleared again. */
  class AstBuilder {
    var modified: bool

    constructor ()
      ensures !modified
    {
      modified := false;
    }

    method MarkModified()
      modifies this
      ensures modified
    {
      modified := true;
    }
  }

  class ValueBuilder {
    const base: AstBuilder
    var constant: Option<Constant>
    var local: Option<LocalVariable>

    constructor ()
      ensures fresh(base) && !base.modified
      ensures constant == None && local == None
    {
      base := new AstBuilder();
      constant := None;
      local := None;
    }

    /** `set_constant(int64_t)`; overwrites any earlier constant. */
    method SetIntConstant(c: Int64)
      modifies this, base
      ensures base.modified
      ensures constant == Some(IntConstant(c)) && local == old(local)
    {
      base.MarkModified();
      constant := Some(IntConstant(c));
    }

    /** `set_constant(double)`; the double is carried as its literal text. */
    method SetDoubleConstant(text: string)
      modifies this, base
      ensures base.modified
      ensures constant == Some(DoubleConstant(text)) && local == old(local)
    {
      base.MarkModified();
      constant := Some(DoubleConstant(text));
    }

    method SetLocal(name: string)
      modifies this, base
      ensures base.modified
      ensures local == Some(LocalVariable(name)) && constant == old(constant)
    {
      base.MarkModified();
      local := Some(LocalVariable(name));
    }

    /** `build` asserts that exactly one of the two parts was set. */
    predicate CanBuild()
      reads this
    {
      constant.Some? != local.Some?
    }

    /** The value holding whichever part was set. */
    method Build() returns (v: Value)
      requires CanBuild()
      ensures constant.Some? ==> v == ConstantValue(constant.value)
      ensures local.Some? ==> v == LocalValue(local.value)
    {
      if constant.Some? {
        v := ConstantValue(constant.value);
      } else {
        v := LocalValue(local.value);
      }
    }
  }

  /** `Expression::Builder`: holds an empty alternative until an expression is
      stored; it has no setter of its own. */
  class ExpressionBuilder {
    var stored: Option<Expression>

    constructor ()
      ensures stored == None
    {
      stored := None;
    }

    /** Modified exactly when a non-empty alternative is held. */
    predicate WasModified()
      reads this
    {
      stored.Some?
    }

    method Build() returns (e: Expression)
      requires WasModified()
      ensures stored == Some(e)
    {
      e := stored.value;
    }
  }

  class BindingBuilder {
    const base: AstBuilder
    var variable: Option<LocalVariable>
    var expr: Option<Expression>

    constructor ()
      ensures fresh(base) && !base.modified
      ensures variable == None && expr == None
    {
      base := new AstBuilder();
      variable := None;
      expr := None;
    }

    method SetVariable(name: string)
      modifies this, base
      ensures base.modified
      ensures variable == Some(LocalVariable(name)) && expr == old(expr)
    {
      base.MarkModified();
      variable := Some(LocalVariable(name));
    }

    method SetExpression(e: Expression)
      modifies this, base
      ensures base.modified
      ensures expr == Some(e) && variable == old(variable)
    {
      base.MarkModified();
      expr := Some(e);
    }

    /** `build` reads both parts through `optional::value`. */
    predicate CanBuild()
      reads this
    {
      variable.Some? && expr.Some?
    }

    /** The binding of exactly the variable and expression that were set. */
    method Build() returns (b: Binding)
      requires CanBuild()
      ensures Some(b.variable) == variable && Some(b.expression) == expr
    {
      b := Binding(variable.value, expr.value);
    }
  }

  class PrintBuilder {
    const base: AstBuilder
    var expr: Option<Expression>

    constructor ()
      ensures fresh(base) && !base.modified
      ensures expr == None
    {
      base := new AstBuilder();
      expr := None;
    }

    /** Stores `e`, replacing any expression set before. */
    method SetExpression(e: Expression)
      modifies this, base
      ensures base.modified
      ensures expr == Some(e)
    {
      base.MarkModified();
      expr := Some(e);
    }

    predicate CanBuild()
      reads this
    {
      expr.Some?
    }

    /** The print of the last expression set. */
    method Build() returns (p: Print)
      requires CanBuild()
      ensures Some(p.expression) == expr
    {
      p := Print(expr.value);
    }
  }

  class OperatorBuilder {
    const base: AstBuilder
    var kind: Option<OperatorType>
    var a: Option<Expression>
    var b: Option<Expression>

    constructor ()
      ensures fresh(base) && !base.modified
      ensures kind == None && a == None && b == None
    {
      base := new AstBuilder();
      kind := None;
      a := None;
      b := None;
    }

    method SetKind(t: OperatorType)
      modifies this, base
      ensures base.modified
      ensures kind == Some(t) && a == old(a) && b == old(b)
    {
      base.MarkModified();
      kind := Some(t);
    }

    method SetA(e: Expression)
      modifies this, base
      ensures base.modified
      ensures a == Some(e) && kind == old(kind) && b == old(b)
    {
      base.MarkModified();
      a := Some(e);
    }

    method SetB(e: Expression)
      modifies this, base
      ensures base.modified
      ensures b == Some(e) && kind == old(kind) && a == old(a)
    {
      base.MarkModified();
      b := Some(e);
    }

    predicate CanBuild()
      reads this
    {
      kind.Some? && a.Some? && b.Some?
    }

    /** The operator whose type and operands are the ones set. */
    method Build() returns (op: Operator)
      requires CanBuild()
      ensures Some(op.kind) == kind && Some(op.a) == a && Some(op.b) == b
    {
      op := Operator(kind.value, a.value, b.value);
    }
  }

  /** Two independent sub-builders; whichever was used decides the instruction. */
  class InstructionBuilder {
    const binding: BindingBuilder
    const printing: PrintBuilder

    /** The sub-builders' flags are distinct objects, so setting one part
        leaves the other's flag alone. */
    ghost predicate Valid()
      reads this
    {
      binding.base != printing.base
    }

    constructor ()
      ensures Valid()
      ensures fresh(binding) && fresh(binding.base) && fresh(printing) && fresh(printing.base)
      ensures !binding.base.modified && binding.variable == None && binding.expr == None
      ensures !printing.base.modified && printing.expr == None
    {
      binding := new BindingBuilder();
      printing := new PrintBuilder();
    }

    predicate WasModified()
      reads this, binding.base, printing.base
    {
      binding.base.modified || printing.base.modified
    }

    /** `build` asserts that exactly one sub-builder was used, and then builds
        that one. */
    predicate CanBuild()
      reads this, binding, binding.base, printing, printing.base
    {
      && binding.base.modified != printing.base.modified
      && (binding.base.modified ==> binding.CanBuild())
      && (printing.base.modified ==> printing.CanBuild())
    }

    /** A binding instruction when the binding part was used, else a print. */
    method Build() returns (instr: Instruction)
      requires CanBuild()
      ensures binding.base.modified ==>
        instr.BindingInstruction? && Some(instr.binding.variable) == binding.variable
        && Some(instr.binding.expression) == binding.expr
      ensures printing.base.modified ==>
        instr.PrintInstruction? && Some(instr.printed.expression) == printing.expr
    {
      if binding.base.modified {
        var b := binding.Build();
        instr := BindingInstruction(b);
      } else {
        var p := printing.Build();
        instr := PrintInstruction(p);
      }
    }
  }
}
