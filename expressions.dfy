/**
 * expressions.py: the immutable expression nodes and their evaluation and
 * rendering.
 */
module Expressions {
  import opened Outcomes
  import opened Builtins
  import opened Common

  /**
   * The four node kinds. A Variable holds the value the store had when the node
   * was built; an Assignment only marks a line that assigned a variable.
   */
  datatype Expr =
    | Constant(value: int)
    | Variable(name: string, value: int)
    | Assignment(name: string)
    | BinOpApp(op: Op, left: Expr, right: Expr)

  /** evaluate(): the left child is evaluated first, then the right, then the operation. */
  function Evaluate(e: Expr): Evaluation
  {
    match e
    case Constant(v) => Int(v)
    case Variable(_, v) => Int(v)
    case Assignment(n) => Int(|n|)
    case BinOpApp(op, l, r) =>
      var a := Evaluate(l);
      if a == ZeroDivision then ZeroDivision
      else
        var b := Evaluate(r);
        if b == ZeroDivision then ZeroDivision
        else if a.Int? && b.Int? then Apply(op, a.value, b.value)
        else NonInteger
  }

  lemma EvaluateNodes(v: int, n: string, m: string, op: Op, l: Expr, r: Expr)
    ensures Evaluate(Constant(v)) == Int(v)
    ensures Evaluate(Variable(n, v)) == Evaluate(Variable(m, v)) == Int(v)
    ensures Evaluate(Assignment(n)) == Int(|n|)
    ensures Evaluate(Assignment("Assignment")) == Int(10)
    ensures Evaluate(l).Int? && Evaluate(r).Int? ==>
              Evaluate(BinOpApp(op, l, r)) == Apply(op, Evaluate(l).value, Evaluate(r).value)
  {
  }

  /** A tree built from leaves with addition, subtraction and multiplication only. */
  predicate RingTree(e: Expr) {
    match e
    case BinOpApp(op, l, r) => op in {Add, Subtract, Multiply} && RingTree(l) && RingTree(r)
    case _ => true
  }

  /** The ordinary integer value of such a tree. */
  function RingValue(e: Expr): int
    requires RingTree(e)
  {
    match e
    case Constant(v) => v
    case Variable(_, v) => v
    case Assignment(n) => |n|
    case BinOpApp(op, l, r) =>
      if op == Add then RingValue(l) + RingValue(r)
      else if op == Subtract then RingValue(l) - RingValue(r)
      else RingValue(l) * RingValue(r)
  }

  /** Such a tree evaluates to its ordinary integer value, never to a float or an error. */
  lemma {:induction false} RingTreeEvaluates(e: Expr)
    requires RingTree(e)
    ensures Evaluate(e) == Int(RingValue(e))
  {
    match e
    case BinOpApp(op, l, r) =>
      RingTreeEvaluates(l);
      RingTreeEvaluates(r);
    case _ =>
  }

  /** Some node divides by an integer zero, or raises an integer zero to a negative power. */
  predicate HasZeroDivisor(e: Expr) {
    match e
    case BinOpApp(op, l, r) =>
      || (op == Divide && Evaluate(r) == Int(0))
      || (op == Exponentiate && Evaluate(l) == Int(0) && Evaluate(r).Int? && Evaluate(r).value < 0)
      || HasZeroDivisor(l)
      || HasZeroDivisor(r)
    case _ => false
  }

  /** A ZeroDivisionError comes from such a node and from nowhere else. */
  lemma {:induction false} ZeroDivisionHasSource(e: Expr)
    ensures Evaluate(e) == ZeroDivision ==> HasZeroDivisor(e)
  {
    match e
    case BinOpApp(op, l, r) =>
      ZeroDivisionHasSource(l);
      ZeroDivisionHasSource(r);
    case _ =>
  }

  /** __str__ of the nodes; BinOpApp's raises NameError, as its table is not defined in expressions.py. */
  function Show(e: Expr): (r: Result<string>)
    ensures r.Err? <==> e.BinOpApp?
    ensures r.Err? ==> r.failure == NameError
  {
    match e
    case Constant(v) => Ok("Constant: " + IntToString(v))
    case Variable(n, _) => Ok("Variable: " + n)
    case Assignment(n) => Ok(n)
    case BinOpApp(_, _, _) => Err(NameError)
  }

  /** A constant's text ends in a numeral that int() reads back as its value. */
  lemma ShowConstantRoundTrip(v: int)
    ensures Show(Constant(v)).Ok?
    ensures var s := Show(Constant(v)).value;
            |s| > 10 && s[..10] == "Constant: " && ParseInt(s[10..]) == Some(v)
  {
    var s := Show(Constant(v)).value;
    assert s[10..] == IntToString(v);
    IntToStringRoundTrip(v);
  }

  /** A variable's text names it and does not depend on its value. */
  lemma ShowVariable(n: string, v: int, w: int)
    ensures Show(Variable(n, v)) == Show(Variable(n, w))
    ensures Show(Variable(n, v)).Ok?
    ensures var s := Show(Variable(n, v)).value;
            |s| >= 10 && s[..10] == "Variable: " && s[10..] == n
  {
  }
}
