/**
 * common.py: the arithmetic operations, the operator character classes, the
 * symbol/operation tables and the precedence table of the interpreter.
 */
module Common {
  import opened Outcomes
  import opened Builtins

  /** The five binary operations; each stands for one of the module's functions. */
  datatype Op = Add | Subtract | Multiply | Divide | Exponentiate

  /**
   * What evaluating an operation on integers yields: an integer, a Python float
   * (true division, a negative power), whose value the model does not track, or
   * a ZeroDivisionError.
   */
  datatype Evaluation = Int(value: int) | NonInteger | ZeroDivision

  /** num1 ** num2 for a natural exponent: num1 multiplied by itself num2 times. */
  function Power(a: int, n: nat): int
  {
    if n == 0 then 1 else a * Power(a, n - 1)
  }

  lemma {:induction false} PowerAdd(a: int, m: nat, n: nat)
    ensures Power(a, 0) == 1
    ensures Power(a, m + n) == Power(a, m) * Power(a, n)
  {
    if m > 0 {
      PowerAdd(a, m - 1, n);
      assert Power(a, m + n) == a * Power(a, m - 1 + n);
    }
  }

  /** add, subtract, multiply, divide and exponentiate applied to two integers. */
  function Apply(op: Op, a: int, b: int): (r: Evaluation)
    ensures r.Int? <==> op in {Add, Subtract, Multiply} || (op == Exponentiate && b >= 0)
    ensures r == ZeroDivision <==> (op == Divide && b == 0) || (op == Exponentiate && a == 0 && b < 0)
  {
    match op
    case Add => Int(a + b)
    case Subtract => Int(a - b)
    case Multiply => Int(a * b)
    case Divide => if b == 0 then ZeroDivision else NonInteger
    case Exponentiate =>
      if b >= 0 then Int(Power(a, b)) else if a == 0 then ZeroDivision else NonInteger
  }

  lemma ArithmeticOperations(a: int, b: int)
    ensures Apply(Add, a, b) == Int(a + b)
    ensures Apply(Subtract, a, b) == Int(a - b)
    ensures Apply(Multiply, a, b) == Int(a * b)
    ensures b >= 0 ==> Apply(Exponentiate, a, b) == Int(Power(a, b))
  {
  }

  /** is_operator: the four arithmetic symbols, the power and the two parentheses. */
  predicate IsOperator(c: char)
    ensures IsOperator(c) ==> !IsDigit(c)
  {
    c == '+' || c == '-' || c == '*' || c == '/' || c == '^' || c == '(' || c == ')'
  }

  /** is_paren. */
  predicate IsParen(c: char)
    ensures IsParen(c) ==> IsOperator(c)
  {
    c == '(' || c == ')'
  }

  lemma OperatorClasses(c: char)
    ensures IsOperator(c) <==> c in {'+', '-', '*', '/', '^', '(', ')'}
    ensures IsParen(c) ==> IsOperator(c)
    ensures IsDigit(c) ==> !IsOperator(c)
  {
  }

  /** OPERATOR_TABLE: the symbol of each operation. */
  function Symbol(op: Op): (c: char)
    ensures IsOperator(c) && !IsParen(c)
  {
    match op
    case Add => '+'
    case Subtract => '-'
    case Multiply => '*'
    case Divide => '/'
    case Exponentiate => '^'
  }

  /** OPERATION_TABLE: the operation of each symbol; None where the lookup raises KeyError. */
  function Operation(c: char): (r: Option<Op>)
    ensures r.Some? ==> IsOperator(c) && !IsParen(c)
  {
    match c
    case '+' => Some(Add)
    case '-' => Some(Subtract)
    case '*' => Some(Multiply)
    case '/' => Some(Divide)
    case '^' => Some(Exponentiate)
    case _ => None
  }

  /** The two tables are inverse to each other, and neither holds a parenthesis. */
  lemma TablesInverse(op: Op, c: char)
    ensures Operation(Symbol(op)) == Some(op)
    ensures Operation(c) == Some(op) ==> Symbol(op) == c
    ensures Operation(c).Some? <==> IsOperator(c) && !IsParen(c)
  {
  }

  /** PRECEDENCE; None where the lookup raises KeyError. */
  function Precedence(c: char): (r: Option<nat>)
    ensures r.Some? ==> IsOperator(c)
  {
    match c
    case '(' => Some(0)
    case '+' => Some(1)
    case '-' => Some(1)
    case '*' => Some(2)
    case '/' => Some(2)
    case '^' => Some(3)
    case ')' => Some(4)
    case _ => None
  }

  lemma PrecedenceOrder(c: char)
    ensures Precedence(c).Some? <==> IsOperator(c)
    ensures Precedence('(').value < Precedence('+').value == Precedence('-').value
    ensures Precedence('-').value < Precedence('*').value == Precedence('/').value
    ensures Precedence('/').value < Precedence('^').value < Precedence(')').value
  {
  }

  /**
   * The tables one version of the interpreter consults: which characters are
   * operators, their precedence and their operation.
   */
  datatype Tables = Tables(isOperator: char -> bool, precedence: char -> Option<nat>, operation: char -> Option<Op>)

  /** The tables of common.py. */
  const Extended: Tables := Tables(IsOperator, Precedence, Operation)

  /** No digit is an operator character, so a digit run and an operator never overlap. */
  predicate DigitsAreNotOperators(t: Tables) {
    forall c :: IsDigit(c) ==> !t.isOperator(c)
  }

  /** Every operator character has a precedence, as common.py's tables provide. */
  predicate OperatorsRanked(t: Tables) {
    forall c :: t.isOperator(c) ==> t.precedence(c).Some?
  }

  lemma ExtendedWellFormed()
    ensures DigitsAreNotOperators(Extended)
    ensures OperatorsRanked(Extended)
  {
  }
}
