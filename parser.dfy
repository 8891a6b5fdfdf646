/**
 * parser.py: classifying tokens onto an expression stack and an operator stack,
 * reducing the stacks with a one-operator lookback, and variable assignment.
 */
module Parser {
  import opened Outcomes
  import opened Builtins
  import opened Common
  import opened Expressions
  import opened Lists

  /** variables_map: the session's variable store, which an assignment changes in place. */
  class VariableStore {
    var bindings: map<string, int>

    constructor ()
      ensures bindings == map[]
    {
      bindings := map[];
    }
  }

  /** A token that is one operator character of t. */
  predicate IsOperatorToken(tok: string, t: Tables) {
    |tok| == 1 && t.isOperator(tok[0])
  }

  // ----- Assignment -----

  /**
   * The store after `name = value`: tokens[0] is bound to int(tokens[2]) and no
   * other entry changes; IndexError or ValueError where perform_var_assignment raises.
   */
  function Assigned(tokens: seq<string>, m: map<string, int>): (r: Result<map<string, int>>)
    ensures r.Ok? <==> |tokens| >= 3 && ParseInt(tokens[2]).Some?
    ensures r.Err? ==> r.failure == (if |tokens| < 3 then IndexError else ValueError)
    ensures r.Ok? ==> r.value.Keys == m.Keys + {tokens[0]}
    ensures r.Ok? ==> r.value[tokens[0]] == ParseInt(tokens[2]).value
    ensures r.Ok? ==> forall k :: k in m && k != tokens[0] ==> r.value[k] == m[k]
  {
    if |tokens| < 3 then Err(IndexError)
    else
      match ParseInt(tokens[2])
      case None => Err(ValueError)
      case Some(v) => Ok(m[tokens[0] := v])
  }

  /** perform_var_assignment. */
  method PerformVarAssignment(tokens: seq<string>, store: VariableStore) returns (outcome: Outcome)
    modifies store
    ensures Assigned(tokens, old(store.bindings)).Ok? ==>
              outcome == Pass && store.bindings == Assigned(tokens, old(store.bindings)).value
    ensures Assigned(tokens, old(store.bindings)).Err? ==>
              outcome == Fail(Assigned(tokens, old(store.bindings)).failure) && store.bindings == old(store.bindings)
  {
    if |tokens| == 0 {
      return Fail(IndexError);
    }
    var name := tokens[0];
    if |tokens| < 3 {
      return Fail(IndexError);
    }
    var value := ParseInt(tokens[2]);
    if value.None? {
      return Fail(ValueError);
    }
    store.bindings := store.bindings[name := value.value];
    outcome := Pass;
  }

  // ----- Classifying the tokens -----

  /** The parser's three lists: tokens still to read, the expression stack, the operator stack. */
  datatype Stacks = Stacks(tokens: seq<string>, expressions: seq<Expr>, operators: seq<char>)

  /** What process_variable pushes: the variable's current value, or nothing if it is undefined. */
  function VariableRef(name: string, vars: map<string, int>): (r: seq<Expr>)
    ensures |r| <= 1
    ensures r != [] <==> name in vars
    ensures name in vars ==> r == [Variable(name, vars[name])]
  {
    if name in vars then [Variable(name, vars[name])] else []
  }

  /**
   * process_operator, once `op` itself is off the token list: before a numeral the
   * operator is pushed; before `-` and a numeral the operator and the negated
   * numeral are pushed and both tokens consumed; anything else fails.
   */
  function OperatorStep(op: char, s: Stacks): (r: Result<Stacks>)
    ensures r.Ok? ==> r.value.operators == s.operators + [op]
    ensures r.Ok? ==> s.tokens != [] && (IsDigits(s.tokens[0]) || s.tokens[0] == "-")
    ensures r.Ok? ==> |r.value.tokens| <= |s.tokens|
    ensures s.tokens == [] ==> r == Err(IndexError)
    ensures s.tokens != [] && !IsDigits(s.tokens[0]) && s.tokens[0] != "-" ==> r == Err(AssertionError)
    ensures s.tokens == ["-"] ==> r == Err(IndexError)
    ensures |s.tokens| >= 2 && s.tokens[0] == "-" && !IsDigits(s.tokens[1]) ==> r == Err(AssertionError)
    ensures s.tokens != [] && IsDigits(s.tokens[0]) ==> r == Ok(s.(operators := s.operators + [op]))
    ensures |s.tokens| >= 2 && s.tokens[0] == "-" && IsDigits(s.tokens[1]) ==>
              r.Ok? && r.value.tokens == s.tokens[2..] && r.value.expressions == s.expressions + [Constant(-(DigitsValue(s.tokens[1]) as int))]
  {
    assert "-"[0] == '-';
    if s.tokens == [] then Err(IndexError)
    else if IsDigits(s.tokens[0]) then Ok(s.(operators := s.operators + [op]))
    else if s.tokens[0] != "-" then Err(AssertionError)
    else if |s.tokens| < 2 then Err(IndexError)
    else if !IsDigits(s.tokens[1]) then Err(AssertionError)
    else
      var n: int := DigitsValue(s.tokens[1]);
      Ok(Stacks(s.tokens[2..], s.expressions + [Constant(n * -1)], s.operators + [op]))
  }

  /** The token loop of parse: each token is taken off the front and dispatched. */
  function Classify(s: Stacks, vars: map<string, int>): (r: Result<Stacks>)
    ensures r.Ok? ==> r.value.tokens == []
    decreases |s.tokens|
  {
    if s.tokens == [] then Ok(s)
    else
      var tok := s.tokens[0];
      var rest := s.(tokens := s.tokens[1..]);
      if IsDigits(tok) then
        Classify(rest.(expressions := rest.expressions + [Constant(DigitsValue(tok))]), vars)
      else if IsOperatorToken(tok, Extended) then
        match OperatorStep(tok[0], rest)
        case Err(f) => Err(f)
        case Ok(next) => Classify(next, vars)
      else
        Classify(rest.(expressions := rest.expressions + VariableRef(tok, vars)), vars)
  }

  /** process_variable. */
  method ProcessVariable(token: string, store: VariableStore, expressions: List<Expr>)
    modifies expressions
    ensures expressions.items == old(expressions.items) + VariableRef(token, store.bindings)
  {
    if token !in store.bindings {
      return;
    }
    expressions.items := expressions.items + [Variable(token, store.bindings[token])];
  }

  /** process_constant: the caller hands it a numeral only. */
  method ProcessConstant(token: string, expressions: List<Expr>)
    requires IsDigits(token)
    modifies expressions
    ensures expressions.items == old(expressions.items) + [Constant(DigitsValue(token))]
  {
    expressions.items := expressions.items + [Constant(DigitsValue(token))];
  }

  /** process_operator. */
  method ProcessOperator(op: char, tokens: List<string>, operators: List<char>, expressions: List<Expr>)
    returns (outcome: Outcome)
    modifies tokens, operators, expressions
    ensures var r := OperatorStep(op, Stacks(old(tokens.items), old(expressions.items), old(operators.items)));
            if r.Ok?
            then outcome == Pass && tokens.items == r.value.tokens
                 && expressions.items == r.value.expressions && operators.items == r.value.operators
            else outcome == Fail(r.failure) && tokens.items == old(tokens.items)
                 && expressions.items == old(expressions.items) && operators.items == old(operators.items)
  {
    if tokens.items == [] {
      return Fail(IndexError);
    }
    var next := tokens.items[0];
    if IsDigits(next) {
      operators.items := operators.items + [op];
      return Pass;
    }
    if next != "-" {
      return Fail(AssertionError);
    }
    if |tokens.items| < 2 {
      return Fail(IndexError);
    }
    var successor := tokens.items[1];
    if !IsDigits(successor) {
      return Fail(AssertionError);
    }
    operators.items := operators.items + [op];
    var n: int := DigitsValue(successor);
    expressions.items := expressions.items + [Constant(n * -1)];
    tokens.items := tokens.items[1..];
    tokens.items := tokens.items[1..];
    outcome := Pass;
  }

  // ----- Reducing the stacks -----

  /**
   * One pass of assemble_expression's loop. The top operator is popped with the
   * two top expressions; if the operator beneath it has strictly higher
   * precedence, that one is applied first to the second and third expressions
   * (second expression on the left) and the popped operator and top expression
   * are pushed back.
   */
  function AssembleStep(E: seq<Expr>, O: seq<char>, t: Tables): (r: Result<(seq<Expr>, seq<char>)>)
    requires O != []
    ensures r.Ok? ==> |r.value.0| == |E| - 1 && |r.value.1| == |O| - 1
  {
    var op := O[|O| - 1];
    var O1 := O[..|O| - 1];
    if |E| < 2 then Err(IndexError)
    else
      var e1, e2, E1 := E[|E| - 1], E[|E| - 2], E[..|E| - 2];
      if O1 != [] && (t.precedence(O1[|O1| - 1]).None? || t.precedence(op).None?) then Err(KeyError)
      else if O1 != [] && t.precedence(O1[|O1| - 1]).value > t.precedence(op).value then
        if E1 == [] then Err(IndexError)
        else
          match t.operation(O1[|O1| - 1])
          case None => Err(KeyError)
          case Some(f) => Ok((E1[..|E1| - 1] + [BinOpApp(f, e2, E1[|E1| - 1]), e1], O1[..|O1| - 1] + [op]))
      else
        match t.operation(op)
        case None => Err(KeyError)
        case Some(f) => Ok((E1 + [BinOpApp(f, e2, e1)], O1))
  }

  /** assemble_expression: steps until the operator stack is empty. */
  function Assemble(E: seq<Expr>, O: seq<char>, t: Tables): (r: Result<seq<Expr>>)
    ensures r.Ok? ==> |r.value| + |O| == |E|
    decreases |O|
  {
    if O == [] then Ok(E)
    else
      match AssembleStep(E, O, t)
      case Err(f) => Err(f)
      case Ok(next) => Assemble(next.0, next.1, t)
  }

  lemma StepLookback(E: seq<Expr>, O: seq<char>, t: Tables, f: Op)
    requires |O| >= 2 && |E| >= 3
    requires t.precedence(O[|O| - 2]).Some? && t.precedence(O[|O| - 1]).Some?
    requires t.precedence(O[|O| - 2]).value > t.precedence(O[|O| - 1]).value
    requires t.operation(O[|O| - 2]) == Some(f)
    ensures AssembleStep(E, O, t)
         == Ok((E[..|E| - 3] + [BinOpApp(f, E[|E| - 2], E[|E| - 3]), E[|E| - 1]], O[..|O| - 2] + [O[|O| - 1]]))
  {
    var E1, O1 := E[..|E| - 2], O[..|O| - 1];
    assert E1[..|E1| - 1] == E[..|E| - 3] && E1[|E1| - 1] == E[|E| - 3];
    assert O1[..|O1| - 1] == O[..|O| - 2] && O1[|O1| - 1] == O[|O| - 2];
  }

  lemma StepPlain(E: seq<Expr>, O: seq<char>, t: Tables, f: Op)
    requires |O| >= 1 && |E| >= 2
    requires |O| >= 2 ==> t.precedence(O[|O| - 2]).Some? && t.precedence(O[|O| - 1]).Some?
    requires |O| >= 2 ==> t.precedence(O[|O| - 2]).value <= t.precedence(O[|O| - 1]).value
    requires t.operation(O[|O| - 1]) == Some(f)
    ensures AssembleStep(E, O, t) == Ok((E[..|E| - 2] + [BinOpApp(f, E[|E| - 2], E[|E| - 1])], O[..|O| - 1]))
  {
    var O1 := O[..|O| - 1];
    assert |O| >= 2 ==> O1[|O1| - 1] == O[|O| - 2];
  }

  /**
   * assemble_expression. Each pass pops from and pushes onto the two stacks; the
   * stacks are written back once per pass, which no caller can tell apart, since
   * a failure ends the parse.
   */
  method AssembleExpression(expressions: List<Expr>, operators: List<char>, t: Tables) returns (outcome: Outcome)
    modifies expressions, operators
    ensures var r := Assemble(old(expressions.items), old(operators.items), t);
            if r.Ok?
            then outcome == Pass && expressions.items == r.value && operators.items == []
            else outcome == Fail(r.failure)
  {
    while operators.items != []
      invariant Assemble(expressions.items, operators.items, t) == Assemble(old(expressions.items), old(operators.items), t)
      decreases |operators.items|
    {
      var exprs, ops := expressions.items, operators.items;
      var op := ops[|ops| - 1];
      ops := ops[..|ops| - 1];
      if exprs == [] {
        return Fail(IndexError);
      }
      var expr1 := exprs[|exprs| - 1];
      exprs := exprs[..|exprs| - 1];
      if exprs == [] {
        return Fail(IndexError);
      }
      var expr2 := exprs[|exprs| - 1];
      exprs := exprs[..|exprs| - 1];
      if ops != [] {
        var above := t.precedence(ops[|ops| - 1]);
        var own := t.precedence(op);
        if above.None? || own.None? {
          return Fail(KeyError);
        }
        if above.value > own.value {
          // The operator beneath binds tighter: apply it first.
          if exprs == [] {
            return Fail(IndexError);
          }
          var expr3 := exprs[|exprs| - 1];
          exprs := exprs[..|exprs| - 1];
          var op2 := ops[|ops| - 1];
          ops := ops[..|ops| - 1];
          var operation := t.operation(op2);
          if operation.None? {
            return Fail(KeyError);
          }
          ghost var E, O := expressions.items, operators.items;
          assert exprs == E[..|E| - 3] && ops == O[..|O| - 2];
          assert expr1 == E[|E| - 1] && expr2 == E[|E| - 2] && expr3 == E[|E| - 3] && op == O[|O| - 1];
          StepLookback(E, O, t, operation.value);
          exprs := exprs + [BinOpApp(operation.value, expr2, expr3)];
          // The unused operator and expression go back onto the stacks.
          ops := ops + [op];
          exprs := exprs + [expr1];
          assert exprs == E[..|E| - 3] + [BinOpApp(operation.value, E[|E| - 2], E[|E| - 3]), E[|E| - 1]];
          assert ops == O[..|O| - 2] + [O[|O| - 1]];
          assert AssembleStep(E, O, t) == Ok((exprs, ops));
          expressions.items, operators.items := exprs, ops;
          continue;
        }
      }
      var operation := t.operation(op);
      if operation.None? {
        return Fail(KeyError);
      }
      ghost var E, O := expressions.items, operators.items;
      assert exprs == E[..|E| - 2] && ops == O[..|O| - 1];
      assert expr1 == E[|E| - 1] && expr2 == E[|E| - 2] && op == O[|O| - 1];
      StepPlain(E, O, t, operation.value);
      exprs := exprs + [BinOpApp(operation.value, expr2, expr1)];
      assert AssembleStep(E, O, t) == Ok((exprs, ops));
      expressions.items, operators.items := exprs, ops;
    }
    outcome := Pass;
  }

  // ----- parse -----

  /** What parse returns (or raises), and the store afterwards. */
  datatype Parsed = Parsed(result: Result<Expr>, bindings: map<string, int>)

  /** The reduction and the final pop of the expression stack. */
  function Reduce(E: seq<Expr>, O: seq<char>, t: Tables): (r: Result<Expr>)
    ensures Assemble(E, O, t).Err? ==> r == Err(Assemble(E, O, t).failure)
    ensures Assemble(E, O, t).Ok? ==> (r.Ok? <==> |E| > |O|)
    ensures Assemble(E, O, t).Ok? && r.Err? ==> r.failure == IndexError
    ensures |E| == |O| + 1 && Assemble(E, O, t).Ok? ==> r == Ok(Assemble(E, O, t).value[0])
  {
    match Assemble(E, O, t)
    case Err(f) => Err(f)
    case Ok(rest) => if rest == [] then Err(IndexError) else Ok(rest[|rest| - 1])
  }

  /** parse: an assignment if "=" is among the tokens, an expression otherwise. */
  function ParseTokens(tokens: seq<string>, vars: map<string, int>): (r: Parsed)
    ensures "=" !in tokens ==> r.bindings == vars
    ensures "=" in tokens && r.result.Ok? ==> r.result.value == Assignment("Assignment")
    ensures "=" in tokens ==> (r.result.Ok? <==> Assigned(tokens, vars).Ok?)
    ensures "=" in tokens ==> r.bindings == (if Assigned(tokens, vars).Ok? then Assigned(tokens, vars).value else vars)
  {
    if "=" in tokens then
      match Assigned(tokens, vars)
      case Ok(m) => Parsed(Ok(Assignment("Assignment")), m)
      case Err(f) => Parsed(Err(f), vars)
    else
      match Classify(Stacks(tokens, [], []), vars)
      case Err(f) => Parsed(Err(f), vars)
      case Ok(s) => Parsed(Reduce(s.expressions, s.operators, Extended), vars)
  }

  /** parse. */
  method Parse(tokens: List<string>, store: VariableStore) returns (result: Result<Expr>)
    modifies tokens, store
    ensures result == ParseTokens(old(tokens.items), old(store.bindings)).result
    ensures store.bindings == ParseTokens(old(tokens.items), old(store.bindings)).bindings
    ensures "=" in old(tokens.items) ==> tokens.items == old(tokens.items)
    ensures "=" !in old(tokens.items) && Classify(Stacks(old(tokens.items), [], []), old(store.bindings)).Ok? ==>
              tokens.items == []
  {
    var expressions := new List<Expr>([]);
    var operators := new List<char>([]);
    if "=" in tokens.items {
      var outcome := PerformVarAssignment(tokens.items, store);
      if outcome.Fail? {
        return Err(outcome.failure);
      }
      return Ok(Assignment("Assignment"));
    }
    ghost var vars := store.bindings;
    ghost var start := Stacks(tokens.items, [], []);
    while tokens.items != []
      invariant store.bindings == vars && vars == old(store.bindings)
      invariant Classify(Stacks(tokens.items, expressions.items, operators.items), vars) == Classify(start, vars)
      decreases |tokens.items|
    {
      var token := tokens.items[0];
      tokens.items := tokens.items[1..];
      if IsDigits(token) {
        ProcessConstant(token, expressions);
      } else if IsOperatorToken(token, Extended) {
        var outcome := ProcessOperator(token[0], tokens, operators, expressions);
        if outcome.Fail? {
          return Err(outcome.failure);
        }
      } else {
        ProcessVariable(token, store, expressions);
      }
    }
    var outcome := AssembleExpression(expressions, operators, Extended);
    if outcome.Fail? {
      return Err(outcome.failure);
    }
    if expressions.items == [] {
      return Err(IndexError);
    }
    result := Ok(expressions.items[|expressions.items| - 1]);
    expressions.items := expressions.items[..|expressions.items| - 1];
  }

  // ----- Properties of the reduction -----

  /** Every operator on the stack has a precedence. */
  predicate Ranked(O: seq<char>, t: Tables) {
    forall i :: 0 <= i < |O| ==> t.precedence(O[i]).Some?
  }

  /** Every operator on the stack has an operation; a parenthesis has none. */
  predicate Applicable(O: seq<char>, t: Tables) {
    forall i :: 0 <= i < |O| ==> t.operation(O[i]).Some?
  }

  lemma LookbackKeepsOperators(O: seq<char>, t: Tables)
    requires |O| >= 2 && Ranked(O, t)
    ensures Ranked(O[..|O| - 2] + [O[|O| - 1]], t)
    ensures Applicable(O, t) <==> t.operation(O[|O| - 2]).Some? && Applicable(O[..|O| - 2] + [O[|O| - 1]], t)
  {
    var n := |O|;
    var O' := O[..n - 2] + [O[n - 1]];
    assert forall i :: 0 <= i < n - 2 ==> O'[i] == O[i];
    assert O'[n - 2] == O[n - 1];
    if t.operation(O[n - 2]).Some? && Applicable(O', t) {
      forall i | 0 <= i < n ensures t.operation(O[i]).Some? {
        if i == n - 1 {
          assert O[i] == O'[n - 2];
        } else if i < n - 2 {
          assert O[i] == O'[i];
        }
      }
    }
  }

  lemma PlainKeepsOperators(O: seq<char>, t: Tables)
    requires |O| >= 1 && Ranked(O, t)
    ensures Ranked(O[..|O| - 1], t)
    ensures Applicable(O, t) <==> t.operation(O[|O| - 1]).Some? && Applicable(O[..|O| - 1], t)
  {
    var n := |O|;
    assert forall i :: 0 <= i < n - 1 ==> O[..n - 1][i] == O[i];
  }

  /**
   * With one more expression than operators, the reduction never runs out of
   * expressions: it ends with exactly one expression, and fails (with KeyError)
   * exactly when some operator on the stack has no operation, as a parenthesis has not.
   */
  lemma {:induction false} AssembleSucceedsIff(E: seq<Expr>, O: seq<char>, t: Tables)
    requires |E| == |O| + 1 && Ranked(O, t)
    ensures Assemble(E, O, t).Ok? <==> Applicable(O, t)
    ensures Assemble(E, O, t).Ok? ==> |Assemble(E, O, t).value| == 1
    ensures Assemble(E, O, t).Err? ==> Assemble(E, O, t).failure == KeyError
    decreases |O|
  {
    if O != [] {
      var n := |O|;
      if n >= 2 && t.precedence(O[n - 2]).value > t.precedence(O[n - 1]).value {
        LookbackKeepsOperators(O, t);
        var f := t.operation(O[n - 2]);
        if f.Some? {
          StepLookback(E, O, t, f.value);
          var next := AssembleStep(E, O, t).value;
          AssembleSucceedsIff(next.0, next.1, t);
        } else {
          var O1 := O[..n - 1];
          assert O1[|O1| - 1] == O[n - 2];
          assert AssembleStep(E, O, t) == Err(KeyError);
        }
      } else {
        PlainKeepsOperators(O, t);
        var f := t.operation(O[n - 1]);
        if f.Some? {
          StepPlain(E, O, t, f.value);
          var next := AssembleStep(E, O, t).value;
          AssembleSucceedsIff(next.0, next.1, t);
        } else {
          var O1 := O[..n - 1];
          assert n >= 2 ==> O1[|O1| - 1] == O[n - 2];
          assert AssembleStep(E, O, t) == Err(KeyError);
        }
      }
    }
  }

  /** Operators whose precedence never falls from bottom to top of the stack. */
  predicate Rising(O: seq<char>, t: Tables) {
    Ranked(O, t) && forall i :: 0 < i < |O| ==> t.precedence(O[i - 1]).value <= t.precedence(O[i]).value
  }

  /** e0 o1 (e1 o2 (... (en-1 on en))): every operator takes everything to its right. */
  function RightNest(E: seq<Expr>, O: seq<char>, t: Tables): Expr
    requires |E| == |O| + 1 && Applicable(O, t)
    decreases |O|
  {
    if O == [] then E[0]
    else BinOpApp(t.operation(O[0]).value, E[0], RightNest(E[1..], O[1..], t))
  }

  lemma {:induction false} RightNestCollapse(E: seq<Expr>, O: seq<char>, t: Tables)
    requires |E| == |O| + 1 && |O| >= 1 && Applicable(O, t)
    ensures Applicable(O[..|O| - 1], t)
    ensures RightNest(E[..|E| - 2] + [BinOpApp(t.operation(O[|O| - 1]).value, E[|E| - 2], E[|E| - 1])], O[..|O| - 1], t)
         == RightNest(E, O, t)
    decreases |O|
  {
    var n := |O|;
    var O' := O[..n - 1];
    var E' := E[..|E| - 2] + [BinOpApp(t.operation(O[n - 1]).value, E[|E| - 2], E[|E| - 1])];
    assert forall i :: 0 <= i < n - 1 ==> O'[i] == O[i];
    if n > 1 {
      assert forall i :: 0 <= i < n - 1 ==> O[1..][i] == O[i + 1];
      RightNestCollapse(E[1..], O[1..], t);
      assert E'[1..] == E[1..][..|E| - 3] + [BinOpApp(t.operation(O[1..][n - 2]).value, E[1..][|E| - 3], E[1..][|E| - 2])];
      assert O'[1..] == O[1..][..n - 2];
    }
  }

  /**
   * When precedence never falls along the stack (in particular when all
   * operators have the same precedence), no lookback happens and every operator
   * nests to the right: 2-3-4 is read as 2-(3-4).
   */
  lemma {:induction false} RightNesting(E: seq<Expr>, O: seq<char>, t: Tables)
    requires |E| == |O| + 1 && Rising(O, t) && Applicable(O, t)
    ensures Assemble(E, O, t) == Ok([RightNest(E, O, t)])
    decreases |O|
  {
    var n := |O|;
    if n == 0 {
      assert E == [E[0]];
    } else {
      StepPlain(E, O, t, t.operation(O[n - 1]).value);
      var next := AssembleStep(E, O, t).value;
      assert forall i :: 0 <= i < n - 1 ==> next.1[i] == O[i];
      RightNesting(next.0, next.1, t);
      RightNestCollapse(E, O, t);
    }
  }

  /**
   * The lookback with two operators, the lower one on top: the higher one is
   * applied to the second and the first expression, in that order, so its
   * operands come out swapped.
   */
  lemma LookbackSwapsOperands(a: Expr, b: Expr, c: Expr, high: char, low: char, t: Tables)
    requires t.precedence(high).Some? && t.precedence(low).Some?
    requires t.precedence(high).value > t.precedence(low).value
    requires t.operation(high).Some? && t.operation(low).Some?
    ensures Assemble([a, b, c], [high, low], t)
         == Ok([BinOpApp(t.operation(low).value, BinOpApp(t.operation(high).value, b, a), c)])
  {
    var f, g := t.operation(high).value, t.operation(low).value;
    var E, O := [a, b, c], [high, low];
    var E', O' := [BinOpApp(f, b, a), c], [low];
    assert E[..|E| - 3] + [BinOpApp(f, E[|E| - 2], E[|E| - 3]), E[|E| - 1]] == E';
    assert O[..|O| - 2] + [O[|O| - 1]] == O';
    StepLookback(E, O, t, f);
    AssembleUnfold(E, O, t, (E', O'));
    assert E'[..|E'| - 2] + [BinOpApp(g, E'[|E'| - 2], E'[|E'| - 1])] == [BinOpApp(g, BinOpApp(f, b, a), c)];
    assert O'[..|O'| - 1] == [];
    StepPlain(E', O', t, g);
    AssembleUnfold(E', O', t, ([BinOpApp(g, BinOpApp(f, b, a), c)], []));
  }

  lemma AssembleUnfold(E: seq<Expr>, O: seq<char>, t: Tables, next: (seq<Expr>, seq<char>))
    requires O != [] && AssembleStep(E, O, t) == Ok(next)
    ensures Assemble(E, O, t) == Assemble(next.0, next.1, t)
  {
  }

  // ----- Well-formed token lists -----

  /**
   * The operator-operand pairs parse accepts after the first operand: an
   * operator token, then a numeral, or "-" and a numeral.
   */
  predicate InfixTail(ts: seq<string>)
    decreases |ts|
  {
    ts == [] ||
    (|ts| >= 2 && IsOperatorToken(ts[0], Extended) &&
      if IsDigits(ts[1]) then InfixTail(ts[2..])
      else |ts| >= 3 && ts[1] == "-" && IsDigits(ts[2]) && InfixTail(ts[3..]))
  }

  /** The operators of such pairs, in order. */
  function TailOperators(ts: seq<string>): (r: seq<char>)
    requires InfixTail(ts)
    ensures forall i :: 0 <= i < |r| ==> IsOperator(r[i])
    decreases |ts|
  {
    if ts == [] then []
    else [ts[0][0]] + TailOperators(if IsDigits(ts[1]) then ts[2..] else ts[3..])
  }

  /** The operands of such pairs, in order; "-" and a numeral is the negated numeral. */
  function TailOperands(ts: seq<string>): (r: seq<Expr>)
    requires InfixTail(ts)
    ensures |r| == |TailOperators(ts)|
    decreases |ts|
  {
    if ts == [] then []
    else if IsDigits(ts[1]) then [Constant(DigitsValue(ts[1]))] + TailOperands(ts[2..])
    else
      var n: int := DigitsValue(ts[2]);
      [Constant(n * -1)] + TailOperands(ts[3..])
  }

  /** An operator token followed by a numeral: both are pushed, two tokens consumed. */
  lemma ClassifyNumeralPair(ts: seq<string>, E: seq<Expr>, O: seq<char>, vars: map<string, int>)
    requires |ts| >= 2 && IsOperatorToken(ts[0], Extended) && IsDigits(ts[1])
    ensures Classify(Stacks(ts, E, O), vars)
         == Classify(Stacks(ts[2..], E + [Constant(DigitsValue(ts[1]))], O + [ts[0][0]]), vars)
  {
    assert !IsDigit(ts[0][0]);
    var s1 := Stacks(ts[1..], E, O);
    assert OperatorStep(ts[0][0], s1) == Ok(Stacks(ts[1..], E, O + [ts[0][0]]));
    assert ts[1..][1..] == ts[2..];
  }

  /** An operator token followed by "-" and a numeral: three tokens consumed. */
  lemma ClassifyNegatedPair(ts: seq<string>, E: seq<Expr>, O: seq<char>, vars: map<string, int>, n: int)
    requires |ts| >= 3 && IsOperatorToken(ts[0], Extended) && ts[1] == "-" && IsDigits(ts[2])
    requires n == DigitsValue(ts[2])
    ensures Classify(Stacks(ts, E, O), vars)
         == Classify(Stacks(ts[3..], E + [Constant(n * -1)], O + [ts[0][0]]), vars)
  {
    assert !IsDigit(ts[0][0]);
    var s1 := Stacks(ts[1..], E, O);
    assert s1.tokens[0] == "-" && !IsDigits(s1.tokens[0]) by {
      assert "-"[0] == '-';
    }
    assert s1.tokens[1] == ts[2];
    assert s1.tokens[2..] == ts[3..];
    assert OperatorStep(ts[0][0], s1) == Ok(Stacks(ts[3..], E + [Constant(n * -1)], O + [ts[0][0]]));
  }

  /** The first pair of a tail: what it pushes, and how many tokens it takes. */
  lemma ClassifyPair(ts: seq<string>, E: seq<Expr>, O: seq<char>, vars: map<string, int>) returns (k: nat, v: Expr)
    requires InfixTail(ts) && ts != []
    ensures k <= |ts| && InfixTail(ts[k..])
    ensures TailOperands(ts) == [v] + TailOperands(ts[k..])
    ensures TailOperators(ts) == [ts[0][0]] + TailOperators(ts[k..])
    ensures Classify(Stacks(ts, E, O), vars) == Classify(Stacks(ts[k..], E + [v], O + [ts[0][0]]), vars)
  {
    if IsDigits(ts[1]) {
      k, v := 2, Constant(DigitsValue(ts[1]));
      ClassifyNumeralPair(ts, E, O, vars);
    } else {
      var n: int := DigitsValue(ts[2]);
      k, v := 3, Constant(n * -1);
      ClassifyNegatedPair(ts, E, O, vars, n);
    }
  }

  /** Pushing x and then the rest is pushing x followed by the rest. */
  lemma PushedFirst<T>(stack: seq<T>, x: T, rest: seq<T>, all: seq<T>)
    requires all == [x] + rest
    ensures stack + [x] + rest == stack + all
  {
  }

  lemma {:induction false} ClassifyTail(ts: seq<string>, E: seq<Expr>, O: seq<char>, vars: map<string, int>)
    requires InfixTail(ts)
    ensures Classify(Stacks(ts, E, O), vars) == Ok(Stacks([], E + TailOperands(ts), O + TailOperators(ts)))
    decreases |ts|
  {
    if ts != [] {
      var c := ts[0][0];
      var k, v := ClassifyPair(ts, E, O, vars);
      var rest := ts[k..];
      ClassifyTail(rest, E + [v], O + [c], vars);
      PushedFirst(E, v, TailOperands(rest), TailOperands(ts));
      PushedFirst(O, c, TailOperators(rest), TailOperators(ts));
    } else {
      assert E + [] == E && O + [] == O;
    }
  }


  /** A first operand parse accepts: a numeral, or a name the store defines. */
  predicate FirstOperand(tok: string, vars: map<string, int>) {
    IsDigits(tok) || (!IsOperatorToken(tok, Extended) && tok in vars)
  }

  /** The expression a first operand pushes. */
  function FirstExpr(tok: string, vars: map<string, int>): (e: Expr)
    requires FirstOperand(tok, vars)
    ensures IsDigits(tok) ==> e == Constant(DigitsValue(tok))
    ensures !IsDigits(tok) ==> e == Variable(tok, vars[tok])
  {
    if IsDigits(tok) then Constant(DigitsValue(tok)) else Variable(tok, vars[tok])
  }

  lemma ClassifyFirst(ts: seq<string>, vars: map<string, int>)
    requires ts != [] && FirstOperand(ts[0], vars)
    ensures Classify(Stacks(ts, [], []), vars) == Classify(Stacks(ts[1..], [FirstExpr(ts[0], vars)], []), vars)
  {
    var first := FirstExpr(ts[0], vars);
    var s := Stacks(ts, [], []);
    assert s.tokens[0] == ts[0] && s.tokens[1..] == ts[1..];
    if IsDigits(ts[0]) {
      assert s.expressions + [first] == [first];
    } else {
      assert VariableRef(ts[0], vars) == [first];
      assert s.expressions + VariableRef(ts[0], vars) == [first];
    }
  }

  /** A well-formed infix token list reduces its operands and operators as pushed. */
  lemma ParseInfixReduces(ts: seq<string>, vars: map<string, int>)
    requires "=" !in ts && ts != [] && FirstOperand(ts[0], vars) && InfixTail(ts[1..])
    ensures ParseTokens(ts, vars).result
         == Reduce([FirstExpr(ts[0], vars)] + TailOperands(ts[1..]), TailOperators(ts[1..]), Extended)
  {
    var first := FirstExpr(ts[0], vars);
    ClassifyFirst(ts, vars);
    ClassifyTail(ts[1..], [first], [], vars);
    assert [] + TailOperators(ts[1..]) == TailOperators(ts[1..]);
  }

  /**
   * A well-formed infix token list always parses, except that an operator with
   * no operation (a parenthesis) makes the reduction raise KeyError.
   */
  lemma ParseInfix(ts: seq<string>, vars: map<string, int>)
    requires "=" !in ts && ts != [] && FirstOperand(ts[0], vars) && InfixTail(ts[1..])
    ensures var ops := TailOperators(ts[1..]);
            ParseTokens(ts, vars).result.Ok? <==> forall i :: 0 <= i < |ops| ==> !IsParen(ops[i])
    ensures ParseTokens(ts, vars).result.Err? ==> ParseTokens(ts, vars).result.failure == KeyError
  {
    ParseInfixReduces(ts, vars);
    var E := [FirstExpr(ts[0], vars)] + TailOperands(ts[1..]);
    var ops := TailOperators(ts[1..]);
    assert Ranked(ops, Extended);
    AssembleSucceedsIff(E, ops, Extended);
    assert Applicable(ops, Extended) <==> forall i :: 0 <= i < |ops| ==> !IsParen(ops[i]) by {
      forall i | 0 <= i < |ops| {
        TablesInverse(Add, ops[i]);
      }
    }
  }
}
