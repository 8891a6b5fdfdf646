/**
 * Worked inputs for the interpreter: what a line tokenises to, the tree parse
 * builds for it, and what that tree evaluates to, including the failures.
 */
module Scenarios {
  import opened Outcomes
  import opened Builtins
  import opened Common
  import opened Expressions
  import opened Tokeniser
  import opened Parser
  import AlgebraInterpreter

  /**
   * Parse the tokens against the store, then evaluate the tree parse returns; an
   * Assignment is evaluated too. The samples state their results through it.
   */
  function Run(tokens: seq<string>, vars: map<string, int>): (r: Result<Evaluation>)
    ensures r.Ok? <==> ParseTokens(tokens, vars).result.Ok?
    ensures r.Err? ==> r.failure == ParseTokens(tokens, vars).result.failure
  {
    match ParseTokens(tokens, vars).result
    case Err(f) => Err(f)
    case Ok(e) => Ok(Evaluate(e))
  }

  // ----- Helpers -----

  /**
   * A line the parser reads straight through: no "=", a first operand, then
   * operator-numeral pairs; E and O are the stacks it leaves.
   */
  predicate Infix(ts: seq<string>, vars: map<string, int>, E: seq<Expr>, O: seq<char>) {
    && "=" !in ts && ts != [] && FirstOperand(ts[0], vars) && InfixTail(ts[1..])
    && [FirstExpr(ts[0], vars)] + TailOperands(ts[1..]) == E && TailOperators(ts[1..]) == O
  }

  lemma RunInfix(ts: seq<string>, vars: map<string, int>, E: seq<Expr>, O: seq<char>, e: Expr)
    requires Infix(ts, vars, E, O)
    requires Assemble(E, O, Extended) == Ok([e])
    ensures Run(ts, vars) == Ok(Evaluate(e))
  {
    ParseInfixReduces(ts, vars);
  }

  /** Operator-numeral pairs never contain "=". */
  lemma {:induction false} InfixTailNoEquals(ts: seq<string>)
    requires InfixTail(ts)
    ensures "=" !in ts
    decreases |ts|
  {
    if ts != [] {
      assert "="[0] == '=';
      if IsDigits(ts[1]) {
        InfixTailNoEquals(ts[2..]);
        assert ts == [ts[0], ts[1]] + ts[2..];
      } else {
        assert ts[1] == "-" && IsDigits(ts[2]);
        InfixTailNoEquals(ts[3..]);
        assert ts == [ts[0], ts[1], ts[2]] + ts[3..];
      }
    }
  }

  /** A first operand other than "=" followed by operator-numeral pairs is an infix line. */
  lemma Lead(ts: seq<string>, vars: map<string, int>)
    requires ts != [] && ts[0] != "=" && FirstOperand(ts[0], vars) && InfixTail(ts[1..])
    ensures Infix(ts, vars, [FirstExpr(ts[0], vars)] + TailOperands(ts[1..]), TailOperators(ts[1..]))
  {
    InfixTailNoEquals(ts[1..]);
    assert ts == [ts[0]] + ts[1..];
  }

  lemma NotNumeral(s: string)
    requires s != [] && !IsDigit(s[0])
    ensures !IsDigits(s)
  {
  }

  lemma TailCons(op: string, n: string, rest: seq<string>)
    requires IsOperatorToken(op, Extended) && IsDigits(n) && InfixTail(rest)
    ensures InfixTail([op, n] + rest)
    ensures TailOperands([op, n] + rest) == [Constant(DigitsValue(n))] + TailOperands(rest)
    ensures TailOperators([op, n] + rest) == [op[0]] + TailOperators(rest)
  {
    assert ([op, n] + rest)[2..] == rest;
  }

  lemma TailNegCons(op: string, n: string, rest: seq<string>)
    requires IsOperatorToken(op, Extended) && IsDigits(n) && InfixTail(rest)
    ensures InfixTail([op, "-", n] + rest)
    ensures var v: int := DigitsValue(n);
            TailOperands([op, "-", n] + rest) == [Constant(v * -1)] + TailOperands(rest)
    ensures TailOperators([op, "-", n] + rest) == [op[0]] + TailOperators(rest)
  {
    assert ([op, "-", n] + rest)[3..] == rest;
    NotNumeral("-");
  }

  /** One operator-numeral pair. */
  lemma Tail1(op: string, n: string)
    requires IsOperatorToken(op, Extended) && IsDigits(n)
    ensures InfixTail([op, n])
    ensures TailOperands([op, n]) == [Constant(DigitsValue(n))]
    ensures TailOperators([op, n]) == [op[0]]
  {
    assert [op, n] == [op, n] + [];
    TailCons(op, n, []);
  }

  /** Two operator-numeral pairs. */
  lemma Tail2(op1: string, n1: string, op2: string, n2: string)
    requires IsOperatorToken(op1, Extended) && IsDigits(n1)
    requires IsOperatorToken(op2, Extended) && IsDigits(n2)
    ensures InfixTail([op1, n1, op2, n2])
    ensures TailOperands([op1, n1, op2, n2]) == [Constant(DigitsValue(n1)), Constant(DigitsValue(n2))]
    ensures TailOperators([op1, n1, op2, n2]) == [op1[0], op2[0]]
  {
    Tail1(op2, n2);
    assert [op1, n1, op2, n2] == [op1, n1] + [op2, n2];
    TailCons(op1, n1, [op2, n2]);
  }

  /** Three operator-numeral pairs. */
  lemma Tail3(op1: string, n1: string, op2: string, n2: string, op3: string, n3: string)
    requires IsOperatorToken(op1, Extended) && IsDigits(n1)
    requires IsOperatorToken(op2, Extended) && IsDigits(n2)
    requires IsOperatorToken(op3, Extended) && IsDigits(n3)
    ensures InfixTail([op1, n1, op2, n2, op3, n3])
    ensures TailOperands([op1, n1, op2, n2, op3, n3])
         == [Constant(DigitsValue(n1)), Constant(DigitsValue(n2)), Constant(DigitsValue(n3))]
    ensures TailOperators([op1, n1, op2, n2, op3, n3]) == [op1[0], op2[0], op3[0]]
  {
    Tail2(op2, n2, op3, n3);
    assert [op1, n1, op2, n2, op3, n3] == [op1, n1] + [op2, n2, op3, n3];
    TailCons(op1, n1, [op2, n2, op3, n3]);
  }

  // ----- Tokenising -----

  lemma SampleSplitting()
    ensures IsSplitting(["2", "+", "3", "*", "4"], "2+3*4", Extended)
  {
    var ts := ["2", "+", "3", "*", "4"];
    assert Concat(ts) == "2+3*4" by {
      assert Concat(ts[4..]) == "4";
      assert ts[3..][1..] == ts[4..];
      assert Concat(ts[3..]) == "*4";
      assert ts[2..][1..] == ts[3..];
      assert Concat(ts[2..]) == "3*4";
      assert ts[1..][1..] == ts[2..];
      assert Concat(ts[1..]) == "+3*4";
    }
    NotNumeral("+");
    NotNumeral("*");
    assert IsDigits("2") && IsDigits("3") && IsDigits("4");
  }

  lemma TokeniseSample(s: string)
    requires s == "2+3*4"
    ensures Scannable(s, Extended)
    ensures Tokens(s, Extended) == ["2", "+", "3", "*", "4"]
  {
    SampleSplitting();
    ExtendedWellFormed();
    TokensUnique(["2", "+", "3", "*", "4"], s, Extended);
  }

  /** A letter or "=" is neither a digit nor an operator: the scan cannot pass it. */
  lemma NamesDoNotTokenise()
    ensures !Scannable("x+1", Extended)
    ensures !Scannable("7=7", Extended)
  {
    assert !IsDigit("x+1"[0]) && !IsOperator("x+1"[0]);
    assert !IsDigit("7=7"[1]) && !IsOperator("7=7"[1]);
  }

  /** Small numerals and their values. */
  lemma SmallNumerals()
    ensures IsDigits("1") && DigitsValue("1") == 1 && IsDigits("2") && DigitsValue("2") == 2
    ensures IsDigits("3") && DigitsValue("3") == 3 && IsDigits("4") && DigitsValue("4") == 4
    ensures IsDigits("6") && DigitsValue("6") == 6
  {
  }

  /** A numeral followed by two operator-numeral pairs is an infix line over their values and operators. */
  lemma TwoPairShape(a: string, o1: string, b: string, o2: string, c: string)
    requires IsDigits(a) && IsDigits(b) && IsDigits(c)
    requires IsOperatorToken(o1, Extended) && IsOperatorToken(o2, Extended)
    ensures Infix([a, o1, b, o2, c], map[],
                  [Constant(DigitsValue(a)), Constant(DigitsValue(b)), Constant(DigitsValue(c))], [o1[0], o2[0]])
  {
    var ts := [a, o1, b, o2, c];
    NotNumeral("=");
    Tail2(o1, b, o2, c);
    assert ts[1..] == [o1, b, o2, c];
    Lead(ts, map[]);
  }

  // ----- Precedence -----

  lemma PrecedenceTree(E: seq<Expr>, O: seq<char>, e: Expr)
    requires E == [Constant(2), Constant(3), Constant(4)] && O == ['+', '*']
    requires e == BinOpApp(Add, Constant(2), BinOpApp(Multiply, Constant(3), Constant(4)))
    ensures Assemble(E, O, Extended) == Ok([e])
    ensures Evaluate(e) == Int(14)
  {
    RightNesting([Constant(2), Constant(3), Constant(4)], ['+', '*'], Extended);
  }

  /** 2+3*4: the tighter operator is on top, and everything nests to the right. */
  lemma PrecedenceSample(tokens: seq<string>)
    requires tokens == ["2", "+", "3", "*", "4"]
    ensures Run(tokens, map[]) == Ok(Int(14))
  {
    var E, O := [Constant(2), Constant(3), Constant(4)], ['+', '*'];
    var e := BinOpApp(Add, Constant(2), BinOpApp(Multiply, Constant(3), Constant(4)));
    TwoPairShape("2", "+", "3", "*", "4");
    SmallNumerals();
    assert "+"[0] == '+' && "*"[0] == '*';
    PrecedenceTree(E, O, e);
    RunInfix(tokens, map[], E, O, e);
  }

  lemma MixedPrecedenceShape(tokens: seq<string>, E: seq<Expr>, O: seq<char>)
    requires tokens == ["2", "*", "3", "+", "4", "*", "5"] && E == [Constant(2), Constant(3), Constant(4), Constant(5)] && O == ['*', '+', '*']
    ensures Infix(tokens, map[], E, O)
  {
    Tail3("*", "3", "+", "4", "*", "5");
    assert tokens[1..] == ["*", "3", "+", "4", "*", "5"];
    Lead(tokens, map[]);
  }

  lemma MixedPrecedenceTree(E: seq<Expr>, O: seq<char>, e: Expr)
    requires E == [Constant(2), Constant(3), Constant(4), Constant(5)] && O == ['*', '+', '*']
    requires e == BinOpApp(Add, BinOpApp(Multiply, Constant(3), Constant(2)), BinOpApp(Multiply, Constant(4), Constant(5)))
    ensures Assemble(E, O, Extended) == Ok([e])
    ensures Evaluate(e) == Int(26)
  {
    var a, b, c, d := Constant(2), Constant(3), Constant(4), Constant(5);
    StepPlain(E, O, Extended, Multiply);
    var E', O' := [a, b, BinOpApp(Multiply, c, d)], ['*', '+'];
    assert E[..|E| - 2] + [BinOpApp(Multiply, E[|E| - 2], E[|E| - 1])] == E';
    assert O[..|O| - 1] == O';
    AssembleUnfold(E, O, Extended, (E', O'));
    LookbackSwapsOperands(a, b, BinOpApp(Multiply, c, d), '*', '+', Extended);
    MixedPrecedenceValue(e);
  }

  lemma MixedPrecedenceValue(e: Expr)
    requires e == BinOpApp(Add, BinOpApp(Multiply, Constant(3), Constant(2)), BinOpApp(Multiply, Constant(4), Constant(5)))
    ensures Evaluate(e) == Int(26)
  {
  }

  /** 2*3+4*5: the lookback applies the lower 2*3 (as 3*2) before the +. */
  lemma MixedPrecedenceSample(tokens: seq<string>)
    requires tokens == ["2", "*", "3", "+", "4", "*", "5"]
    ensures Run(tokens, map[]) == Ok(Int(26))
  {
    var E, O := [Constant(2), Constant(3), Constant(4), Constant(5)], ['*', '+', '*'];
    var e := BinOpApp(Add, BinOpApp(Multiply, Constant(3), Constant(2)), BinOpApp(Multiply, Constant(4), Constant(5)));
    MixedPrecedenceShape(tokens, E, O);
    MixedPrecedenceTree(E, O, e);
    RunInfix(tokens, map[], E, O, e);
  }

  lemma RightNestingTree(E: seq<Expr>, O: seq<char>, e: Expr)
    requires E == [Constant(2), Constant(3), Constant(4)] && O == ['-', '-']
    requires e == BinOpApp(Subtract, Constant(2), BinOpApp(Subtract, Constant(3), Constant(4)))
    ensures Assemble(E, O, Extended) == Ok([e])
    ensures Evaluate(e) == Int(3)
  {
    RightNesting([Constant(2), Constant(3), Constant(4)], ['-', '-'], Extended);
  }

  /** 2-3-4 is 2-(3-4). */
  lemma RightNestingSample(tokens: seq<string>)
    requires tokens == ["2", "-", "3", "-", "4"]
    ensures Run(tokens, map[]) == Ok(Int(3))
  {
    var E, O := [Constant(2), Constant(3), Constant(4)], ['-', '-'];
    var e := BinOpApp(Subtract, Constant(2), BinOpApp(Subtract, Constant(3), Constant(4)));
    TwoPairShape("2", "-", "3", "-", "4");
    SmallNumerals();
    assert "-"[0] == '-' && "-"[0] == '-';
    RightNestingTree(E, O, e);
    RunInfix(tokens, map[], E, O, e);
  }

  lemma SwappedPowerTree(E: seq<Expr>, O: seq<char>, e: Expr)
    requires E == [Constant(2), Constant(3), Constant(1)] && O == ['^', '+']
    requires e == BinOpApp(Add, BinOpApp(Exponentiate, Constant(3), Constant(2)), Constant(1))
    ensures Assemble(E, O, Extended) == Ok([e])
    ensures Evaluate(e) == Int(10)
  {
    LookbackSwapsOperands(Constant(2), Constant(3), Constant(1), '^', '+', Extended);
    SwappedPowerValue(e);
  }

  lemma SwappedPowerValue(e: Expr)
    requires e == BinOpApp(Add, BinOpApp(Exponentiate, Constant(3), Constant(2)), Constant(1))
    ensures Evaluate(e) == Int(10)
  {
    assert Power(3, 2) == 9;
  }

  /** 2^3+1 computes 3^2 + 1. */
  lemma SwappedPowerSample(tokens: seq<string>)
    requires tokens == ["2", "^", "3", "+", "1"]
    ensures Run(tokens, map[]) == Ok(Int(10))
  {
    var E, O := [Constant(2), Constant(3), Constant(1)], ['^', '+'];
    var e := BinOpApp(Add, BinOpApp(Exponentiate, Constant(3), Constant(2)), Constant(1));
    TwoPairShape("2", "^", "3", "+", "1");
    SmallNumerals();
    assert "^"[0] == '^' && "+"[0] == '+';
    SwappedPowerTree(E, O, e);
    RunInfix(tokens, map[], E, O, e);
  }

  lemma SwappedDivisionTree(E: seq<Expr>, O: seq<char>, e: Expr)
    requires E == [Constant(6), Constant(3), Constant(1)] && O == ['/', '+']
    requires e == BinOpApp(Add, BinOpApp(Divide, Constant(3), Constant(6)), Constant(1))
    ensures Assemble(E, O, Extended) == Ok([e])
    ensures Evaluate(e) == NonInteger
  {
    LookbackSwapsOperands(Constant(6), Constant(3), Constant(1), '/', '+', Extended);
  }

  /** 6/3+1 computes 3/6 + 1, which is not an integer. */
  lemma SwappedDivisionSample(tokens: seq<string>)
    requires tokens == ["6", "/", "3", "+", "1"]
    ensures Run(tokens, map[]) == Ok(NonInteger)
  {
    var E, O := [Constant(6), Constant(3), Constant(1)], ['/', '+'];
    var e := BinOpApp(Add, BinOpApp(Divide, Constant(3), Constant(6)), Constant(1));
    TwoPairShape("6", "/", "3", "+", "1");
    SmallNumerals();
    assert "/"[0] == '/' && "+"[0] == '+';
    SwappedDivisionTree(E, O, e);
    RunInfix(tokens, map[], E, O, e);
  }

  lemma UnaryMinusShape(tokens: seq<string>, E: seq<Expr>, O: seq<char>)
    requires tokens == ["5", "+", "-", "3"] && E == [Constant(5), Constant(-3)] && O == ['+']
    ensures Infix(tokens, map[], E, O)
  {
    assert tokens[1..] == ["+", "-", "3"] + [];
    TailNegCons("+", "3", []);
    Lead(tokens, map[]);
  }

  /** A single operator applies to the two operands. */
  lemma SingleTree(E: seq<Expr>, O: seq<char>, e: Expr)
    requires |E| == 2 && |O| == 1 && Extended.operation(O[0]).Some?
    requires e == BinOpApp(Extended.operation(O[0]).value, E[0], E[1])
    ensures Assemble(E, O, Extended) == Ok([e])
  {
    RightNesting(E, O, Extended);
    assert E[1..] == [E[1]] && O[1..] == [];
  }

  /** "-" right after an operator negates the numeral that follows. */
  lemma UnaryMinusSample(tokens: seq<string>)
    requires tokens == ["5", "+", "-", "3"]
    ensures Run(tokens, map[]) == Ok(Int(2))
  {
    var E, O := [Constant(5), Constant(-3)], ['+'];
    var e := BinOpApp(Add, Constant(5), Constant(-3));
    UnaryMinusShape(tokens, E, O);
    SingleTree(E, O, e);
    RunInfix(tokens, map[], E, O, e);
    assert Evaluate(e) == Int(2);
  }

  lemma DivisionShape(tokens: seq<string>, E: seq<Expr>, O: seq<char>)
    requires tokens == ["4", "/", "0"] && E == [Constant(4), Constant(0)] && O == ['/']
    ensures Infix(tokens, map[], E, O)
  {
    Tail1("/", "0");
    assert tokens[1..] == ["/", "0"];
    Lead(tokens, map[]);
  }

  lemma DivisionSample(tokens: seq<string>)
    requires tokens == ["4", "/", "0"]
    ensures Run(tokens, map[]) == Ok(ZeroDivision)
  {
    var E, O := [Constant(4), Constant(0)], ['/'];
    var e := BinOpApp(Divide, Constant(4), Constant(0));
    DivisionShape(tokens, E, O);
    SingleTree(E, O, e);
    RunInfix(tokens, map[], E, O, e);
    assert Evaluate(e) == ZeroDivision;
  }

  // ----- Assignment and variables -----

  /** "x = 7" binds x to 7 and yields the Assignment node. */
  lemma AssignmentBinds(assign: seq<string>)
    requires assign == ["x", "=", "7"]
    ensures ParseTokens(assign, map[]) == Parsed(Ok(Assignment("Assignment")), map["x" := 7])
  {
    var m: map<string, int> := map[];
    assert "=" in assign;
    assert ParseInt("7") == Some(7);
    assert Assigned(assign, m) == Ok(m["x" := 7]);
  }

  lemma VariableShape(use: seq<string>, vars: map<string, int>, E: seq<Expr>, O: seq<char>)
    requires use == ["x", "+", "1"] && vars == map["x" := 7]
    requires E == [Variable("x", 7), Constant(1)] && O == ['+']
    ensures Infix(use, vars, E, O)
  {
    NotNumeral("x");
    Tail1("+", "1");
    assert use[1..] == ["+", "1"];
    Lead(use, vars);
  }

  /** A bound name reads its value: x+1 with x = 7 is 8. */
  lemma VariableSample(use: seq<string>, vars: map<string, int>)
    requires use == ["x", "+", "1"] && vars == map["x" := 7]
    ensures Run(use, vars) == Ok(Int(8))
  {
    var E, O := [Variable("x", 7), Constant(1)], ['+'];
    var e := BinOpApp(Add, Variable("x", 7), Constant(1));
    VariableShape(use, vars, E, O);
    SingleTree(E, O, e);
    RunInfix(use, vars, E, O, e);
    assert Evaluate(e) == Int(8);
  }

  /** An assignment binds the name; a later line reads the bound value. */
  lemma AssignmentSample(assign: seq<string>, use: seq<string>)
    requires assign == ["x", "=", "7"] && use == ["x", "+", "1"]
    ensures ParseTokens(assign, map[]).result == Ok(Assignment("Assignment"))
    ensures Run(use, ParseTokens(assign, map[]).bindings) == Ok(Int(8))
  {
    AssignmentBinds(assign);
    VariableSample(use, map["x" := 7]);
  }

  /** A value int() cannot read is a ValueError; a missing value an IndexError. */
  lemma AssignmentFailureSamples(bad: seq<string>, short: seq<string>)
    requires bad == ["x", "=", "y"] && short == ["x", "="]
    ensures ParseTokens(bad, map[]) == Parsed(Err(ValueError), map[])
    ensures ParseTokens(short, map[]) == Parsed(Err(IndexError), map[])
  {
    assert "=" in bad && "=" in short;
    NotNumeral("y");
    assert ParseInt("y") == None;
    assert bad[2] == "y";
  }

  // ----- Failures -----

  /** A name the store does not hold pushes nothing. */
  lemma ClassifyUndefined(ts: seq<string>, E: seq<Expr>, O: seq<char>, vars: map<string, int>)
    requires ts != [] && !IsDigits(ts[0]) && !IsOperatorToken(ts[0], Extended) && ts[0] !in vars
    ensures Classify(Stacks(ts, E, O), vars) == Classify(Stacks(ts[1..], E, O), vars)
  {
    assert E + VariableRef(ts[0], vars) == E;
  }

  /** A numeral pushes its Constant. */
  lemma ClassifyNumeral(ts: seq<string>, E: seq<Expr>, O: seq<char>, vars: map<string, int>)
    requires ts != [] && IsDigits(ts[0])
    ensures Classify(Stacks(ts, E, O), vars) == Classify(Stacks(ts[1..], E + [Constant(DigitsValue(ts[0]))], O), vars)
  {
  }

  lemma NothingBefore<T>(x: seq<T>)
    ensures [] + x == x
  {
  }

  lemma UndefinedStacks(tokens: seq<string>)
    requires tokens == ["y", "+", "1"]
    ensures "=" !in tokens
    ensures Classify(Stacks(tokens, [], []), map[]) == Ok(Stacks([], [Constant(1)], ['+']))
  {
    var m: map<string, int> := map[];
    NotNumeral("y");
    assert !IsOperatorToken(tokens[0], Extended);
    ClassifyUndefined(tokens, [], [], m);
    Tail1("+", "1");
    assert tokens[1..] == ["+", "1"];
    ClassifyTail(tokens[1..], [], [], m);
    assert DigitsValue("1") == 1 && "+"[0] == '+';
    NothingBefore(TailOperands(tokens[1..]));
    NothingBefore(TailOperators(tokens[1..]));
  }

  /** An undefined name pushes nothing, so the operator finds one operand: IndexError. */
  lemma UndefinedVariableSample(tokens: seq<string>)
    requires tokens == ["y", "+", "1"]
    ensures Run(tokens, map[]) == Err(IndexError)
  {
    UndefinedStacks(tokens);
    assert Assemble([Constant(1)], ['+'], Extended) == Err(IndexError);
  }

  /** An operator followed by anything but a numeral or "-": the assertion fails. */
  lemma OperatorAdjacencySample(tokens: seq<string>)
    requires tokens == ["1", "+", "x"]
    ensures Run(tokens, map["x" := 7]) == Err(AssertionError)
  {
    var m := map["x" := 7];
    NotNumeral("+");
    NotNumeral("x");
    ClassifyNumeral(tokens, [], [], m);
    var s := Stacks(tokens[1..], [] + [Constant(1)], []);
    assert s.tokens == ["+", "x"] && s.tokens[1..] == ["x"];
    assert OperatorStep('+', s.(tokens := s.tokens[1..])) == Err(AssertionError);
    assert Classify(s, m) == Err(AssertionError);
  }

  /** An operator at the end of the line has no next token: IndexError. */
  lemma TrailingOperatorSample(tokens: seq<string>)
    requires tokens == ["1", "+"]
    ensures Run(tokens, map[]) == Err(IndexError)
  {
    var m: map<string, int> := map[];
    NotNumeral("+");
    ClassifyNumeral(tokens, [], [], m);
    var s := Stacks(tokens[1..], [] + [Constant(1)], []);
    assert s.tokens == ["+"] && s.tokens[1..] == [];
    assert Classify(s, m) == Err(IndexError);
  }

  /** An empty line leaves nothing to pop. */
  lemma EmptyLineSample()
    ensures Run([], map[]) == Err(IndexError)
  {
  }

  // ----- The draft -----

  /** How the draft's loop classifies each of the tokens 5, +, -, 3. */
  lemma DraftTokens(tokens: seq<string>)
    requires tokens == ["5", "+", "-", "3"]
    ensures IsDigits(tokens[0]) && DigitsValue(tokens[0]) == 5
    ensures IsDigits(tokens[3]) && DigitsValue(tokens[3]) == 3
    ensures !IsDigits(tokens[1]) && IsOperatorToken(tokens[1], AlgebraInterpreter.Basic) && tokens[1][0] == '+'
    ensures !IsDigits(tokens[2]) && IsOperatorToken(tokens[2], AlgebraInterpreter.Basic) && tokens[2][0] == '-'
  {
    NotNumeral(tokens[1]);
    NotNumeral(tokens[2]);
  }

  lemma DraftStacksSample(tokens: seq<string>)
    requires tokens == ["5", "+", "-", "3"]
    ensures AlgebraInterpreter.Push(tokens, [], [], map[]) == ([Constant(5), Constant(3)], ['+', '-'])
  {
    var m: map<string, int> := map[];
    var five, three := Constant(5), Constant(3);
    var E0: seq<Expr> := [];
    var O0: seq<char> := [];
    DraftTokens(tokens);
    AlgebraInterpreter.PushStep(tokens, 0, E0, O0, m);
    NothingBefore([five]);
    AlgebraInterpreter.PushStep(tokens, 1, [five], O0, m);
    NothingBefore(['+']);
    AlgebraInterpreter.PushStep(tokens, 2, [five], ['+'], m);
    assert ['+'] + ['-'] == ['+', '-'];
    AlgebraInterpreter.PushStep(tokens, 3, [five], ['+', '-'], m);
    assert tokens[0..] == tokens && tokens[4..] == [];
    assert [five] + [three] == [five, three];
  }

  /** The draft pushes "-" as a second operator, so the reduction runs out of operands. */
  lemma DraftUnaryMinusSample(tokens: seq<string>)
    requires tokens == ["5", "+", "-", "3"]
    ensures AlgebraInterpreter.ParseTokens(tokens, map[]).result == Err(IndexError)
  {
    var B := AlgebraInterpreter.Basic;
    DraftStacksSample(tokens);
    assert "=" !in tokens;
    var E, O := [Constant(5), Constant(3)], ['+', '-'];
    StepPlain(E, O, B, Subtract);
    var next := ([BinOpApp(Subtract, Constant(5), Constant(3))], ['+']);
    assert E[..0] + [BinOpApp(Subtract, E[0], E[1])] == next.0;
    assert O[..1] == next.1;
    AssembleUnfold(E, O, B, next);
    assert Assemble(next.0, next.1, B) == Err(IndexError);
  }

  /** On plain infix input the draft computes what the parser does. */
  lemma DraftPrecedenceSample(tokens: seq<string>)
    requires tokens == ["2", "+", "3", "*", "4"]
    ensures AlgebraInterpreter.ParseTokens(tokens, map[]).result.Ok?
    ensures Evaluate(AlgebraInterpreter.ParseTokens(tokens, map[]).result.value) == Int(14)
  {
    assert tokens[1..] == ["+", "3", "*", "4"];
    assert tokens[1..][2..] == ["*", "4"];
    assert tokens[1..][2..][2..] == [];
    AlgebraInterpreter.DraftAgrees(tokens, map[]);
    PrecedenceSample(tokens);
  }

  lemma DraftShowSample()
    ensures AlgebraInterpreter.Show(BinOpApp(Add, Constant(1), Variable("x", 2)))
         == Ok("(Constant: 1) + (Variable: x)")
    ensures AlgebraInterpreter.Show(BinOpApp(Exponentiate, Constant(1), Constant(2))) == Err(KeyError)
  {
    assert IntToString(1) == "1";
    var l, r := "Constant: 1", "Variable: x";
    assert "Constant: " + "1" == l && "Variable: " + "x" == r;
    assert AlgebraInterpreter.Show(Constant(1)) == Ok(l);
    assert AlgebraInterpreter.Show(Variable("x", 2)) == Ok(r);
    assert "(" + l + ") " + ['+'] + " (" + r + ")" == "(Constant: 1) + (Variable: x)";
  }
}
