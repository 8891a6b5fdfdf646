/**
 * algebra_interpreter.py: the single-file draft of the interpreter. Its node
 * classes and arithmetic are those of expressions.py and common.py; it differs
 * in its tables (four operators, no exponentiation, no parentheses), in
 * rendering a BinOpApp with its own symbol table, and in a parse that reads the
 * token list without consuming it and has no unary minus. Its
 * perform_var_assignment and append_variable are the parser's
 * perform_var_assignment and process_variable line for line, and are used from
 * there.
 */
module AlgebraInterpreter {
  import opened Outcomes
  import opened Builtins
  import opened Common
  import opened Expressions
  import opened Lists
  import opened Tokeniser
  import opened Parser

  // ----- Tables -----

  /** This file's is_operator: the four arithmetic symbols only. */
  predicate IsBasicOperator(c: char)
    ensures IsBasicOperator(c) ==> IsOperator(c) && !IsParen(c)
  {
    c in "+-*/"
  }

  /** This file's OPERATOR_TABLE; it has no entry for exponentiate. */
  function BasicSymbol(op: Op): (r: Option<char>)
    ensures r.Some? ==> IsBasicOperator(r.value) && r.value == Symbol(op)
  {
    match op
    case Add => Some('+')
    case Subtract => Some('-')
    case Multiply => Some('*')
    case Divide => Some('/')
    case Exponentiate => None
  }

  /** This file's OPERATION_TABLE. */
  function BasicOperation(c: char): (r: Option<Op>)
    ensures r.Some? <==> IsBasicOperator(c)
    ensures r.Some? ==> r == Operation(c)
  {
    match c
    case '+' => Some(Add)
    case '-' => Some(Subtract)
    case '*' => Some(Multiply)
    case '/' => Some(Divide)
    case _ => None
  }

  /** This file's PRECEDENCE. */
  function BasicPrecedence(c: char): (r: Option<nat>)
    ensures r.Some? <==> IsBasicOperator(c)
    ensures r.Some? ==> r == Precedence(c)
  {
    match c
    case '+' => Some(1)
    case '-' => Some(1)
    case '*' => Some(2)
    case '/' => Some(2)
    case _ => None
  }

  const Basic: Tables := Tables(IsBasicOperator, BasicPrecedence, BasicOperation)

  /**
   * The draft's tables: its operators are exactly + - * /, each has a precedence
   * and an operation, the symbol and operation tables are inverse, and on these
   * four symbols every table agrees with common.py's.
   */
  lemma BasicTables(c: char, op: Op)
    ensures IsBasicOperator(c) <==> c in {'+', '-', '*', '/'}
    ensures BasicPrecedence(c).Some? <==> IsBasicOperator(c)
    ensures BasicOperation(c).Some? <==> IsBasicOperator(c)
    ensures BasicSymbol(op).Some? <==> op != Exponentiate
    ensures BasicOperation(c) == Some(op) <==> BasicSymbol(op) == Some(c)
    ensures IsBasicOperator(c) ==>
              IsOperator(c) && !IsParen(c) && BasicPrecedence(c) == Precedence(c) && BasicOperation(c) == Operation(c)
    ensures BasicSymbol(op).Some? ==> BasicSymbol(op).value == Symbol(op)
  {
  }

  lemma BasicWellFormed()
    ensures DigitsAreNotOperators(Basic)
    ensures OperatorsRanked(Basic)
  {
  }

  // ----- Tokenising -----

  /** tokenise, with this file's is_operator. */
  method Tokenise(line: string) returns (tokens: seq<string>)
    requires Scannable(DeleteWhitespace(line), Basic)
    ensures tokens == Tokens(DeleteWhitespace(line), Basic)
    ensures IsSplitting(tokens, DeleteWhitespace(line), Basic)
  {
    tokens := Tokeniser.Tokenise(line, Basic);
    BasicWellFormed();
    TokensSplit(DeleteWhitespace(line), Basic);
  }

  /**
   * A '^' or a parenthesis anywhere in the line is neither a digit nor one of
   * this file's operators, so the draft's tokenise never gets past it.
   */
  lemma ExtendedSymbolStalls(line: string, c: char)
    requires c in line && c in "^()"
    ensures !Scannable(DeleteWhitespace(line), Basic)
  {
    DeleteWhitespaceKeepsCharacters(line);
    assert c in multiset(DeleteWhitespace(line));
    var i :| 0 <= i < |DeleteWhitespace(line)| && DeleteWhitespace(line)[i] == c;
    assert !IsDigit(c) && !IsBasicOperator(c);
  }

  /** On a line the draft can tokenise, both tokenisers give the same tokens. */
  lemma {:induction false} TokensAgree(s: string)
    requires Scannable(s, Basic)
    ensures Scannable(s, Extended)
    ensures Tokens(s, Basic) == Tokens(s, Extended)
    decreases |s|
  {
    assert Scannable(s, Extended) by {
      forall i | 0 <= i < |s| ensures IsDigit(s[i]) || IsOperator(s[i]) {
        BasicTables(s[i], Add);
      }
    }
    if s != [] {
      BasicTables(s[0], Add);
      var tok := NextToken(s, Basic);
      assert NextToken(s, Extended) == tok;
      ScannableSuffix(s, |tok|, Basic);
      TokensAgree(s[|tok|..]);
    }
  }

  // ----- Rendering -----

  /** Whether an exponentiation node occurs in the tree. */
  predicate HasPower(e: Expr) {
    match e
    case BinOpApp(op, l, r) => op == Exponentiate || HasPower(l) || HasPower(r)
    case _ => false
  }

  /**
   * str of a node: leaves as in expressions.py, a BinOpApp as "(left) sym (right)"
   * with sym from this file's OPERATOR_TABLE, whose missing entry for
   * exponentiate raises KeyError.
   */
  function Show(e: Expr): (r: Result<string>)
    ensures r.Ok? <==> !HasPower(e)
    ensures r.Err? ==> r.failure == KeyError
  {
    if !e.BinOpApp? then Expressions.Show(e)
    else if BasicSymbol(e.op).None? then Err(KeyError)
    else
      match Show(e.left)
      case Err(f) => Err(f)
      case Ok(left) =>
        match Show(e.right)
        case Err(f) => Err(f)
        case Ok(right) => Ok("(" + left + ") " + [BasicSymbol(e.op).value] + " (" + right + ")")
  }

  /**
   * A rendered operation carries common.py's symbol for its operation between
   * its parenthesised operands; a rendered leaf is expressions.py's text.
   */
  lemma ShowMatchesTables(e: Expr)
    requires !HasPower(e)
    ensures e.BinOpApp? ==>
              Show(e).value == "(" + Show(e.left).value + ") " + [Symbol(e.op)] + " (" + Show(e.right).value + ")"
    ensures !e.BinOpApp? ==> Show(e) == Expressions.Show(e)
  {
    if e.BinOpApp? {
      BasicTables('+', e.op);
    }
  }

  // ----- Parsing -----

  /**
   * The for loop of parse: a numeral pushes a Constant, an operator token is
   * pushed, and any other token is looked up as a variable. Nothing fails and
   * the token list is only read.
   */
  function Push(ts: seq<string>, E: seq<Expr>, O: seq<char>, vars: map<string, int>): (r: (seq<Expr>, seq<char>))
    ensures |E| <= |r.0| && r.0[..|E|] == E
    ensures |O| <= |r.1| && r.1[..|O|] == O
    ensures (|r.0| - |E|) + (|r.1| - |O|) <= |ts|
    ensures forall i :: |O| <= i < |r.1| ==> IsBasicOperator(r.1[i])
    decreases |ts|
  {
    if ts == [] then (E, O)
    else
      var tok := ts[0];
      if IsDigits(tok) then Push(ts[1..], E + [Constant(DigitsValue(tok))], O, vars)
      else if IsOperatorToken(tok, Basic) then Push(ts[1..], E, O + [tok[0]], vars)
      else Push(ts[1..], E + VariableRef(tok, vars), O, vars)
  }

  /**
   * The expressions the draft's loop pushes for ts, in order: the Constant of each
   * numeral and the Variable of each defined name; operator tokens and undefined
   * names push none.
   */
  function Operands(ts: seq<string>, vars: map<string, int>): seq<Expr>
    decreases |ts|
  {
    if ts == [] then []
    else if IsOperatorToken(ts[0], Basic) then Operands(ts[1..], vars)
    else if IsDigits(ts[0]) then [Constant(DigitsValue(ts[0]))] + Operands(ts[1..], vars)
    else VariableRef(ts[0], vars) + Operands(ts[1..], vars)
  }

  /** The operator tokens of ts, in order, "-" included: the draft has no unary minus. */
  function OperatorChars(ts: seq<string>): seq<char>
    decreases |ts|
  {
    if ts == [] then []
    else if IsOperatorToken(ts[0], Basic) then [ts[0][0]] + OperatorChars(ts[1..])
    else OperatorChars(ts[1..])
  }

  /**
   * For every token list, the loop appends exactly the operands of ts to the
   * expression stack and exactly its operator tokens, in order, to the operator stack.
   */
  lemma {:induction false} PushSplits(ts: seq<string>, E: seq<Expr>, O: seq<char>, vars: map<string, int>)
    ensures Push(ts, E, O, vars) == (E + Operands(ts, vars), O + OperatorChars(ts))
    decreases |ts|
  {
    if ts == [] {
      assert E + [] == E && O + [] == O;
    } else {
      var rest := ts[1..];
      var pushed, ops := OperandsStep(ts, vars);
      PushStep(ts, 0, E, O, vars);
      assert ts[0..] == ts;
      PushSplits(rest, E + pushed, O + ops, vars);
      Appended(E, pushed, Operands(rest, vars));
      Appended(O, ops, OperatorChars(rest));
    }
  }

  /** What the first token contributes to each stack. */
  lemma OperandsStep(ts: seq<string>, vars: map<string, int>) returns (pushed: seq<Expr>, ops: seq<char>)
    requires ts != []
    ensures Operands(ts, vars) == pushed + Operands(ts[1..], vars)
    ensures OperatorChars(ts) == ops + OperatorChars(ts[1..])
    ensures IsDigits(ts[0]) ==> pushed == [Constant(DigitsValue(ts[0]))] && ops == []
    ensures !IsDigits(ts[0]) && IsOperatorToken(ts[0], Basic) ==> pushed == [] && ops == [ts[0][0]]
    ensures !IsDigits(ts[0]) && !IsOperatorToken(ts[0], Basic) ==> pushed == VariableRef(ts[0], vars) && ops == []
  {
    var tok := ts[0];
    if IsOperatorToken(tok, Basic) {
      assert !IsDigit(tok[0]);
      pushed, ops := [], [tok[0]];
    } else if IsDigits(tok) {
      pushed, ops := [Constant(DigitsValue(tok))], [];
    } else {
      pushed, ops := VariableRef(tok, vars), [];
    }
  }

  lemma Appended<T>(stack: seq<T>, pushed: seq<T>, rest: seq<T>)
    ensures stack + pushed + rest == stack + (pushed + rest)
  {
  }

  /** What the loop does with the token at i before it goes on to the rest. */
  lemma PushStep(ts: seq<string>, i: nat, E: seq<Expr>, O: seq<char>, vars: map<string, int>)
    requires i < |ts|
    ensures IsDigits(ts[i]) ==>
              Push(ts[i..], E, O, vars) == Push(ts[i + 1..], E + [Constant(DigitsValue(ts[i]))], O, vars)
    ensures !IsDigits(ts[i]) && IsOperatorToken(ts[i], Basic) ==>
              Push(ts[i..], E, O, vars) == Push(ts[i + 1..], E, O + [ts[i][0]], vars)
    ensures !IsDigits(ts[i]) && !IsOperatorToken(ts[i], Basic) ==>
              Push(ts[i..], E, O, vars) == Push(ts[i + 1..], E + VariableRef(ts[i], vars), O, vars)
  {
    assert ts[i..][1..] == ts[i + 1..];
  }

  /** parse: an assignment if "=" is among the tokens, an expression otherwise. */
  function ParseTokens(tokens: seq<string>, vars: map<string, int>): (r: Parsed)
    ensures "=" in tokens ==> r == Parser.ParseTokens(tokens, vars)
    ensures "=" !in tokens ==> r.bindings == vars
  {
    if "=" in tokens then
      match Assigned(tokens, vars)
      case Ok(m) => Parsed(Ok(Assignment("Assignment")), m)
      case Err(f) => Parsed(Err(f), vars)
    else
      var stacks := Push(tokens, [], [], vars);
      Parsed(Reduce(stacks.0, stacks.1, Basic), vars)
  }

  /** perform_expression_parsing: assemble_expression with this file's tables. */
  method PerformExpressionParsing(expressions: List<Expr>, operators: List<char>) returns (outcome: Outcome)
    modifies expressions, operators
    ensures var r := Assemble(old(expressions.items), old(operators.items), Basic);
            if r.Ok?
            then outcome == Pass && expressions.items == r.value && operators.items == []
            else outcome == Fail(r.failure)
  {
    outcome := AssembleExpression(expressions, operators, Basic);
  }

  /** parse; the caller's token list is read and left as it was. */
  method Parse(tokens: List<string>, store: VariableStore) returns (result: Result<Expr>)
    modifies store
    ensures result == ParseTokens(tokens.items, old(store.bindings)).result
    ensures store.bindings == ParseTokens(tokens.items, old(store.bindings)).bindings
  {
    if "=" in tokens.items {
      var outcome := PerformVarAssignment(tokens.items, store);
      if outcome.Fail? {
        return Err(outcome.failure);
      }
      return Ok(Assignment("Assignment"));
    }
    var expressions := new List<Expr>([]);
    var operators := new List<char>([]);
    PushTokens(tokens.items, store, expressions, operators);
    var outcome := PerformExpressionParsing(expressions, operators);
    if outcome.Fail? {
      return Err(outcome.failure);
    }
    if expressions.items == [] {
      return Err(IndexError);
    }
    result := Ok(expressions.items[|expressions.items| - 1]);
  }

  /** The for loop of parse: every token is read once, in order, and the list is left as it was. */
  method PushTokens(ts: seq<string>, store: VariableStore, expressions: List<Expr>, operators: List<char>)
    modifies expressions, operators
    ensures (expressions.items, operators.items) == Push(ts, old(expressions.items), old(operators.items), store.bindings)
  {
    for i := 0 to |ts|
      invariant Push(ts[i..], expressions.items, operators.items, store.bindings)
             == Push(ts, old(expressions.items), old(operators.items), store.bindings)
    {
      var token := ts[i];
      PushStep(ts, i, expressions.items, operators.items, store.bindings);
      if IsDigits(token) {
        expressions.items := expressions.items + [Constant(DigitsValue(token))];
      } else if IsOperatorToken(token, Basic) {
        operators.items := operators.items + [token[0]];
      } else {
        ProcessVariable(token, store, expressions);
      }
    }
    assert ts[|ts|..] == [];
  }

  // ----- Agreement with parser.py -----

  /** Every operator on the stack is one of the draft's four. */
  predicate BasicOperators(O: seq<char>) {
    forall i :: 0 <= i < |O| ==> IsBasicOperator(O[i])
  }

  /** Over the draft's four operators, its reduction and parser.py's build the same trees. */
  lemma {:induction false} BasicReductionAgrees(E: seq<Expr>, O: seq<char>)
    requires BasicOperators(O)
    ensures Assemble(E, O, Basic) == Assemble(E, O, Extended)
    decreases |O|
  {
    if O != [] {
      var n := |O|;
      BasicTables(O[n - 1], Add);
      if n >= 2 {
        BasicTables(O[n - 2], Add);
      }
      var step := AssembleStep(E, O, Basic);
      assert step == AssembleStep(E, O, Extended);
      if step.Ok? {
        var O' := step.value.1;
        assert BasicOperators(O') by {
          if n >= 2 && |E| >= 3 && BasicPrecedence(O[n - 2]).value > BasicPrecedence(O[n - 1]).value {
            assert O' == O[..n - 2] + [O[n - 1]];
          } else {
            assert O' == O[..n - 1];
          }
        }
        BasicReductionAgrees(step.value.0, O');
      }
    }
  }

  /** Operator-numeral pairs with one of the draft's operators and no unary minus. */
  predicate PlainTail(ts: seq<string>)
    decreases |ts|
  {
    ts == [] || (|ts| >= 2 && IsOperatorToken(ts[0], Basic) && IsDigits(ts[1]) && PlainTail(ts[2..]))
  }

  lemma {:induction false} PushPlain(ts: seq<string>, E: seq<Expr>, O: seq<char>, vars: map<string, int>)
    requires PlainTail(ts)
    ensures Classify(Stacks(ts, E, O), vars) == Ok(Stacks([], Push(ts, E, O, vars).0, Push(ts, E, O, vars).1))
    decreases |ts|
  {
    if ts != [] {
      var c := ts[0][0];
      BasicTables(c, Add);
      assert !IsDigit(c);
      var v := Constant(DigitsValue(ts[1]));
      ClassifyNumeralPair(ts, E, O, vars);
      assert ts[1..][1..] == ts[2..];
      assert Push(ts, E, O, vars) == Push(ts[1..], E, O + [c], vars) == Push(ts[2..], E + [v], O + [c], vars);
      PushPlain(ts[2..], E + [v], O + [c], vars);
    }
  }

  /**
   * On an operand followed by operator-numeral pairs with the four basic
   * operators, the draft's parse and parser.py's agree and both succeed.
   */
  lemma DraftAgrees(ts: seq<string>, vars: map<string, int>)
    requires "=" !in ts && ts != [] && FirstOperand(ts[0], vars) && PlainTail(ts[1..])
    ensures ParseTokens(ts, vars) == Parser.ParseTokens(ts, vars)
    ensures ParseTokens(ts, vars).result.Ok?
  {
    var first := FirstExpr(ts[0], vars);
    assert !IsOperatorToken(ts[0], Basic) by {
      if |ts[0]| == 1 {
        BasicTables(ts[0][0], Add);
      }
    }
    assert Push(ts, [], [], vars) == Push(ts[1..], [first], [], vars) by {
      var E0: seq<Expr> := [];
      if IsDigits(ts[0]) {
        assert E0 + [first] == [first];
      } else {
        assert VariableRef(ts[0], vars) == [first];
        assert E0 + VariableRef(ts[0], vars) == [first];
      }
    }
    ClassifyFirst(ts, vars);
    PushPlain(ts[1..], [first], [], vars);
    var stacks := Push(ts, [], [], vars);
    assert BasicOperators(stacks.1);
    BasicReductionAgrees(stacks.0, stacks.1);
    PlainCounts(ts[1..], [first], [], vars);
    assert Ranked(stacks.1, Basic) && Applicable(stacks.1, Basic) by {
      forall i | 0 <= i < |stacks.1| {
        BasicTables(stacks.1[i], Add);
      }
    }
    AssembleSucceedsIff(stacks.0, stacks.1, Basic);
  }

  /** Each pair pushes one operand and one operator. */
  lemma {:induction false} PlainCounts(ts: seq<string>, E: seq<Expr>, O: seq<char>, vars: map<string, int>)
    requires PlainTail(ts)
    ensures |Push(ts, E, O, vars).0| - |E| == |Push(ts, E, O, vars).1| - |O|
    decreases |ts|
  {
    if ts != [] {
      var c := ts[0][0];
      BasicTables(c, Add);
      assert !IsDigit(c);
      var v := Constant(DigitsValue(ts[1]));
      assert ts[1..][1..] == ts[2..];
      assert Push(ts, E, O, vars) == Push(ts[2..], E + [v], O + [c], vars);
      PlainCounts(ts[2..], E + [v], O + [c], vars);
    }
  }
}
