# An integer-expression interpreter, modelled and verified in Dafny

The interpreter reads a line such as `2 + 3*4` and works in three stages:

1. **Tokenising.** It deletes the spaces, then splits what is left into one-character operator tokens and maximal runs of digits.
2. **Parsing.** It parses the tokens into an expression tree:
   - Numerals, variable references and operators go onto an expression stack and an operator stack.
   - An operator followed by `-` and a numeral pushes the negated numeral.
   - A token list that contains `=` binds `tokens[0]` to `int(tokens[2])` in the session's variable store.
   - The stacks are then reduced from the top with a one-operator lookback: when the operator beneath the top one has strictly higher precedence, it is applied first.
3. **Evaluation.** It evaluates the tree.

The repository holds two versions:
- The modular one: `tokeniser.py`, `common.py`, `expressions.py` and `parser.py`.
- An earlier single-file draft, `algebra_interpreter.py`. Its tables have only `+ - * /`, its parse reads the token list without consuming it, and it has no unary minus.

The model has one Dafny module per source file, plus a few support modules.

| module | file | what it holds |
|---|---|---|
| `Outcomes` | `outcomes.dfy` | `Option`, `Result`, and the Python exceptions as a `Failure` value |
| `Builtins` | `builtins.dfy` | the ASCII parts of `str.isdigit`, `int()` and `str()` that the code uses |
| `Common` | `common.dfy` | `common.py`: the operations, the character classes, the symbol/operation tables and the precedence table |
| `Expressions` | `expressions.dfy` | `expressions.py`: the node datatype, `evaluate` and `__str__` |
| `Tokeniser` | `tokeniser.dfy` | `tokeniser.py`: `delete_whitespace`, and `tokenise` as a method with its loop, proved against the function `Tokens` |
| `Lists` | `lists.dfy` | a Python list that several procedures change in place (a class with a `seq` field) |
| `Parser` | `parser.dfy` | `parser.py`: see below |
| `AlgebraInterpreter` | `algebra_interpreter.dfy` | the draft's own tables, `tokenise`, `__str__` and `parse` |
| `Scenarios` | `scenarios.dfy` | worked token lists: what a line tokenises to, the tree the tokens parse to, its value, and the failures |

`parser.dfy` holds:
- the variable store, a class whose map an assignment updates;
- `process_operator`, `process_variable`, `process_constant`, `perform_var_assignment`, `assemble_expression` and `parse`, as methods on those objects;
- the functions `Classify`, `Assemble` and `ParseTokens`, which the methods are proved against.

The tables are a value of type `Common.Tables`:
- `Common.Extended` holds the tables of `common.py`.
- `AlgebraInterpreter.Basic` holds the draft's tables.

The tokeniser and the reduction, which both versions share, take the tables as a parameter.

Evaluation yields an `Evaluation`, which is one of:
- `Int(n)`;
- `NonInteger`, for the Python float that true division or a negative power produces;
- `ZeroDivision`.

Every Python exception the code can raise on malformed input is an explicit `Err` result, so no operation has a precondition that rules out input the source handles. The one exception is the tokeniser: on a character that is neither a digit nor an operator it loops forever. Its precondition is therefore that every non-space character is a digit or an operator.

The tokeniser yields only numerals and operator characters, so no line typed in ever reaches the parser's assignment or variable branches. The model states those branches for token lists handed to `parse` directly, and the worked samples that use them are written as such token lists.

Quirks of the code are stated as they are, not corrected:
- Operators whose precedence does not fall nest to the right: `2-3-4` is `2-(3-4)`.
- The lookback applies the higher operator to the second and third expressions in that order, so `2^3+1` computes `3^2+1`.
- An undefined variable pushes nothing, so the reduction later runs out of operands.
- The draft pushes the `-` of `5+-3` as an operator.
- The code has no case for identifiers, so a letter stalls the tokeniser.

## Model

| member | source | states |
|---|---|---|
| `Builtins.ParseInt` | parser.py:43 | `int(s)` succeeds exactly on a decimal numeral with an optional sign; an unsigned numeral gives a non-negative value |
| `Builtins.IsDigits` | parser.py:85 | `str.isdigit` on ASCII: a non-empty string of the digits 0-9; `ParseInt` accepts exactly these, with an optional sign |
| `Builtins.DigitsValue` | parser.py:71 | the number a digit string denotes; `CanonicalRoundTrip` and `NatToStringIsCanonical` pair it with `str()` |
| `Builtins.IntToString` | expressions.py:28 | `str()` of an int; `IntToStringRoundTrip` proves that `int()` reads it back |
| `Builtins.IntToStringRoundTrip` | expressions.py:27-28 | `int(str(i)) == i` for every integer |
| `Builtins.NatToStringIsCanonical` | expressions.py:27-28 | `str(n)` of a natural number is a numeral without a leading zero, and denotes `n` |
| `Builtins.CanonicalRoundTrip` | expressions.py:27-28 | `str(int(s)) == s` for every numeral without a leading zero |
| `Common.Apply` | common.py:5-23 | an operation yields an integer exactly for `+ - *` and for a power with a non-negative exponent; it raises ZeroDivisionError exactly for division by zero and for zero to a negative power |
| `Common.ArithmeticOperations` | common.py:5-23 | `add`, `subtract` and `multiply` are integer `+ - *`; `exponentiate` with a non-negative exponent is repeated multiplication |
| `Common.PowerAdd` | common.py:21-23 | `a^0 == 1` and `a^(m+n) == a^m * a^n` |
| `Common.IsOperator` | common.py:25-27 | no digit is an operator; `OperatorClasses` gives the seven characters exactly |
| `Common.IsParen` | common.py:29-31 | every parenthesis is an operator |
| `Common.Symbol` | common.py:33-39 | every symbol in `OPERATOR_TABLE` is an operator other than a parenthesis |
| `Common.Operation` | common.py:41-47 | only an operator other than a parenthesis has an operation; `TablesInverse` gives the converse |
| `Common.Precedence` | common.py:49-58 | only an operator character has a precedence; `PrecedenceOrder` gives the converse |
| `Common.OperatorClasses` | common.py:25-31 | `is_operator` holds for exactly `+ - * / ^ ( )`; every parenthesis is an operator; no digit is an operator |
| `Common.TablesInverse` | common.py:33-47 | `OPERATOR_TABLE` and `OPERATION_TABLE` are inverse to each other, and the symbols with an operation are exactly the operators that are not parentheses |
| `Common.PrecedenceOrder` | common.py:49-58 | `PRECEDENCE` is defined on exactly the seven operator characters, ordered `( < + = - < * = / < ^ < )` |
| `Common.ExtendedWellFormed` | common.py:25-58 | no digit is an operator character, and every operator character has a precedence |
| `Expressions.EvaluateNodes` | expressions.py:21-70 | a Constant or Variable evaluates to its stored value, whatever the name; `Assignment(n)` evaluates to `len(n)`, so 10 for `Assignment('Assignment')`; a BinOpApp applies its operation to the left value, then the right |
| `Expressions.RingTreeEvaluates` | expressions.py:21-70 | a tree built with `+ - *` only evaluates to its ordinary integer value |
| `Expressions.ZeroDivisionHasSource` | expressions.py:64-70 | in the model, a ZeroDivision comes only from a node that divides by an integer zero or raises zero to a negative power (a float divisor of zero is not tracked: see `Expressions.Evaluate` under Left out) |
| `Expressions.Evaluate` | expressions.py:24-70 | `evaluate()`; it has no contract of its own, and `EvaluateNodes`, `RingTreeEvaluates` and `ZeroDivisionHasSource` state what it computes |
| `Expressions.Show` | expressions.py:27-76 | `__str__` succeeds for every node except BinOpApp, whose lookup of an undefined table raises NameError |
| `Expressions.ShowConstantRoundTrip` | expressions.py:27-28 | the text of `Constant(v)` is `Constant: ` followed by a numeral that `int()` reads back as `v` |
| `Expressions.ShowVariable` | expressions.py:44-45 | the text of a Variable is `Variable: ` and its name, and does not depend on its value |
| `Tokeniser.DeleteWhitespace` | tokeniser.py:7-8 | the result has no space; it is no longer than the line; a line without spaces is returned as it is |
| `Tokeniser.DeleteWhitespaceKeepsCharacters` | tokeniser.py:7-8 | exactly the spaces are removed: every other character keeps its count |
| `Tokeniser.DeleteWhitespaceAppend` | tokeniser.py:7-8 | deleting spaces commutes with joining, so the characters that are kept keep their order |
| `Tokeniser.DeleteWhitespaceIdempotent` | tokeniser.py:7-8 | deleting spaces twice is deleting them once |
| `Tokeniser.InsertedSpaceIgnored` | tokeniser.py:13 | a space inserted anywhere in the line, even inside a number, leaves the space-free line and therefore the tokens unchanged |
| `Tokeniser.SpacesInsideNumber` | tokeniser.py:13-27 | `"1 2"` becomes `"12"`, which is the single token `"12"` |
| `Tokeniser.StallsOnOtherCharacter` | tokeniser.py:15-27 | at a character that is neither a digit nor an operator, the token is `''` and the cursor does not move |
| `Tokeniser.DigitRun` | tokeniser.py:22-24 | the length of the digit run at the start of a string: every character before it is a digit, and the one at it is not |
| `Tokeniser.NextToken` | tokeniser.py:16-27 | the token one pass of the outer loop appends is a prefix of the rest of the line, and it is empty exactly at a character that is neither a digit nor an operator, where the loop stalls |
| `Tokeniser.Tokens` | tokeniser.py:15-27 | the tokens of a line of digits and operators concatenate back to the line |
| `Tokeniser.Tokenise` | tokeniser.py:10-29 | when every character is a digit or an operator, `tokenise` terminates (measure `len(line) - i`) and returns exactly `Tokens` of the space-free line |
| `Tokeniser.SkipDigits` | tokeniser.py:22-24 | the inner loop stops at the first non-digit at or after `i`, and every character it passed is a digit |
| `Tokeniser.TokensSplit` | tokeniser.py:15-27 | the tokens concatenate to the space-free line; each token is one operator character or a non-empty run of digits; no two digit runs are adjacent |
| `Tokeniser.TokensUnique` | tokeniser.py:10-29 | any splitting of the line into operator tokens and maximal digit runs is the token list, so the tokens are determined by the line |
| `Tokeniser.NextTokenIsRun` | tokeniser.py:22-26 | at a non-operator, the run the inner loop finds is non-empty and is the token appended |
| `Tokeniser.OperatorAt` | tokeniser.py:17-20 | at an operator character, the token is that character alone |
| `Lists.List.constructor` | parser.py:76-77 | a new list holds the given items |
| `Parser.VariableStore.constructor` | algebra_interpreter.py:207 | a new store is empty |
| `Parser.Assigned` | parser.py:38-44 | `name = value` binds `tokens[0]` to `int(tokens[2])` and changes no other entry; IndexError when there is no `tokens[2]`, ValueError when `int()` rejects it |
| `Parser.PerformVarAssignment` | parser.py:38-44 | the store becomes `Assigned`'s map on success and is unchanged on failure |
| `Parser.VariableRef` | parser.py:46-51 | a defined name pushes exactly `Variable(name, vars[name])`, and an undefined one pushes nothing |
| `Parser.ProcessVariable` | parser.py:46-51 | the expression stack grows by the variable's current value, or stays as it was for an undefined name |
| `Parser.ProcessConstant` | parser.py:70-71 | the numeral's value is pushed |
| `Parser.OperatorStep` | parser.py:53-68 | before a numeral only the operator is pushed; before `-` and a numeral the operator and the negated numeral are pushed and both tokens consumed; a missing next token, or a missing token after `-`, raises IndexError; any other next token, or a non-numeral after `-`, fails the assertion |
| `Parser.ProcessOperator` | parser.py:53-68 | the three lists become `OperatorStep`'s stacks, or on failure the matching exception is raised and nothing changes |
| `Parser.Classify` | parser.py:83-90 | a successful token loop consumes every token |
| `Parser.ClassifyNumeralPair` | parser.py:53-58 | an operator then a numeral pushes the operator and then the constant, and consumes both tokens |
| `Parser.ClassifyNegatedPair` | parser.py:60-68 | an operator, `-` and a numeral push the operator and the negated constant, and consume all three tokens |
| `Parser.ClassifyTail` | parser.py:83-90 | operator-numeral pairs push their operands and their operators in order, and the loop succeeds |
| `Parser.ClassifyFirst` | parser.py:83-90 | a leading numeral or defined name is pushed as the first expression |
| `Parser.AssembleStep` | parser.py:16-36 | each pass of the reduction removes one expression and one operator |
| `Parser.Assemble` | parser.py:16-36 | a successful reduction keeps `len(expressions) - len(operators)` |
| `Parser.StepLookback` | parser.py:21-33 | when the operator beneath has strictly higher precedence, it is applied to the second and third expressions (second on the left), and the popped operator and top expression go back |
| `Parser.StepPlain` | parser.py:35-36 | otherwise the top operator is applied to the second and the top expression |
| `Parser.AssembleExpression` | parser.py:10-36 | the stacks become `Assemble`'s result with the operator stack empty, or the exception `Assemble` reports is raised |
| `Parser.AssembleSucceedsIff` | parser.py:16-36 | with one more expression than operators, the reduction ends with exactly one expression, and fails (KeyError) exactly when some operator has no operation, as a parenthesis has none |
| `Parser.RightNesting` | parser.py:16-36 | when precedence never falls from the bottom to the top of the stack, every operator takes everything to its right: `2-3-4` is `2-(3-4)` |
| `Parser.LookbackSwapsOperands` | parser.py:21-36 | with a higher operator beneath a lower one, the result is `low(high(b, a), c)`: the higher operator's operands come out swapped |
| `Parser.ParseTokens` | parser.py:74-93 | a line with `=` is an assignment, whose result and store follow `Assigned`; any other line leaves the store unchanged |
| `Parser.Reduce` | parser.py:92-93 | an exception of the reduction is passed on; after a successful reduction the final pop raises IndexError exactly when there were no more expressions than operators, and with one more it returns the single expression left |
| `Parser.Parse` | parser.py:74-93 | `parse` returns `ParseTokens`'s result and leaves its store; an assignment leaves the token list alone, and a token loop that finishes empties it |
| `Parser.ParseInfixReduces` | parser.py:74-93 | an operand followed by operator-numeral pairs reduces exactly the operands and operators it pushed |
| `Parser.ParseInfix` | parser.py:74-93 | such a line parses, unless one of its operators is a parenthesis, which raises KeyError |
| `AlgebraInterpreter.BasicTables` | algebra_interpreter.py:72-113 | the draft's operators are exactly `+ - * /`; each has a precedence and an operation; its two symbol tables are inverse and lack exponentiate; on its four symbols every table agrees with `common.py` |
| `AlgebraInterpreter.BasicWellFormed` | algebra_interpreter.py:86-113 | no digit is one of the draft's operators, and each of them has a precedence |
| `AlgebraInterpreter.IsBasicOperator` | algebra_interpreter.py:111-113 | each of the draft's operators is one of `common.py`'s, and not a parenthesis |
| `AlgebraInterpreter.BasicSymbol` | algebra_interpreter.py:72-77 | each symbol in the draft's `OPERATOR_TABLE` is one of its operators and is `common.py`'s symbol for that operation |
| `AlgebraInterpreter.BasicOperation` | algebra_interpreter.py:79-84 | the draft's `OPERATION_TABLE` is defined exactly on its operators, where it agrees with `common.py`'s |
| `AlgebraInterpreter.BasicPrecedence` | algebra_interpreter.py:86-91 | the draft's `PRECEDENCE` is defined exactly on its operators, where it agrees with `common.py`'s |
| `AlgebraInterpreter.Tokenise` | algebra_interpreter.py:120-138 | under the same precondition, the draft's tokens are `Tokens` with its tables, concatenate back to the space-free line, and are operator tokens or maximal digit runs |
| `AlgebraInterpreter.ExtendedSymbolStalls` | algebra_interpreter.py:111-138 | a `^` or a parenthesis anywhere in the line stalls the draft's tokeniser |
| `AlgebraInterpreter.TokensAgree` | algebra_interpreter.py:120-138 | on a line the draft can tokenise, it gives the same tokens as `tokeniser.py` |
| `AlgebraInterpreter.Show` | algebra_interpreter.py:26-109 | `__str__` succeeds exactly on trees without exponentiation; otherwise the table lookup raises KeyError |
| `AlgebraInterpreter.ShowMatchesTables` | algebra_interpreter.py:72-109 | a rendered operation is `(left) sym (right)` with `common.py`'s symbol for its operation; a leaf renders as in `expressions.py` |
| `AlgebraInterpreter.Push` | algebra_interpreter.py:192-198 | the token loop only appends to both stacks, pushes at most one item per token, and every operator it pushes is one of the four |
| `AlgebraInterpreter.PushSplits` | algebra_interpreter.py:192-198 | for every token list, the loop appends the Constant of each numeral and the Variable of each defined name to the expression stack, and every operator token, `-` included, in order, to the operator stack |
| `AlgebraInterpreter.PushTokens` | algebra_interpreter.py:192-198 | the for loop leaves the two stacks as `Push` says, reading each token once, in order |
| `AlgebraInterpreter.PlainCounts` | algebra_interpreter.py:192-198 | each operator-numeral pair pushes one operand and one operator |
| `AlgebraInterpreter.ParseTokens` | algebra_interpreter.py:183-201 | with `=` the draft's parse is `parser.py`'s assignment; otherwise the store is unchanged |
| `AlgebraInterpreter.PerformExpressionParsing` | algebra_interpreter.py:148-174 | the stacks become the reduction's result under the draft's tables |
| `AlgebraInterpreter.Parse` | algebra_interpreter.py:183-201 | `parse` returns `ParseTokens`'s result and leaves its store; the token list is not modified |
| `AlgebraInterpreter.BasicReductionAgrees` | algebra_interpreter.py:148-174 | over the four basic operators, the draft's reduction builds the same trees as `parser.py`'s |
| `AlgebraInterpreter.PushPlain` | algebra_interpreter.py:192-198 | on operator-numeral pairs the draft's loop pushes what `parser.py`'s loop pushes |
| `AlgebraInterpreter.DraftAgrees` | algebra_interpreter.py:183-201 | on an operand followed by operator-numeral pairs with the four operators, both parses succeed and agree |
| `Scenarios.TokeniseSample` | tokeniser.py:10-29 | `2+3*4` tokenises to `2 + 3 * 4` |
| `Scenarios.NamesDoNotTokenise` | tokeniser.py:15-27 | `x+1` and `7=7` cannot be tokenised |
| `Scenarios.TwoPairShape` | parser.py:83-90 | the tokens of a numeral and two operator-numeral pairs push their three constants and their two operators |
| `Scenarios.PrecedenceSample` | parser.py:16-36 | `2+3*4` evaluates to 14 |
| `Scenarios.PrecedenceTree` | parser.py:16-36 | `2+3*4` reduces to `2+(3*4)` |
| `Scenarios.MixedPrecedenceSample` | parser.py:16-36 | `2*3+4*5` evaluates to 26 |
| `Scenarios.MixedPrecedenceTree` | parser.py:21-36 | `2*3+4*5` reduces to `(3*2)+(4*5)`: the lookback swaps the lower product |
| `Scenarios.RightNestingSample` | parser.py:16-36 | `2-3-4` evaluates to 3 |
| `Scenarios.RightNestingTree` | parser.py:16-36 | `2-3-4` reduces to `2-(3-4)` |
| `Scenarios.SwappedPowerSample` | parser.py:21-33 | `2^3+1` evaluates to 10 |
| `Scenarios.SwappedPowerTree` | parser.py:21-33 | `2^3+1` reduces to `(3^2)+1` |
| `Scenarios.SwappedDivisionSample` | parser.py:21-33 | `6/3+1` is not an integer |
| `Scenarios.SwappedDivisionTree` | parser.py:21-33 | `6/3+1` reduces to `(3/6)+1` |
| `Scenarios.SingleTree` | parser.py:35-36 | one operator applies to the two operands in order |
| `Scenarios.UnaryMinusSample` | parser.py:60-68 | `5+-3` evaluates to 2 |
| `Scenarios.DivisionSample` | common.py:13-15 | `4/0` parses, and its evaluation raises ZeroDivisionError |
| `Scenarios.AssignmentBinds` | parser.py:38-81 | the tokens `x`, `=`, `7` bind x to 7 and return the Assignment node |
| `Scenarios.VariableSample` | parser.py:46-51 | with x bound to 7, the tokens `x`, `+`, `1` evaluate to 8 |
| `Scenarios.AssignmentSample` | parser.py:74-93 | after the tokens `x`, `=`, `7`, the tokens `x`, `+`, `1` evaluate to 8 |
| `Scenarios.AssignmentFailureSamples` | parser.py:42-43 | the tokens `x`, `=`, `y` raise ValueError and the tokens `x`, `=` raise IndexError, and neither changes the store |
| `Scenarios.ClassifyUndefined` | parser.py:46-50 | an undefined name pushes nothing |
| `Scenarios.ClassifyNumeral` | parser.py:85-86 | a numeral pushes its constant |
| `Scenarios.UndefinedStacks` | parser.py:46-90 | the tokens `y`, `+`, `1` with y undefined leave one expression and one operator |
| `Scenarios.UndefinedVariableSample` | parser.py:16-19 | the tokens `y`, `+`, `1` with y undefined raise IndexError |
| `Scenarios.OperatorAdjacencySample` | parser.py:57-61 | the tokens `1`, `+`, `x` fail the assertion, even with x bound |
| `Scenarios.TrailingOperatorSample` | parser.py:55 | `1+` raises IndexError |
| `Scenarios.EmptyLineSample` | parser.py:92-93 | an empty line raises IndexError |
| `Scenarios.DraftStacksSample` | algebra_interpreter.py:192-198 | the draft pushes `5 3` and `+ -` for `5+-3` |
| `Scenarios.DraftUnaryMinusSample` | algebra_interpreter.py:154-174 | the draft's `5+-3` runs out of operands: IndexError |
| `Scenarios.DraftPrecedenceSample` | algebra_interpreter.py:159-173 | the draft evaluates `2+3*4` to 14 |
| `Scenarios.DraftShowSample` | algebra_interpreter.py:105-109 | the draft renders `1 + x` as `(Constant: 1) + (Variable: x)`, and a power raises KeyError |

## Left out

- Terminal input, the driver loop and its printing (`get_line_input`, `main`) are not modelled. The diagnostic prints in `process_variable` and `append_variable` are no-ops.
- Expressions.Evaluate: the value of a Python float is not tracked. Once a float appears, any result that is not a ZeroDivisionError is `NonInteger`. In particular a float divided by zero gives `NonInteger` here, where Python raises ZeroDivisionError.
- Common.Apply: Python raises OverflowError where converting to a float overflows, and the model gives `NonInteger` there. One case is a true division whose operands or quotient lie beyond the float range, such as `10**400 / 1`. The other is a negative power whose base or exponent cannot be converted to a float, such as `2 ** -(10**400)`.
- Builtins.ParseInt and Builtins.IntToString: CPython refuses to convert integers of more than 4300 digits to or from text (a ValueError in `int()` at parser.py:43 and parser.py:71, and in `str()` at expressions.py:28). The model has no such limit.
- Expressions.Evaluate and Expressions.Show: trees deeper than CPython's recursion limit make `evaluate` and `__str__` raise RecursionError. The model has no depth limit.
- Builtins.ParseInt: only ASCII digits and an optional sign are read. The surrounding whitespace, underscores and non-ASCII digits that Python's `int()` accepts are not.
- Tokeniser.Tokenise: the precondition leaves out the inputs on which the loop runs forever. `Tokeniser.StallsOnOtherCharacter` shows why they never finish.
- Tokeniser.SkipDigits: the inner `pointer` loop of `tokenise` is a method of its own, called from the outer loop.
- Parentheses are operators without an operation, so parsing a line with one raises KeyError (`Parser.ParseInfix`). No grouping is modelled, since the code has none.
- The abstract `Expr` base class and the `__repr__` of `Constant` are not modelled. The base class's methods are never called on a node, and `__repr__` returns `__str__`.
- Parser.AssembleExpression: on failure the model says nothing about the stacks. It writes them back once per pass, whereas Python leaves them partly popped.
- Parser.Parse: after an exception in the token loop, the model says nothing about the token list.
- The operator stack holds characters rather than one-character strings.
- The draft's `perform_var_assignment` and `append_variable` are the parser's `perform_var_assignment` and `process_variable` line for line, and the model reuses those methods.
- The draft's `tokenise` is `tokeniser.py`'s loop with its own `is_operator`. The model reuses `Tokeniser.Tokenise` with the draft's tables.
