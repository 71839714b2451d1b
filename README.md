# Postfix calculator evaluator — Dafny model

This project models the core of a small web calculator for postfix (Reverse
Polish Notation) expressions, all of which lives in `main.go`:

- the `Stack` type, a last-in-first-out slice of values changed in place by
  `Push` and `Pop` (module `PostfixStack`, a class whose `items` field is a
  sequence);
- the token validators `isOperator`, `isContainsAlphabet` and `count`,
  together with splitting the submitted expression on single spaces and
  trimming white space (module `Tokens`);
- the evaluation loop of the `calculate` handler: numbers are pushed; any
  other token pops the top value (`val1`) and the value below it (`val2`)
  and, for the four operators, pushes `val2 OP val1` (module `Evaluator`,
  as a step-by-step specification over the list of stacked values);
- the handler itself without its HTTP plumbing: the fixed-order validation
  chain, the evaluation loop run on a `Stack` object, and the final pop
  (module `Calculator`: `Validate`, `Evaluate` and `Calc` specify it;
  `CheckExpression`, `EvaluateTokens` and `Calculate` are the imperative
  versions proved equal to them).

The number syntax and the arithmetic are left abstract. `isNum`, `toFloat`,
the zero value and the four float64 operators are fields of an
`Arithmetic<V>` value over an arbitrary value type `V`. The only facts
assumed about the float parser are the ones the calculator relies on: the
empty token and the four operator symbols are not numbers (`Sound`). Every
property below holds for every such parser and every value type.
Module `DigitExamples` gives one concrete instance: decimal-digit tokens
valued as reals. It is used to state worked examples, such as `3 4 +`
evaluating to 7.

Behaviour worth knowing, as the code has it:

- `1 2 + +` is rejected by the `count` check ("EKSPRESI SALAH"), not during
  evaluation: it has two numbers and two operators.
- Passing `count` is necessary for a value but not sufficient: the
  counts ignore the order of the tokens. `1 2 + + 3 3 +` has four numbers
  and three operators and no other token, passes every check, and ends
  with "stack kosong" at its second `+`.
- "Ups Stacknya Kosong" after validation needs a token that is neither a
  number nor an operator. The first two tokens are numbers, and an
  operator takes two values and leaves one, so numbers and operators alone
  can leave one value but never none. An empty token, made by two adjacent
  spaces, pops two values and pushes nothing (the `switch` has no default
  case). So `1 2  +` ends with "Ups Stacknya Kosong", and `1 2  3 + +`
  with "stack kosong".
- When the expression has no space, the letter check is never reached. A
  lone token that the float parser accepts is echoed even if it contains
  letters (`1e5`, `Inf`).
- The counting invariant: a run without underflow changes the stack height by
  (numbers − operators − 2 × other tokens). So when `count` passes and
  nothing underflows, exactly one value is left and the final
  `*stack.Pop()` never dereferences nil.

## Model

| member | source | states |
|---|---|---|
| `PostfixStack.Stack.constructor` | main.go:14-17 | the zero `Stack{}` holds no items |
| `PostfixStack.Stack.Size` | main.go:39-43 | the size is the length of the item list `All` returns; reading it changes nothing |
| `PostfixStack.Stack.All` | main.go:45-49 | returns the items, bottom first, element for element; changes nothing |
| `PostfixStack.Stack.IsEmpty` | main.go:51-55 | true exactly when `Size` is 0; changes nothing |
| `PostfixStack.Stack.Push` | main.go:19-26 | appends the item: the size grows by one, the new top is the item, every earlier item is unchanged |
| `PostfixStack.Stack.Pop` | main.go:28-37 | on an empty stack returns `None` and changes nothing; otherwise returns the last item and removes exactly that item |
| `PostfixStack.PushThenPop` | main.go:19-37 | a push followed by a pop returns the pushed item and restores the previous contents |
| `Tokens.Split` | main.go:89 | splitting always yields at least one token, so `elements[0]` exists |
| `Tokens.JoinSplit` | main.go:89 | joining the tokens with single spaces gives the expression back |
| `Tokens.SplitHasNoSpaces` | main.go:89 | no token contains a space |
| `Tokens.SplitJoin` | main.go:89 | splitting the join of space-free tokens gives the same tokens (split and join are inverse) |
| `Tokens.SplitSingle` | main.go:89-90 | fewer than two tokens exactly when the expression has no space, and then the one token is the whole expression |
| `Tokens.IsOperator` | main.go:216-218 | true exactly for the one-character tokens `+`, `-`, `*` and `/` |
| `Tokens.OperatorIsNotNumber` | main.go:209-218 | under a sound parser an operator token is never numeric, so no token is counted both ways |
| `Tokens.IsLetterAlphabet` | main.go:222-224 | the letter test is membership of the lower-cased character in `a`..`z`, true exactly for ASCII letters of either case |
| `Tokens.IsLetter` | main.go:222-224 | true exactly for the ASCII letters `a`..`z` and `A`..`Z` |
| `Tokens.HasLetter` | main.go:220-229 | true exactly when some character of the string is an ASCII letter |
| `Tokens.TrimLeft` | main.go:221 | only leading white space is removed: the result is a suffix of the input, every removed character is white space, and the result does not start with white space |
| `Tokens.TrimRight` | main.go:221 | only trailing white space is removed: the result is a prefix of the input, every removed character is white space, and the result does not end with white space |
| `Tokens.TrimSpaceRemovesOnlySpace` | main.go:221 | trimming both ends leaves a contiguous slice of the input; everything before and after it is white space, and the slice neither starts nor ends with white space |
| `Tokens.TrimSpaceKeepsLetters` | main.go:220-229 | trimming never changes whether the string contains a letter |
| `Tokens.ContainsAlphabet` | main.go:220-229 | the scan with early return answers true exactly when some character of the untrimmed string is a letter |
| `Tokens.Numbers` | main.go:231-245 | the count of numeric tokens is at most the number of tokens |
| `Tokens.Operators` | main.go:231-245 | the count of operator tokens is at most the number of tokens |
| `Tokens.CountsZeroOrAll` | main.go:231-245 | a count is 0 exactly when no token is of its kind, and equals the length exactly when every token is |
| `Tokens.CountsAppend` | main.go:231-245 | the number, operator and other-token counts add up over concatenation |
| `Tokens.CountsPartition` | main.go:231-245 | under a sound parser every token is counted exactly once, as number, operator or other |
| `Tokens.Count` | main.go:231-245 | the counting loop returns true exactly when numbers minus operators is 1 |
| `Evaluator.Apply` | main.go:181-190 | the switch yields a result exactly for the four operator tokens |
| `Evaluator.Step` | main.go:159-190 | a number is pushed; any other token halts exactly when fewer than two values are stacked, with "Ups Stacknya Kosong" on an empty stack and "stack kosong" on a single value |
| `Evaluator.Run` | main.go:158-192 | evaluation of a token list stops only with "Ups Stacknya Kosong" or "stack kosong" |
| `Evaluator.OperandOrder` | main.go:170-190 | on an operator the second value from the top is the left operand and the top the right one; another non-numeric token drops both and pushes nothing |
| `Evaluator.RunAppend` | main.go:158-192 | evaluation is sequential, and after an underflow no later token is evaluated |
| `Evaluator.RunSize` | main.go:158-192 | counting invariant: a run without underflow changes the height by numbers − operators − 2 × others |
| `Evaluator.NoUnderflowIff` | main.go:158-192 | evaluation runs to the end exactly when, before every non-numeric token, the counted height is at least two |
| `Evaluator.FinalStackSingle` | main.go:157-195 | when `count` passes and nothing underflows, exactly one value remains and there are no other tokens |
| `Evaluator.StackEmptyNeedsOtherToken` | main.go:158-168 | from a non-empty stack, tokens that are all numbers or operators never end with "Ups Stacknya Kosong" |
| `Calculator.Validate` | main.go:89-155 | the chain lets an expression through exactly when it has two or more tokens, the first two numbers, the last an operator, no letter, and numbers minus operators equal to 1; it never reports a computed value |
| `Calculator.Evaluate` | main.go:157-195 | a value exactly when evaluation runs to its end; otherwise one of the two stack messages; never an echo |
| `Calculator.Calc` | main.go:88-199 | success exactly for a lone non-zero number, or for an expression that passes every check and is evaluated to its end |
| `Calculator.CheckExpression` | main.go:89-155 | the validation chain, with the `isContainsAlphabet` and `count` loops, returns the outcome of the first failing check or none |
| `Calculator.PushResult` | main.go:181-190 | the operator switch pushes `left OP right` for the four operators and leaves the stack unchanged for any other token |
| `Calculator.EvaluateTokens` | main.go:157-199 | the loop on a `Stack` and the final pop give the specified underflow message or value |
| `Calculator.Calculate` | main.go:88-199 | the handler's outcome is that of its specification `Calc` |
| `Calculator.ValidateFirstFailingCheck` | main.go:117-155 | with a space there are at least two tokens, and each check's message is reported exactly when that check fails and every earlier one passes, in the order first two tokens numeric, last token an operator, no letter, `count` |
| `Calculator.CalcLoneToken` | main.go:90-115 | without a space: a non-number is rejected first, then a zero value, otherwise the expression is echoed unchanged |
| `Calculator.CalcEchoMeansLoneNumber` | main.go:90-115 | only a lone non-zero number is echoed, exactly as typed |
| `Calculator.CalcRejectsLetters` | main.go:117-147 | an expression with a space and a letter never succeeds |
| `Calculator.CalcSuccessIff` | main.go:88-199 | success exactly for a lone non-zero number, or for an expression that passes every check and never meets a stack of fewer than two values before a non-numeric token |
| `Calculator.CalcFailureMessages` | main.go:88-195 | every failure carries one of the eight messages of the handler |
| `Calculator.CalcValueSound` | main.go:117-195 | a computed value means every check passed, there are no empty tokens, nothing underflowed, and the value is the single value left |
| `Calculator.CalcValueComplete` | main.go:117-195 | an expression that passes every check and never underflows evaluates to a value |
| `Calculator.CalcUnderflow` | main.go:157-179 | a valid expression that underflows fails with one of the two stack messages |
| `Calculator.CalcStackEmptyNeedsOtherToken` | main.go:117-168 | "Ups Stacknya Kosong" is reported only for an expression with a token that is neither a number nor an operator |
| `DigitExamples.Digits` | main.go:204-214 | the digit-only parser is sound: the empty token and the operators are not numbers |
| `DigitExamples.AddExample` | main.go:182-183 | `3 4 +` evaluates to 7 |
| `DigitExamples.SubtractExample` | main.go:184-185 | `5 1 -` evaluates to 4 |
| `DigitExamples.MultiplyExample` | main.go:186-187 | `2 3 *` evaluates to 6 |
| `DigitExamples.DivideExample` | main.go:188-189 | `10 2 /` evaluates to 5 |
| `DigitExamples.SurplusOperatorExample` | main.go:149-155 | `1 2 + +` is rejected by the count check |
| `DigitExamples.DoubledSpaceExample` | main.go:162-168 | `1 2  +` fails with "Ups Stacknya Kosong" |
| `DigitExamples.SingleValueLeftExample` | main.go:172-178 | `1 2  3 + +` fails with "stack kosong" |
| `DigitExamples.EarlyOperatorExample` | main.go:149-178 | `1 2 + + 3 3 +` has only numbers and operators, passes the count check, and fails with "stack kosong" |
| `DigitExamples.LoneTokenExamples` | main.go:90-114 | `7` is echoed, `0` is rejected as zero, the empty expression as not a number |
| `DigitExamples.SecondTokenExample` | main.go:125-131 | `1 + 2` is rejected because its second token is not a number |
| `DigitExamples.LastTokenExample` | main.go:133-139 | `1 2 3` is rejected because its last token is not an operator |
| `DigitExamples.LetterExample` | main.go:141-155 | `1 2 a + +`, which would also fail the count check, is rejected for its letter |

## Left out

- HTTP handling and templates: `main`, `home`, the method check, form parsing and every `tmpl.Execute` error path are I/O plumbing. The handler is modelled from the submitted expression to the outcome it renders.
- The `sync.RWMutex` in `Stack` only guards concurrent access and does not affect sequential behaviour. The nil-slice initialisation in `Push` is left out too, because an empty sequence serves.
- IEEE-754 float64 arithmetic (rounding, infinities and NaN from division by zero). The value type and the four operators are parameters. The digit instance divides by zero to 0, which stands for nothing in the source.
- The grammar of `strconv.ParseFloat` behind `isNum`/`toFloat` (exponents, `Inf`, `NaN`, signs). These are parameters, and only the `Sound` facts are assumed about them.
- `fmt.Sprint` formatting of the result: a computed result is the value, not its text.
- Tokens.ContainsAlphabet: lower-cases ASCII only, while `strings.ToLower` in the source turns some non-ASCII characters into ASCII letters (the Kelvin sign becomes `k`). `strings.TrimSpace` is modelled for Latin-1 white space only. Trimming never changes the result (`Tokens.TrimSpaceKeepsLetters`).
- Aliasing of the slice that `All` returns: it is modelled as returning the item sequence.
- The nil dereference in the final `*stack.Pop()`: it is proved unreachable, so there is no crash outcome.
- The evaluation loop and the validation chain are inline in the handler. Here they are two methods, `CheckExpression` and `EvaluateTokens`, that `Calculate` calls in the same order.
- Tokens.Numbers, Tokens.Operators: their own contracts state only that a count is at most the number of tokens. Which tokens they count is stated by `Tokens.CountsZeroOrAll` and `Tokens.CountsPartition`, because a quantified postcondition on the count functions themselves burdens every proof that mentions a count.
- Evaluator.Step: its own contract gives the pushed stack for a number and when and how it halts. The stack it leaves after a non-numeric token is stated by `Evaluator.OperandOrder`, for the same reason.
