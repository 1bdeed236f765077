# Basic calculator: the click-handler state machine

This project models the calculator component of the basic-calculator
repository: the seven state cells of the component (`currentValue`,
`operator`, `inputValue`, `waitingForOperand`, `displayExpression`,
`history`, `showHistory`) and the seven click handlers that update them
(`handleNumberClick`, `handleDecimalClick`, `handleOperatorClick`,
`handleEqualsClick`, `handleClearClick`, `handleClearAllClick`,
`viewHistory`). Each handler is one atomic transition: it reads the cells as
they were when the click arrived and then overwrites some of them.

Modules:

- `Values` (values.dfy): JavaScript numbers as `Num` (finite, infinite or
  NaN), the operators and their symbols `+ - × ÷`, keypad digits, `x || 0`
  as `OrZero`, and `Arith`, which bundles the three number primitives the
  handlers call: `parse` (parseFloat), `show` (number to string) and
  `apply` (the four arithmetic operators). These are left uninterpreted:
  they are given to the calculator when it is built, and every lemma holds
  for all of them.
- `Transitions` (transitions.dfy): the state as a datatype, one pure function
  per handler, `Step` for one button press and `Run` for a sequence of them.
- `Engine` (engine.dfy): the class `Calculator` with the seven cells as
  fields and one `modifies this` method per handler, written as the handler
  is (locals for the values read, then field-by-field writes); each method's
  contract says its new state is the matching transition of its old state.
- `Properties` (properties.dfy): what the handlers guarantee, over one click
  and over any sequence of clicks.
- `Scenarios` (scenarios.dfy): click sequences run on a `Calculator`
  object, with the display and history they produce derived from stated
  values of parseFloat, toString and the arithmetic.

Behaviour the model pins down, all as the code is written:

- The zero sentinel is kept: the first-operator branch tests
  `currentValue == 0`, not "no operator". Proved consequence
  (`DefensiveBranchUnreachable`): from the initial state, "no operator
  pending" always comes with `currentValue == 0`, so the last branch of the
  operator handler (src/App.js:80-83) never runs. Another consequence
  (`ZeroIntermediateResult`): when a chained operation yields 0, the next
  operator press treats the typed operand as a new first operand and the
  pending operation is neither evaluated nor logged.
- The test `currentValue !== null` in the equals handler is always true,
  because `currentValue` is never set to null, so equals depends on
  `operator` only.
- `currentValue || 0` (src/App.js:55, src/App.js:94) also turns NaN into 0:
  a NaN left operand is shown as `NaN` on the display but logged as 0
  (`FalsyLeftOperandLoggedAsZero`).
- The decimal guard looks at the buffer even while a fresh operand is
  awaited, so after a result such as `4.5` the '.' button does nothing
  (`DecimalIgnoredAfterResult`, `DivisionThenDecimal`).
- The buffer is a well-formed typed number (digits, at most one '.', no
  superfluous leading zero) whenever no fresh operand is awaited; after an
  operator chain or equals it holds the result's text, which may be
  `Infinity` or `NaN`, until the next digit or '.' replaces it.
- Clear-all empties the history but, like clear, leaves `showHistory` as it
  is: the comment at src/App.js:142 says it resets the calculator to its
  initial state, yet `handleClearAllClick` (src/App.js:134-143) never
  writes `showHistory`, so an open history panel stays open.
- The display is never independent state: on every reachable state it is
  `value op` while the operand after an operator is awaited, and otherwise
  the buffer, after the pending `value op` when the left operand is
  nonzero (`ReachableDisplay`).

## Model

| member | source | states |
|---|---|---|
| Values.Symbol | src/App.js:228-231 | each operator is stored and shown as a one-character symbol |
| Values.SymbolInjective | src/App.js:228-231 | distinct operators have distinct symbols, so a stored symbol determines the operator |
| Values.OrZero | src/App.js:94 | the falsy-to-zero fallback: zero and NaN become zero, the result is never NaN, every other number is kept |
| Values.DigitChar | src/App.js:19 | `number.toString()` of a digit is one character between '0' and '9', '0' exactly for 0 |
| Values.Record | src/App.js:70 | the history template `a op b = result`: its length is the three numbers' texts, the one-character symbol and the spacing and `=` |
| Values.RecordShape | src/App.js:70 | a history line opens with the left operand and the operator's symbol and closes with ` = ` and the result of applying the operator to the two operands |
| Transitions.Expression | src/App.js:22-27 | without a pending operator, or with the zero sentinel as left operand, the display is the typed text alone |
| Transitions.ExpressionShape | src/App.js:35-41 | the display while typing always ends with the typed text; with a pending operator and a nonzero left operand it opens with `value op ` and is exactly those two parts |
| Transitions.Evaluate | src/App.js:55-66 | the pending operator is applied to the left operand when it is truthy and to 0 when it is zero or NaN, with the parsed buffer on the right |
| Transitions.Completed | src/App.js:111 | the logged line is the template over the left operand after the falsy-to-zero fallback (0 for zero or NaN, itself otherwise), the pending operator and the parsed buffer |
| Transitions.CompletedShape | src/App.js:107-111 | the logged line opens with the left operand as used (falsy read as 0) and the pending operator, and closes with the very value the handler stores and shows |
| Transitions.NumberClick | src/App.js:16-43 | a digit while waiting makes the buffer that digit and ends the wait; otherwise it replaces a buffer of exactly "0" and appends to any other; the display is the pending `value op` (when an operator is pending and the value is nonzero) followed by the buffer; value, operator, history and visibility unchanged |
| Transitions.DecimalClick | src/App.js:145-174 | a no-op whenever the buffer holds '.', even while waiting; otherwise the buffer becomes "0." (waiting) or gains a trailing '.', the wait ends, and the display follows as for digits |
| Transitions.OperatorClick | src/App.js:45-87 | afterwards the operator is the pressed one and an operand is awaited; with the zero sentinel the parsed buffer becomes the left operand and nothing is logged; with a nonzero value and a pending operator exactly the completed line `a op b = r` is appended, r becomes the value and the buffer `show(r)`, and the display `show(r) next` |
| Transitions.EqualsClick | src/App.js:89-122 | without a pending operator nothing changes; otherwise exactly one line is appended, buffer and display become `show(r)`, the value returns to the sentinel, the operator to none, and an operand is awaited |
| Transitions.ClearClick | src/App.js:124-132 | the calculation cells return to their initial values; history and visibility are kept |
| Transitions.ClearAllClick | src/App.js:134-143 | as clear, and the history becomes empty; visibility is kept |
| Transitions.ViewHistoryClick | src/App.js:176-179 | flips the visibility flag and changes nothing else |
| Engine.Calculator.constructor | src/App.js:8-14 | the seven cells start at value 0, no operator, buffer "0", not waiting, display "0", empty history, hidden history |
| Engine.Calculator.HandleNumberClick | src/App.js:16-43 | the object's new cells are NumberClick of its old cells |
| Engine.Calculator.HandleOperatorClick | src/App.js:45-87 | the object's new cells are OperatorClick of its old cells |
| Engine.Calculator.HandleEqualsClick | src/App.js:89-122 | the object's new cells are EqualsClick of its old cells |
| Engine.Calculator.HandleClearClick | src/App.js:124-132 | the object's new cells are ClearClick of its old cells |
| Engine.Calculator.HandleClearAllClick | src/App.js:134-143 | the object's new cells are ClearAllClick of its old cells |
| Engine.Calculator.HandleDecimalClick | src/App.js:145-174 | the object's new cells are DecimalClick of its old cells |
| Engine.Calculator.ViewHistory | src/App.js:176-179 | the object's new cells are ViewHistoryClick of its old cells |
| Properties.StepKeepsBufferTyped | src/App.js:16-179 | no press can leave a malformed number in the buffer while no operand is awaited |
| Properties.EntryKeepsLiteral | src/App.js:145-174 | any run of digit and '.' presses on a typed buffer keeps it typed (digits, one '.' at most, no superfluous leading zero) and leaves value, operator and history alone |
| Properties.EntryFromCleared | src/App.js:124-174 | from a cleared calculator, digit and '.' presses never give a second '.' nor a '0' followed by another digit |
| Properties.Collapsed | src/App.js:31 | reference form of a typed digit string: never starts with '0' unless it is "0", and is "0" or a suffix of what was typed |
| Properties.CollapsedAppend | src/App.js:31 | appending a digit to the collapsed form is what the handler does: replace "0", append otherwise |
| Properties.TypingDigits | src/App.js:29-41 | digits typed onto a buffer holding Collapsed(t) give Collapsed(t + digits), shown after the pending `value op` when the left operand is nonzero |
| Properties.TypingFromCleared | src/App.js:29-41 | from the cleared state, digit presses make buffer and display exactly the typed digits with leading zeros collapsed |
| Properties.DecimalIgnoredAfterResult | src/App.js:147-148 | after equals yields a result text holding '.', the '.' press changes nothing and the next digit starts a new operand |
| Properties.StepHistory | src/App.js:53-79 | every press but clear-all appends exactly the completed operation's line when it completes one (equals or a chaining operator) and leaves the log unchanged otherwise |
| Properties.HistoryAppendOnly | src/App.js:109-112 | without clear-all the old log stays a prefix, it grows by at most one line per press, and every added line is a completed operation's record |
| Properties.FalsyLeftOperandLoggedAsZero | src/App.js:94 | with a NaN left operand, equals logs the operation with 0 on the left while the display showed NaN |
| Properties.EqualsTwice | src/App.js:89-122 | a second equals right after the first changes nothing |
| Properties.ClearIdempotent | src/App.js:124-132 | clear twice is clear once, keeps the history, and clear-all after clear is clear-all |
| Properties.ViewHistoryTwice | src/App.js:176-179 | toggling the history view twice restores the state |
| Properties.ShowHistoryParity | src/App.js:176-179 | after any presses the visibility is flipped once per history-view press and by nothing else |
| Properties.StepKeepsDisplay | src/App.js:16-179 | given the zero sentinel, every handler leaves the display equal to what the other cells determine: `value op` while awaiting the operand after an operator, otherwise the buffer, after the pending `value op` when the left operand is nonzero |
| Properties.StepKeepsInvariant | src/App.js:16-179 | every handler keeps the invariant: typed buffer unless waiting, zero sentinel when no operator is pending, only completed operations in the log, display derived from the other cells |
| Properties.RunKeepsInvariant | src/App.js:16-179 | any sequence of presses keeps that invariant |
| Properties.ReachableInvariant | src/App.js:8-14 | every state reachable from the initial one satisfies the invariant |
| Properties.ReachableDisplay | src/App.js:16-179 | on every reachable state the display is `value op` while the operand after an operator is awaited, otherwise ends with the buffer, and is exactly the buffer when no operator is pending |
| Properties.DefensiveBranchUnreachable | src/App.js:80-83 | on every reachable state a nonzero value implies a pending operator, so this branch is dead |
| Scenarios.ChainedAddition | src/App.js:53-79 | 1 + 1 + 1 = shows "3" and logs "1 + 1 = 2", "2 + 1 = 3" |
| Scenarios.DivisionThenDecimal | src/App.js:145-157 | 9 ÷ 2 = shows "4.5" and logs "9 ÷ 2 = 4.5"; a following '.' is ignored and a following 7 gives buffer "7" |
| Scenarios.DivisionByZero | src/App.js:103-116 | 5 ÷ 0 = with an infinite quotient shows "Infinity" and logs "5 ÷ 0 = Infinity" |
| Scenarios.ZeroIntermediateResult | src/App.js:48-52 | after 5 - 5 - 3 + the display is "3 +", the left operand is 3 and the log holds only "5 - 5 = 0": the pending "0 - 3" is lost |

## Left out

- The JSX markup, buttons, inline styles and history panel (src/App.js:181-246) and the CSS import (src/App.js:1): presentation only. The button wiring survives only as the `Key` datatype.
- React `useState` mechanics, re-rendering and the functional updaters of `setHistory` (src/App.js:71, src/App.js:112): each handler is one atomic transition on the values it read.
- IEEE-754 arithmetic, parseFloat and the exact number-to-string format, including the infinities and NaN of a division by zero (src/App.js:65, src/App.js:104): `parse`, `show` and `apply` are uninterpreted parameters, so no lemma depends on what they compute; the scenarios state the few values they need.
- Negative zero: `Num` has one zero, so `-0 === 0`, `-0 || 0` and the sign of zero results are not distinguished.
