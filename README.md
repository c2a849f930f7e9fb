# Calculator engine, modelled in Dafny

This is a model of the input and operation state machine behind a browser calculator
widget. The page script holds four pieces of state:

- the text of the result field (the display),
- the pending first operand `firstNumber`,
- the pending operator `currentOperator`,
- the flag `shouldResetDisplay`.

Five handlers change that state: number entry, operator choice (with chained
evaluation), equals, clear and backspace. An error message is shown for a while and then
reverted by a timer. A keydown listener maps keys onto the same five inputs.

Layout:

- `arithmetic.dfy`, module `Arithmetic`: the evaluation step behind equals. Floating point
  is not modelled. Parsing, the four operations, the zero test, the finiteness test,
  rounding and formatting are fields of a `Numerics` value over any number type `Num`.
  `Evaluate` keeps the code's check order: the parse check, then the operator switch, then
  the zero divisor inside the division case, then the finiteness check. It ends with
  formatted text or with one of the four messages `Invalid input`, `Cannot divide by zero`,
  `Invalid operator` and `Result too large`. `Apply` is the reference meaning of the four
  operators. It cannot be called with a zero divisor.
- `engine.dfy`, module `Engine`: the state as a value (`State`) and one transition function
  per handler. Each function's `ensures` states what the handler promises. `Step` is the
  click dispatch of `script.js:15-34`: number entry goes to `WithNumber`, an operator to
  `AfterOperator`, equals to `AfterEquals`, clear to `Initial` and erase to `Erased`. The
  lemmas of `Sessions` run every input through it.
- `calculator.dfy`, module `Widget`: the class `Calculator`, with the script's variables as
  fields and one method per handler. Each method is written step by step, as the script is.
  Its `ensures` ties the new state (`Snapshot()`) to the matching `Engine` function of the old
  state. `CalculateResult` and `HandleOperator` also return the message for which an error
  revert was scheduled. `ErrorTimeoutFires(message)` is the effect of that revert when it fires.
- `keyboard.dfy`, module `Keyboard`: the key table as a pure classification. It returns the
  inputs one key press triggers: those of the digit test, then those of the switch.
- `sessions.dfy`, module `Sessions`: sequences of inputs and timer callbacks (`Run`), and the
  properties that span several handlers.
- `scenarios.dfy`, module `Scenarios`: concrete sessions on a `Calculator` object. Each one
  assumes only what the numeric primitives must do on the operands involved.

The chained branch of operator choice is kept as the code has it. There, `firstNumber` is
read from the display after equals has run. So when that evaluation fails, the next first
operand is the error message text. The next equals then reports `Invalid input`, provided
the message does not parse as a number (`ChainedErrorPoisonsOperand`).

Two behaviours of the code are kept as written, though a reader might expect otherwise:

- Equals does nothing unless both `firstNumber` and `currentOperator` are non-empty.
- Operator choice tests only `firstNumber`. So an operator chosen on an empty display leaves
  `firstNumber` empty. The next operator press takes the same first branch again.

## Model

| member | source | states |
|---|---|---|
| Arithmetic.Evaluate | script.js:73-116 | 'Invalid input' exactly when an operand does not parse, whatever the operator. 'Invalid operator' exactly when both parse and the operator is not one of + - × ÷. 'Cannot divide by zero' exactly for ÷ with a zero divisor, with no division done. 'Result too large' exactly when the result of the operator is not finite. Otherwise the text is the formatted, rounded result of the operator. |
| Engine.Erased | script.js:38-42 | With a non-empty display and the reset flag clear, exactly the last character is removed. Otherwise the state is unchanged. The operand, operator and flag are never touched. |
| Engine.WithNumber | script.js:44-50 | With the reset flag set, the display becomes exactly the entered text. Otherwise the text is appended to the old display. The flag ends clear, and the operand and operator are untouched. |
| Engine.Evaluation | script.js:67-74 | Equals evaluates exactly when both the first operand and the operator are non-empty. What it evaluates is the pending first operand and operator, with the display as the second operand. |
| Engine.ErrorTimer | script.js:76-110 | A revert is scheduled exactly when a pending evaluation fails, for that evaluation's message, which is one of the four. It is 'Invalid input' exactly when either the first operand or the display does not parse. Which message the other failures give is stated by Arithmetic.Evaluate. |
| Engine.AfterEquals | script.js:66-132 | With nothing pending, the state is unchanged. Otherwise the operand and operator are emptied and the reset flag is set. An error leaves exactly its message on the display. A result leaves its formatted text. |
| Engine.AfterOperator | script.js:52-64 | The operator is the chosen one and the reset flag is set. With no operand pending, the first operand is the display as it was. Otherwise the first operand is the display as equals left it, which is the error message when that failed. Backspace afterwards is a no-op, and the next number replaces the display. |
| Engine.AfterErrorTimeout | script.js:135-140 | The revert empties the display only if it still shows that exact message. Otherwise, and for every other variable, it changes nothing. |
| Keyboard.KeyActions | script.js:161-215 | A key triggers at most one input. '0'-'9' enter that digit. '+' and '-' choose themselves, '*' chooses ×, '/' chooses ÷. Enter and '=' mean equals. Escape, 'c' and 'C' mean clear. Backspace means erase. Every other key does nothing. Only the four operator labels come from the keyboard. |
| Widget.Calculator.constructor | script.js:5-8 | All four variables start empty or false. |
| Widget.Calculator.HandleErase | script.js:38-42 | The new state is Engine.Erased of the old one. |
| Widget.Calculator.HandleNumberInput | script.js:44-50 | The new state is Engine.WithNumber of the old one. |
| Widget.Calculator.HandleOperator | script.js:52-64 | The new state is Engine.AfterOperator of the old one. A revert is scheduled exactly when the chained evaluation failed. |
| Widget.Calculator.CalculateResult | script.js:66-125 | The new state is Engine.AfterEquals of the old one. A revert is scheduled for the message of the error it ended with, if any. |
| Widget.Calculator.ShowError | script.js:127-133 | The display shows the message, the operand and operator are empty, and the reset flag is set. A revert is scheduled for that message. |
| Widget.Calculator.ErrorTimeoutFires | script.js:135-140 | The new state is Engine.AfterErrorTimeout of the old one. |
| Widget.Calculator.ClearCalculator | script.js:143-149 | From any state, all four variables return to their initial values. |
| Sessions.RunKeepsOperatorKnown | script.js:52-63 | In a session driven by the calculator's controls, the pending operator is always empty or one of + - × ÷. |
| Sessions.InvalidOperatorUnreachable | script.js:101-103 | No state reachable from the start through the controls makes equals end with 'Invalid operator'. |
| Sessions.TypingNumbers | script.js:44-50 | After an operator or a result, a run of number entries leaves exactly the typed text on the display. Otherwise the run appends it to the display. The operand and operator are untouched, and the flag ends clear. |
| Sessions.Erasing | script.js:38-42 | k backspaces remove the last k characters, stopping at the empty display. While the reset flag is set, they change nothing. |
| Sessions.ClearResets | script.js:143-149 | Clear reaches the initial state from any state, and a second clear changes nothing. |
| Sessions.ErrorRevert | script.js:135-140 | After an error, the timer empties the untouched display. A number typed before it fires survives. |
| Sessions.ChainedErrorPoisonsOperand | script.js:58-63 | After a failed chained evaluation, the first operand is the error message. The next equals then reports 'Invalid input', whatever is typed, if the message does not parse. |
| Scenarios.ChangedOperatorChains | script.js:58-63 | The session 2, +, ×, 3, = shows 12, because × evaluates 2 + 2 first. |
| Scenarios.DivisionByZero | script.js:94-98 | The session 5, ÷, 0, = shows 'Cannot divide by zero' and schedules its revert. The revert then empties the display. |
| Scenarios.EraseToEmpty | script.js:38-42 | The session 9, backspace, backspace leaves an empty display. |

## Left out

- DOM lookup, listener registration, the test of a button's class that picks its handler, and the
  lookup and click of a button by the keydown listener. These are browser plumbing. The model
  applies the logical inputs directly and assumes the operator buttons carry the labels
  + - × ÷ that the switch matches. The page's markup is not part of this model.
- The `error` class on the display and the removal of `active` highlights. They are cosmetic.
- The 1.5-second delay of the error revert. Time and scheduling are not modelled. The revert
  is the explicit method `ErrorTimeoutFires` and the event `ErrorTimerFires`, which can
  happen at any point of a session.
- Floating point: `parseFloat` leniency, IEEE arithmetic, `isFinite`, `toFixed(8)` rounding
  and number-to-text conversion. They are the uninterpreted fields of `Numerics`. So
  properties that depend on their values, such as 0.1 + 0.2 showing 0.3, are not proved.
- The `catch` branch that shows 'Calculation error'. Nothing in the guarded block throws, so
  it cannot be reached.
- `secondNumber` as a persistent variable. It is written but never read outside equals, so
  the model keeps it as a local of `CalculateResult`. Its reset by clear has no effect.
- Erase removes the last character of the model's string. The script removes the last
  UTF-16 code unit. The two differ only for characters outside the Basic Multilingual Plane.
