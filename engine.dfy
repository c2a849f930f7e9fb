/**
 * The calculator's state machine as values: the four pieces of state the
 * page script keeps (the display text, the pending first operand, the pending
 * operator and the reset flag) and one transition function per handler.
 * The methods of `Widget.Calculator` are specified by these functions.
 */
module Engine {
  import opened Arithmetic

  datatype State = State(
    display: string,
    firstNumber: string,
    currentOperator: string,
    shouldResetDisplay: bool)

  /** The state when the page has loaded, and after clear. */
  const Initial: State := State("", "", "", false)

  /** Backspace: drop the last character, unless the display is empty or about to be replaced. */
  function Erased(s: State): (r: State)
    ensures r.firstNumber == s.firstNumber && r.currentOperator == s.currentOperator
    ensures r.shouldResetDisplay == s.shouldResetDisplay
    ensures |s.display| > 0 && !s.shouldResetDisplay ==>
      r.display + [s.display[|s.display| - 1]] == s.display
    ensures r == s <==> |s.display| == 0 || s.shouldResetDisplay
  {
    if |s.display| > 0 && !s.shouldResetDisplay then s.(display := s.display[..|s.display| - 1])
    else s
  }

  /** Number entry: the text replaces the display after an operator or a result, and extends it otherwise. */
  function WithNumber(s: State, number: string): (r: State)
    ensures r.firstNumber == s.firstNumber && r.currentOperator == s.currentOperator
    ensures !r.shouldResetDisplay
    ensures s.shouldResetDisplay ==> r.display == number
    ensures !s.shouldResetDisplay ==> |r.display| == |s.display| + |number|
    ensures !s.shouldResetDisplay ==> r.display[..|s.display|] == s.display && r.display[|s.display|..] == number
  {
    var current := if s.shouldResetDisplay then "" else s.display;
    State(current + number, s.firstNumber, s.currentOperator, false)
  }

  /** Every error exit: the message is shown and the pending operation is dropped. */
  function ErrorShown(message: string): (r: State)
  {
    State(message, "", "", true)
  }

  /** The outcome of equals on `s`, or None when no operation is pending. */
  function Evaluation<Num>(N: Numerics<Num>, s: State): (r: Option<Outcome>)
    ensures r.None? <==> s.firstNumber == "" || s.currentOperator == ""
    // the display is the second operand of the pending operation
    ensures r.Some? ==> r.value == Evaluate(N, s.firstNumber, s.currentOperator, s.display)
  {
    if s.firstNumber == "" || s.currentOperator == "" then None
    else Some(Evaluate(N, s.firstNumber, s.currentOperator, s.display))
  }

  /** The message of the error an equals on `s` ends with, for which a revert is scheduled. */
  function ErrorTimer<Num>(N: Numerics<Num>, s: State): (r: Option<string>)
    // every failed evaluation of a pending operation, and only that, schedules a revert
    ensures r.Some? <==>
      s.firstNumber != "" && s.currentOperator != "" &&
      Evaluate(N, s.firstNumber, s.currentOperator, s.display).Failed?
    ensures r.Some? ==> r.value == Evaluate(N, s.firstNumber, s.currentOperator, s.display).message
    ensures r.Some? ==> r.value in ErrorMessages
    ensures r == Some(InvalidInput) <==>
      s.firstNumber != "" && s.currentOperator != "" &&
      (N.parse(s.firstNumber).None? || N.parse(s.display).None?)
  {
    match Evaluation(N, s)
    case Some(Failed(message)) => Some(message)
    case _ => None
  }

  /** Equals. */
  function AfterEquals<Num>(N: Numerics<Num>, s: State): (r: State)
    // nothing pending: no state changes at all
    ensures s.firstNumber == "" || s.currentOperator == "" ==> r == s
    // any evaluation drops the pending operation and arms the reset flag
    ensures s.firstNumber != "" && s.currentOperator != "" ==>
      r.firstNumber == "" && r.currentOperator == "" && r.shouldResetDisplay
    // an error leaves exactly its message on the display
    ensures ErrorTimer(N, s).Some? ==> r == ErrorShown(ErrorTimer(N, s).value)
    // a result leaves its formatted text on the display
    ensures Evaluation(N, s).Some? && Evaluation(N, s).value.Shown? ==>
      r.display == Evaluation(N, s).value.text
  {
    match Evaluation(N, s)
    case None => s
    case Some(Failed(message)) => ErrorShown(message)
    case Some(Shown(text)) => State(text, "", "", true)
  }

  /**
   * Operator choice. With an operand pending, equals runs first on the current
   * display; the new first operand is the display as equals left it, which is
   * the error message when that evaluation failed.
   */
  function AfterOperator<Num>(N: Numerics<Num>, s: State, operator: string): (r: State)
    ensures r.currentOperator == operator && r.shouldResetDisplay
    ensures s.firstNumber == "" ==> r.display == s.display && r.firstNumber == s.display
    ensures s.firstNumber != "" ==>
      r.display == AfterEquals(N, s).display && r.firstNumber == r.display
    ensures s.firstNumber != "" && ErrorTimer(N, s).Some? ==>
      r.firstNumber == ErrorTimer(N, s).value
    // backspace right after an operator does nothing, the next number replaces the display
    ensures Erased(r) == r
    ensures forall number :: WithNumber(r, number).display == number
  {
    if s.firstNumber == "" then
      State(s.display, s.display, operator, true)
    else
      var t := AfterEquals(N, s);
      State(t.display, t.display, operator, true)
  }

  /** The delayed revert after an error: only a display still showing that message is emptied. */
  function AfterErrorTimeout(s: State, message: string): (r: State)
    ensures r.firstNumber == s.firstNumber && r.currentOperator == s.currentOperator
    ensures r.shouldResetDisplay == s.shouldResetDisplay
    ensures r.display == "" || r.display == s.display
    ensures r.display != s.display <==> s.display == message && message != ""
  {
    if s.display == message then s.(display := "") else s
  }

  /** The five logical inputs, whether from a button or from the keyboard. */
  datatype Action = Number(text: string) | Operator(op: string) | Equals | Clear | Erase

  /** One input applied to the state, as the button handler dispatches it. */
  function Step<Num>(N: Numerics<Num>, s: State, a: Action): (r: State)
  {
    match a
    case Number(text) => WithNumber(s, text)
    case Operator(op) => AfterOperator(N, s, op)
    case Equals => AfterEquals(N, s)
    case Clear => Initial
    case Erase => Erased(s)
  }
}
