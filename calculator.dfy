/**
 * The page script's handlers over its shared variables. `display` stands for
 * the text of the result field; `firstNumber`, `currentOperator` and
 * `shouldResetDisplay` are the script's variables of those names. Each handler
 * is specified by the transition function of `Engine` it implements.
 */
module Widget {
  import opened Arithmetic
  import opened Engine

  class Calculator<Num> {
    /** The numeric primitives evaluation uses. */
    const num: Numerics<Num>

    var display: string
    var firstNumber: string
    var currentOperator: string
    var shouldResetDisplay: bool

    /** The four variables as one value. */
    function Snapshot(): State
      reads this
    {
      State(display, firstNumber, currentOperator, shouldResetDisplay)
    }

    constructor (num: Numerics<Num>)
      ensures this.num == num
      ensures Snapshot() == Initial
    {
      this.num := num;
      display := "";
      firstNumber := "";
      currentOperator := "";
      shouldResetDisplay := false;
    }

    method HandleErase()
      modifies this
      ensures Snapshot() == Erased(old(Snapshot()))
    {
      if |display| > 0 && !shouldResetDisplay {
        display := display[..|display| - 1];
      }
    }

    method HandleNumberInput(number: string)
      modifies this
      ensures Snapshot() == WithNumber(old(Snapshot()), number)
    {
      if shouldResetDisplay {
        display := "";
        shouldResetDisplay := false;
      }
      display := display + number;
    }

    /**
     * Returns the message of the error for which a revert is scheduled, if the
     * chained evaluation failed.
     */
    method HandleOperator(operator: string) returns (scheduled: Option<string>)
      modifies this
      ensures Snapshot() == AfterOperator(num, old(Snapshot()), operator)
      ensures scheduled == if old(firstNumber) == "" then None else ErrorTimer(num, old(Snapshot()))
    {
      if firstNumber == "" {
        scheduled := None;
        firstNumber := display;
        currentOperator := operator;
        shouldResetDisplay := true;
      } else {
        scheduled := CalculateResult();
        firstNumber := display;
        currentOperator := operator;
        shouldResetDisplay := true;
      }
    }

    /**
     * Equals. Returns the message of the error for which a revert is
     * scheduled, if the evaluation failed.
     */
    method CalculateResult() returns (scheduled: Option<string>)
      modifies this
      ensures Snapshot() == AfterEquals(num, old(Snapshot()))
      ensures scheduled == ErrorTimer(num, old(Snapshot()))
    {
      scheduled := None;
      if firstNumber == "" || currentOperator == "" {
        return;
      }
      var secondNumber := display;
      var num1 := num.parse(firstNumber);
      var num2 := num.parse(secondNumber);
      if num1.None? || num2.None? {
        scheduled := ShowError(InvalidInput);
        return;
      }
      var result;
      if currentOperator == Plus {
        result := num.add(num1.value, num2.value);
      } else if currentOperator == Minus {
        result := num.subtract(num1.value, num2.value);
      } else if currentOperator == Times {
        result := num.multiply(num1.value, num2.value);
      } else if currentOperator == Divide {
        if num.isZero(num2.value) {
          scheduled := ShowError(DivideByZero);
          return;
        }
        result := num.divide(num1.value, num2.value);
      } else {
        scheduled := ShowError(InvalidOperator);
        return;
      }
      if !num.isFinite(result) {
        scheduled := ShowError(TooLarge);
        return;
      }
      result := num.round(result);
      display := num.format(result);
      firstNumber := "";
      currentOperator := "";
      shouldResetDisplay := true;
    }

    /** Shows `message` and drops the pending operation; returns the message the revert is scheduled for. */
    method ShowError(message: string) returns (scheduled: Option<string>)
      modifies this
      ensures Snapshot() == ErrorShown(message)
      ensures scheduled == Some(message)
    {
      display := message;
      firstNumber := "";
      currentOperator := "";
      shouldResetDisplay := true;
      scheduled := Some(message);
    }

    /** The effect of the revert scheduled by `ShowError(message)` when its delay has passed. */
    method ErrorTimeoutFires(message: string)
      modifies this
      ensures Snapshot() == AfterErrorTimeout(old(Snapshot()), message)
    {
      if display == message {
        display := "";
      }
    }

    method ClearCalculator()
      modifies this
      ensures Snapshot() == Initial
    {
      display := "";
      firstNumber := "";
      currentOperator := "";
      shouldResetDisplay := false;
    }
  }
}
