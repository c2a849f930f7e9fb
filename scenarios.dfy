/**
 * Sessions on a `Widget.Calculator`, given only what the numeric primitives
 * must do on the operands involved. Each method drives the handlers the way
 * button presses would and returns what the display shows.
 */
module Scenarios {
  import opened Arithmetic
  import opened Engine
  import opened Widget

  /** 2, +, ×, 3, =: pressing × evaluates 2 + 2 first, so the result is 4 × 3. */
  method ChangedOperatorChains<Num>(N: Numerics<Num>, two: Num, three: Num, four: Num)
    returns (shown: string)
    requires N.parse("2") == Some(two) && N.parse("3") == Some(three) && N.parse("4") == Some(four)
    requires N.isFinite(N.add(two, two)) && N.format(N.round(N.add(two, two))) == "4"
    requires N.isFinite(N.multiply(four, three)) && N.format(N.round(N.multiply(four, three))) == "12"
    ensures shown == "12"
  {
    var c := new Calculator(N);
    c.HandleNumberInput("2");
    var scheduled := c.HandleOperator(Plus);
    scheduled := c.HandleOperator(Times);
    assert c.Snapshot() == State("4", "4", Times, true);
    c.HandleNumberInput("3");
    scheduled := c.CalculateResult();
    shown := c.display;
  }

  /** 5, ÷, 0, =: the division error is shown, nothing stays pending, and the revert empties the display. */
  method DivisionByZero<Num>(N: Numerics<Num>, five: Num, zero: Num)
    returns (shown: string, scheduled: Option<string>, reverted: string)
    requires N.parse("5") == Some(five) && N.parse("0") == Some(zero) && N.isZero(zero)
    ensures shown == DivideByZero && scheduled == Some(DivideByZero)
    ensures reverted == ""
  {
    var c := new Calculator(N);
    c.HandleNumberInput("5");
    var none := c.HandleOperator(Divide);
    c.HandleNumberInput("0");
    scheduled := c.CalculateResult();
    assert c.Snapshot() == ErrorShown(DivideByZero);
    shown := c.display;
    c.ErrorTimeoutFires(DivideByZero);
    reverted := c.display;
  }

  /** 9, backspace, backspace: the second backspace finds an empty display and does nothing. */
  method EraseToEmpty<Num>(N: Numerics<Num>) returns (shown: string)
    ensures shown == ""
  {
    var c := new Calculator(N);
    c.HandleNumberInput("9");
    c.HandleErase();
    c.HandleErase();
    shown := c.display;
  }
}
