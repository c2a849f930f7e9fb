/**
 * The evaluation step of the calculator: parse both operands, apply the
 * pending operator, check the result, round it and turn it into display text.
 *
 * The host language's floating-point numbers are not modelled. Instead every
 * numeric primitive the calculator relies on is a field of `Numerics`, over an
 * arbitrary number type `Num`; what is proved holds for every choice of them.
 */
module Arithmetic {

  datatype Option<T> = None | Some(value: T)

  /** The numeric primitives borrowed from the host language. */
  datatype Numerics<!Num> = Numerics(
    parse: string -> Option<Num>,   // parseFloat; None stands for NaN
    add: (Num, Num) -> Num,
    subtract: (Num, Num) -> Num,
    multiply: (Num, Num) -> Num,
    divide: (Num, Num) -> Num,
    isZero: Num -> bool,            // x === 0
    isFinite: Num -> bool,          // isFinite(x)
    round: Num -> Num,              // parseFloat(x.toFixed(8))
    format: Num -> string           // the text a number becomes on the display
  )

  // The operator labels, as the operator buttons show them.
  const Plus: string := "+"
  const Minus: string := "-"
  const Times: string := "×"
  const Divide: string := "÷"
  const Operators: set<string> := {Plus, Minus, Times, Divide}

  // The messages an evaluation can end with.
  const InvalidInput: string := "Invalid input"
  const DivideByZero: string := "Cannot divide by zero"
  const InvalidOperator: string := "Invalid operator"
  const TooLarge: string := "Result too large"
  const ErrorMessages: set<string> := {InvalidInput, DivideByZero, InvalidOperator, TooLarge}

  /** What one evaluation ends with: display text for a result, or an error message. */
  datatype Outcome = Shown(text: string) | Failed(message: string)

  /**
   * Reference meaning of the four operators. Division is only defined for a
   * divisor that is not zero, so a use of it is a proof that none is attempted.
   */
  function Apply<Num>(N: Numerics<Num>, op: string, a: Num, b: Num): (r: Num)
    requires op in Operators
    requires op == Divide ==> !N.isZero(b)
  {
    if op == Plus then N.add(a, b)
    else if op == Minus then N.subtract(a, b)
    else if op == Times then N.multiply(a, b)
    else N.divide(a, b)
  }

  /** The finiteness check, rounding and formatting that follow the operator switch. */
  function Finish<Num>(N: Numerics<Num>, result: Num): (r: Outcome)
  {
    if !N.isFinite(result) then Failed(TooLarge)
    else Shown(N.format(N.round(result)))
  }

  /**
   * Evaluation of `first op second`, with its checks in the order of the code:
   * the parse check, the operator switch, the zero divisor of the division
   * case, and the finiteness check.
   */
  function Evaluate<Num>(N: Numerics<Num>, first: string, op: string, second: string): (r: Outcome)
    // an unparsable operand is reported before the operator is looked at
    ensures r == Failed(InvalidInput) <==> N.parse(first).None? || N.parse(second).None?
    ensures r == Failed(InvalidOperator) <==>
      N.parse(first).Some? && N.parse(second).Some? && op !in Operators
    ensures r == Failed(DivideByZero) <==>
      N.parse(first).Some? && N.parse(second).Some? && op == Divide && N.isZero(N.parse(second).value)
    ensures r == Failed(TooLarge) <==>
      N.parse(first).Some? && N.parse(second).Some? && op in Operators &&
      !(op == Divide && N.isZero(N.parse(second).value)) &&
      !N.isFinite(Apply(N, op, N.parse(first).value, N.parse(second).value))
    ensures r.Failed? ==> r.message in ErrorMessages
    ensures r.Shown? ==>
      N.parse(first).Some? && N.parse(second).Some? && op in Operators &&
      !(op == Divide && N.isZero(N.parse(second).value)) &&
      var x := Apply(N, op, N.parse(first).value, N.parse(second).value);
      N.isFinite(x) && r.text == N.format(N.round(x))
  {
    var num1 := N.parse(first);
    var num2 := N.parse(second);
    if num1.None? || num2.None? then Failed(InvalidInput)
    else
      var a, b := num1.value, num2.value;
      if op == Plus then Finish(N, N.add(a, b))
      else if op == Minus then Finish(N, N.subtract(a, b))
      else if op == Times then Finish(N, N.multiply(a, b))
      else if op == Divide then
        if N.isZero(b) then Failed(DivideByZero) else Finish(N, N.divide(a, b))
      else Failed(InvalidOperator)
  }
}
