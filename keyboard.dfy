/**
 * Keyboard support: the keydown listener clicks the button a key stands for.
 * Button lookup and clicking are not modelled; a key is classified directly
 * into the logical inputs its click would trigger.
 */
module Keyboard {
  import opened Arithmetic
  import opened Engine

  /** A key that the digit test accepts: exactly one character from '0' to '9'. */
  predicate IsDigitKey(key: string)
  {
    |key| == 1 && '0' <= key[0] <= '9'
  }

  /** The click of the digit test, which runs before the switch on every key. */
  function DigitPart(key: string): (r: seq<Action>)
  {
    if IsDigitKey(key) then [Number(key)] else []
  }

  /** The click of the switch on the key. */
  function SwitchPart(key: string): (r: seq<Action>)
  {
    if key == "+" || key == "-" then [Operator(key)]
    else if key == "*" then [Operator(Times)]
    else if key == "/" then [Operator(Divide)]
    else if key == "Enter" || key == "=" then [Equals]
    else if key == "Escape" || key == "c" || key == "C" then [Clear]
    else if key == "Backspace" then [Erase]
    else []
  }

  /** The inputs one key press triggers, in order: those of the digit test, then those of the switch. */
  function KeyActions(key: string): (r: seq<Action>)
    // a key never triggers more than one input
    ensures |r| <= 1
    ensures r == [Number(key)] <==> IsDigitKey(key)
    ensures r == [Operator(Plus)] <==> key == "+"
    ensures r == [Operator(Minus)] <==> key == "-"
    ensures r == [Operator(Times)] <==> key == "*"
    ensures r == [Operator(Divide)] <==> key == "/"
    ensures r == [Equals] <==> key == "Enter" || key == "="
    ensures r == [Clear] <==> key == "Escape" || key == "c" || key == "C"
    ensures r == [Erase] <==> key == "Backspace"
    ensures r == [] <==>
      !IsDigitKey(key) && key !in {"+", "-", "*", "/", "Enter", "=", "Escape", "c", "C", "Backspace"}
    // only the four operator labels ever reach the operator handler from the keyboard
    ensures forall i :: 0 <= i < |r| && r[i].Operator? ==> r[i].op in Operators
  {
    // the switch's keys are either longer than one character or not digits
    assert IsDigitKey(key) ==> key == [key[0]];
    // and the switch never triggers number entry
    assert forall i :: 0 <= i < |SwitchPart(key)| ==> !SwitchPart(key)[i].Number?;
    var r := DigitPart(key) + SwitchPart(key);
    assert !IsDigitKey(key) ==> r == SwitchPart(key);
    r
  }
}
