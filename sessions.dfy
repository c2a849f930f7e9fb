/**
 * Sessions: sequences of inputs and timer callbacks applied to the state, and
 * the properties that span more than one handler.
 */
module Sessions {
  import opened Arithmetic
  import opened Engine

  /** What can happen to a calculator: an input, or the delayed revert of an error message. */
  datatype Event = Press(action: Action) | ErrorTimerFires(message: string)

  function Occur<Num>(N: Numerics<Num>, s: State, e: Event): (r: State)
  {
    match e
    case Press(a) => Step(N, s, a)
    case ErrorTimerFires(message) => AfterErrorTimeout(s, message)
  }

  /** The state after the events `es`, in order, starting from `s`. */
  function Run<Num>(N: Numerics<Num>, s: State, es: seq<Event>): (r: State)
    decreases |es|
  {
    if es == [] then s else Run(N, Occur(N, s, es[0]), es[1..])
  }

  /** Operators reach the handler only with the label of one of the four operator buttons. */
  predicate FromControls(e: Event)
  {
    e.Press? && e.action.Operator? ==> e.action.op in Operators
  }

  /** The pending operator is empty or one of the four. */
  predicate OperatorKnown(s: State)
  {
    s.currentOperator == "" || s.currentOperator in Operators
  }

  lemma {:induction false} RunKeepsOperatorKnown<Num>(N: Numerics<Num>, s: State, es: seq<Event>)
    requires OperatorKnown(s)
    requires forall i :: 0 <= i < |es| ==> FromControls(es[i])
    ensures OperatorKnown(Run(N, s, es))
    decreases |es|
  {
    if es != [] {
      var t := Occur(N, s, es[0]);
      assert FromControls(es[0]);
      assert OperatorKnown(t);
      assert forall i :: 0 <= i < |es[1..]| ==> FromControls(es[1..][i]) by {
        forall i | 0 <= i < |es[1..]| ensures FromControls(es[1..][i]) {
          assert es[1..][i] == es[i + 1];
        }
      }
      RunKeepsOperatorKnown(N, t, es[1..]);
    }
  }

  /** The 'Invalid operator' error cannot occur in a session driven by the calculator's controls. */
  lemma InvalidOperatorUnreachable<Num>(N: Numerics<Num>, es: seq<Event>)
    requires forall i :: 0 <= i < |es| ==> FromControls(es[i])
    ensures Evaluation(N, Run(N, Initial, es)) != Some(Failed(InvalidOperator))
    ensures ErrorTimer(N, Run(N, Initial, es)) != Some(InvalidOperator)
  {
    RunKeepsOperatorKnown(N, Initial, es);
  }

  /** Every event is number entry. */
  predicate AllNumbers(es: seq<Event>)
  {
    forall i :: 0 <= i < |es| ==> es[i].Press? && es[i].action.Number?
  }

  /** The texts of a run of number entries, joined. */
  function Typed(es: seq<Event>): (r: string)
    requires AllNumbers(es)
    decreases |es|
  {
    if es == [] then "" else es[0].action.text + Typed(es[1..])
  }

  /**
   * Typing after an operator or a result starts a fresh number; otherwise it
   * extends the display. The pending operand and operator are never touched.
   */
  lemma {:induction false} TypingNumbers<Num>(N: Numerics<Num>, s: State, es: seq<Event>)
    requires AllNumbers(es) && es != []
    ensures Run(N, s, es) ==
      State((if s.shouldResetDisplay then "" else s.display) + Typed(es),
            s.firstNumber, s.currentOperator, false)
    decreases |es|
  {
    var text := es[0].action.text;
    var current := if s.shouldResetDisplay then "" else s.display;
    var t := Occur(N, s, es[0]);
    assert t == State(current + text, s.firstNumber, s.currentOperator, false);
    var rest := es[1..];
    assert Run(N, s, es) == Run(N, t, rest);
    assert AllNumbers(rest) by {
      forall i | 0 <= i < |rest| ensures rest[i].Press? && rest[i].action.Number? {
        assert rest[i] == es[i + 1];
      }
    }
    assert Typed(es) == text + Typed(rest);
    if rest == [] {
      assert Typed(rest) == "";
      assert current + text == current + Typed(es);
    } else {
      TypingNumbers(N, t, rest);
      assert (current + text) + Typed(rest) == current + (text + Typed(rest));
    }
  }

  /**
   * Backspaces remove one character each until the display is empty, and do
   * nothing at all while the display is about to be replaced.
   */
  lemma {:induction false} Erasing<Num>(N: Numerics<Num>, s: State, es: seq<Event>)
    requires forall i :: 0 <= i < |es| ==> es[i] == Press(Erase)
    ensures s.shouldResetDisplay ==> Run(N, s, es) == s
    ensures !s.shouldResetDisplay ==>
      Run(N, s, es) == s.(display := s.display[..if |es| <= |s.display| then |s.display| - |es| else 0])
    decreases |es|
  {
    if es != [] {
      var t := Occur(N, s, es[0]);
      assert es[0] == Press(Erase);
      assert t == Erased(s);
      var rest := es[1..];
      assert forall i :: 0 <= i < |rest| ==> rest[i] == Press(Erase) by {
        forall i | 0 <= i < |rest| ensures rest[i] == Press(Erase) {
          assert rest[i] == es[i + 1];
        }
      }
      Erasing(N, t, rest);
      if !s.shouldResetDisplay && |s.display| > 0 {
        assert t.display == s.display[..|s.display| - 1];
      }
    }
  }

  /** Clear returns every variable to its initial value from any state, and a second clear changes nothing. */
  lemma ClearResets<Num>(N: Numerics<Num>, s: State)
    ensures Run(N, s, [Press(Clear)]) == Initial
    ensures Run(N, s, [Press(Clear), Press(Clear)]) == Run(N, s, [Press(Clear)])
  {
    assert [Press(Clear), Press(Clear)][1..] == [Press(Clear)];
  }

  /**
   * An error shown by equals is reverted to an empty display when the timer
   * fires on an untouched display, and survives when a number was typed first.
   */
  lemma ErrorRevert<Num>(N: Numerics<Num>, s: State, message: string, number: string)
    requires ErrorTimer(N, s) == Some(message)
    requires number != message
    ensures Run(N, s, [Press(Equals), ErrorTimerFires(message)]) == State("", "", "", true)
    ensures Run(N, s, [Press(Equals), Press(Number(number)), ErrorTimerFires(message)]) ==
      State(number, "", "", false)
  {
    var shown := AfterEquals(N, s);
    assert shown == ErrorShown(message);
    var e1 := [Press(Equals), ErrorTimerFires(message)];
    assert Run(N, s, e1) == Run(N, shown, [ErrorTimerFires(message)]) by {
      assert e1[1..] == [ErrorTimerFires(message)];
    }
    assert Run(N, shown, [ErrorTimerFires(message)]) == Run(N, AfterErrorTimeout(shown, message), []);
    var e2 := [Press(Equals), Press(Number(number)), ErrorTimerFires(message)];
    var typed := WithNumber(shown, number);
    assert Run(N, s, e2) == Run(N, typed, [ErrorTimerFires(message)]) by {
      assert e2[1..] == [Press(Number(number)), ErrorTimerFires(message)];
      assert e2[1..][1..] == [ErrorTimerFires(message)];
    }
    assert Run(N, typed, [ErrorTimerFires(message)]) == Run(N, AfterErrorTimeout(typed, message), []);
  }

  /**
   * The chained quirk: when the evaluation an operator triggers fails, its
   * message becomes the next first operand, so the next equals reports
   * 'Invalid input' whatever is typed, as far as the message does not parse.
   */
  lemma ChainedErrorPoisonsOperand<Num>(N: Numerics<Num>, s: State, operator: string, number: string)
    requires s.firstNumber != "" && ErrorTimer(N, s).Some?
    requires N.parse(ErrorTimer(N, s).value).None?
    requires operator != ""
    ensures AfterOperator(N, s, operator).firstNumber == ErrorTimer(N, s).value
    ensures ErrorTimer(N, WithNumber(AfterOperator(N, s, operator), number)) == Some(InvalidInput)
  {
  }
}
