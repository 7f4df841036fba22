/** The change-number wizard: info -> verify -> complete, with `isVerified` set on the
    second transition and the completion callback on the third press. */
module ChangeNumberScreen {
  import opened Text

  datatype Step = Info | Verify | Complete

  /** The wizard's order of steps. */
  function Rank(s: Step): nat
  {
    match s
    case Info => 0
    case Verify => 1
    case Complete => 2
  }

  /** The step `handleContinue` leaves behind. */
  function NextStep(s: Step): (r: Step)
    ensures Rank(r) >= Rank(s)
    ensures Rank(r) == Rank(s) <==> s == Complete
    ensures s != Complete ==> Rank(r) == Rank(s) + 1
  {
    match s
    case Info => Verify
    case Verify => Complete
    case Complete => Complete
  }

  /** Two presses from any step reach "complete". */
  lemma TwoPressesComplete(s: Step)
    ensures NextStep(NextStep(s)) == Complete
  {
  }

  /** The header title. */
  function Title(s: Step): string
  {
    if s == Info then "Change Number" else if s == Verify then "Verify" else "Complete"
  }

  /** Each step has its own title. */
  lemma TitlesDistinct(a: Step, b: Step)
    ensures Title(a) == Title(b) <==> a == b
  {
    assert |"Change Number"| == 13 && |"Verify"| == 6 && |"Complete"| == 8;
  }

  class Screen {
    var step: Step
    var newNumber: string
    var isVerified: bool

    /** The number is verified exactly in the final step. */
    ghost predicate Valid()
      reads this
    {
      isVerified <==> step == Complete
    }

    constructor ()
      ensures Valid() && step == Info && newNumber == "" && !isVerified
    {
      step, newNumber, isVerified := Info, "", false;
    }

    method SetNewNumber(number: string)
      requires Valid()
      modifies this`newNumber
      ensures Valid() && newNumber == number
    {
      newNumber := number;
    }

    /** `handleContinue`; `completed` says that `onComplete` was called. */
    method HandleContinue() returns (completed: bool)
      requires Valid()
      modifies this`step, this`isVerified
      ensures Valid()
      ensures step == NextStep(old(step))
      ensures completed <==> old(step) == Complete
      ensures isVerified && !old(isVerified) <==> old(step) == Verify
    {
      completed := false;
      if step == Info {
        step := Verify;
      } else if step == Verify {
        step := Complete;
        isVerified := true;
      } else {
        completed := true;
      }
    }

    /** The Continue button of the current step; on the info step it is disabled while the new
        number is blank after trimming. */
    method PressContinue() returns (completed: bool)
      requires Valid()
      modifies this`step, this`isVerified
      ensures Valid()
      ensures step == if old(step) == Info && IsBlank(newNumber) then Info else NextStep(old(step))
      ensures completed <==> old(step) == Complete
    {
      completed := false;
      if !(step == Info && IsBlank(newNumber)) {
        completed := HandleContinue();
      }
    }
  }
}
