/** The "how it works" stepper: the active step (1 to 4) and the
    auto-advance flag. Clicking a step card or a progress dot calls
    HandleStepClick; each firing of the 8-second interval is a Tick. */
module HowItWorks {
  import opened Common

  datatype Step = Step(number: nat, title: string)

  const Steps := [
    Step(1, "Install and Run"),
    Step(2, "Take Screenshots"),
    Step(3, "Get AI Analysis"),
    Step(4, "Implement and Learn")
  ]

  predicate IsStep(s: int) { 1 <= s <= 4 }

  /** `prev < 4 ? prev + 1 : 1`: the next step, wrapping from 4 to 1. */
  function Advance(s: int): (t: int)
    ensures IsStep(s) ==> IsStep(t)
    ensures s < 4 ==> t == s + 1
    ensures s >= 4 ==> t == 1
  {
    if s < 4 then s + 1 else 1
  }

  /** `k` consecutive advances. */
  function AdvanceN(s: int, k: nat): int
  {
    if k == 0 then s else Advance(AdvanceN(s, k - 1))
  }

  /** The cycle has length four: four advances from any step return to
      it, and fewer never do. */
  lemma {:induction false} FourAdvancesReturn(s: int)
    requires IsStep(s)
    ensures AdvanceN(s, 4) == s
    ensures forall k :: 1 <= k < 4 ==> AdvanceN(s, k) != s
  {
    assert AdvanceN(s, 1) == Advance(s);
    assert AdvanceN(s, 2) == Advance(Advance(s));
    assert AdvanceN(s, 3) == Advance(Advance(Advance(s)));
    assert AdvanceN(s, 4) == Advance(Advance(Advance(Advance(s))));
  }

  class Stepper {
    var activeStep: int
    var autoAdvance: bool

    predicate Valid()
      reads this
    {
      IsStep(activeStep)
    }

    constructor ()
      ensures Valid() && activeStep == 1 && autoAdvance
    {
      activeStep := 1;
      autoAdvance := true;
    }

    /** A manual choice selects the step and turns auto-advance off. */
    method HandleStepClick(stepNumber: int)
      requires Valid() && IsStep(stepNumber)
      modifies this
      ensures Valid()
      ensures activeStep == stepNumber && !autoAdvance
    {
      activeStep := stepNumber;
      autoAdvance := false;
    }

    /** One firing of the interval, which exists only while auto-advance
        is on. The flag is never turned back on. */
    method Tick()
      requires Valid()
      modifies this`activeStep
      ensures Valid()
      ensures old(autoAdvance) ==> activeStep == Advance(old(activeStep))
      ensures !old(autoAdvance) ==> activeStep == old(activeStep)
    {
      if autoAdvance {
        activeStep := if activeStep < 4 then activeStep + 1 else 1;
      }
    }
  }

  /** `number < 10 ? `0${number}` : number`: the step number padded to
      two digits. */
  function StepLabel(n: nat): (text: string)
    ensures |text| >= 2
    ensures n < 10 ==> text[0] == '0'
    ensures n < 100 ==> |text| == 2
  {
    if n < 10 then "0" + NatToString(n) else NatToString(n)
  }

  /** The padded label still reads as the step number. */
  lemma StepLabelValue(n: nat)
    ensures forall i :: 0 <= i < |StepLabel(n)| ==> IsDigit(StepLabel(n)[i])
    ensures DigitsValue(StepLabel(n)) == n
  {
    NatToStringRoundTrip(n);
    if n < 10 {
      LeadingZeroValue(NatToString(n));
    }
  }

  /** The "NEURAL PROCESSING" readout, `activeStep * 25` percent. */
  function ProcessingPercent(activeStep: int): (p: int)
    ensures IsStep(activeStep) ==> p in {25, 50, 75, 100}
    ensures IsStep(activeStep) ==> (p == 100 <==> activeStep == 4)
  {
    activeStep * 25
  }

  /** Step card `number` is drawn active. */
  predicate IsActiveCard(number: int, activeStep: int)
  {
    activeStep == number
  }

  /** Exactly one of the four cards is active: the one whose number is
      the active step. */
  lemma OneActiveCard(activeStep: int)
    requires IsStep(activeStep)
    ensures (set i | 0 <= i < |Steps| && IsActiveCard(Steps[i].number, activeStep)) == {activeStep - 1}
  {
    assert forall i :: 0 <= i < |Steps| ==> Steps[i].number == i + 1;
  }
}
