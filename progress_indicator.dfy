/**
 * The four-step progress bar shown above the onboarding screens. Each step is active once
 * the flow has reached it and completed once the flow is past it; a completed step shows a
 * check mark in place of its number.
 */
module ProgressIndicator {

  datatype Step = Step(number: nat, caption: string)

  /** `steps`. */
  const Steps: seq<Step> := [
    Step(1, "Basic Info"), Step(2, "Professional"), Step(3, "Services"), Step(4, "Banking")]

  /** `currentStep`'s default. */
  const DefaultStep: int := 1

  /** What a step's circle shows. */
  datatype Badge = CheckMark | Number(n: nat)

  /** How one step is drawn. */
  datatype StepView = StepView(number: nat, caption: string, active: bool, completed: bool, badge: Badge)

  /** One step drawn for `currentStep`: active from its own number on, completed after it. */
  function View(step: Step, currentStep: int): (v: StepView)
    ensures v.number == step.number && v.caption == step.caption
    ensures v.active <==> currentStep >= step.number
    ensures v.completed <==> currentStep > step.number
    ensures v.badge == CheckMark <==> v.completed
    ensures !v.completed ==> v.badge == Number(step.number)
  {
    StepView(step.number, step.caption, currentStep >= step.number, currentStep > step.number,
             if currentStep > step.number then CheckMark else Number(step.number))
  }

  /** The whole bar. */
  function Render(currentStep: int): (r: seq<StepView>)
    ensures |r| == |Steps|
    ensures forall i :: 0 <= i < |r| ==> r[i] == View(Steps[i], currentStep)
  {
    seq(|Steps|, i requires 0 <= i < |Steps| => View(Steps[i], currentStep))
  }

  /** There are four steps, numbered 1 to 4 in order. */
  lemma StepsNumbered()
    ensures |Steps| == 4
    ensures forall i :: 0 <= i < |Steps| ==> Steps[i].number == i + 1
  {
  }

  /**
   * The bar reads left to right: a completed step is active, the active steps come before
   * the inactive ones, and the one active step that is not completed is the current one.
   */
  lemma RenderShape(currentStep: int)
    ensures var r := Render(currentStep);
      && (forall i :: 0 <= i < |r| && r[i].completed ==> r[i].active)
      && (forall i, j :: 0 <= i < j < |r| && r[j].active ==> r[i].completed)
      && (forall i :: 0 <= i < |r| ==> (r[i].active && !r[i].completed <==> currentStep == i + 1))
  {
    StepsNumbered();
  }

  /** By default only the first step is active and none is completed. */
  lemma DefaultShowsFirstStep()
    ensures var r := Render(DefaultStep);
      r[0].active && forall i :: 0 <= i < |r| ==> !r[i].completed && (r[i].active <==> i == 0)
  {
    StepsNumbered();
  }
}
