/**
 * The standalone generation page (`app/generate/page.tsx`): a once-a-second
 * tick walks seven steps and then marks the build complete, which reveals the
 * preview frame.
 */
module GeneratePage {
  import opened Text
  import opened Preview

  const GenerationSteps: seq<string> := [
    "Analyzing your request...",
    "Planning the architecture...",
    "Generating components...",
    "Styling the interface...",
    "Adding interactions...",
    "Optimizing performance...",
    "Finalizing the build..."
  ]

  const LastStep: nat := |GenerationSteps| - 1

  datatype StepLook = DoneStep | ActiveStep | PendingStep

  /** The bullet of step `i` while step `current` runs. */
  function StepLookOf(i: nat, current: nat): (r: StepLook)
    ensures r == DoneStep <==> i < current
    ensures r == ActiveStep <==> i == current
    ensures r == PendingStep <==> i > current
  {
    if i < current then DoneStep else if i == current then ActiveStep else PendingStep
  }

  /** A step's caption is dark once it has been reached. */
  predicate CaptionDark(i: nat, current: nat) {
    i <= current
  }

  /** Exactly one step is active, and the reached captions are the done ones and the active one. */
  lemma OneActiveStep(current: nat)
    requires current <= LastStep
    ensures forall i :: 0 <= i < |GenerationSteps| ==> (StepLookOf(i, current) == ActiveStep <==> i == current)
    ensures forall i :: 0 <= i < |GenerationSteps| ==> (CaptionDark(i, current) <==> StepLookOf(i, current) != PendingStep)
  {
  }

  /** `Math.round((current + 1) / 7 * 100)`, computed in integers: `round(x) = floor(x + 1/2)`. */
  function PercentComplete(current: nat): (p: nat)
    ensures 100 * (current + 1) * 2 >= 7 * (2 * p - 1)
    ensures 100 * (current + 1) * 2 < 7 * (2 * p + 1)
  {
    (200 * (current + 1) + 7) / 14
  }

  /** The percentage grows with the step and reads 100 exactly at the last step. */
  lemma PercentBounds(a: nat, b: nat)
    requires a <= b <= LastStep
    ensures PercentComplete(a) <= PercentComplete(b)
    ensures PercentComplete(b) == 100 <==> b == LastStep
  {
  }

  /** The page's state; `ticks` counts the timer's callbacks delivered so far. */
  class Page {
    var currentStep: nat
    var isComplete: bool
    var timerRunning: bool
    var previewMode: PreviewMode
    ghost var ticks: nat

    /** The step and the completion flag are fixed by the number of ticks. */
    ghost predicate Valid()
      reads this
    {
      && currentStep == Min(ticks, LastStep)
      && isComplete == (ticks > LastStep)
      && timerRunning == !isComplete
      && currentStep <= LastStep
    }

    /** Mounting starts the timer at the first step, previewing as a desktop. */
    constructor ()
      ensures Valid() && ticks == 0
      ensures currentStep == 0 && !isComplete && timerRunning && previewMode == Desktop
    {
      currentStep := 0;
      isComplete := false;
      timerRunning := true;
      previewMode := Desktop;
      ticks := 0;
    }

    /** One tick: advance a step, or at the last step mark the build complete and stop. */
    method Tick()
      requires Valid()
      modifies this`currentStep, this`isComplete, this`timerRunning, this`ticks
      ensures Valid()
      ensures old(timerRunning) ==> ticks == old(ticks) + 1
      ensures !old(timerRunning) ==> ticks == old(ticks) && currentStep == old(currentStep) && isComplete
      ensures old(currentStep) < LastStep ==> currentStep == old(currentStep) + 1 && !isComplete
      ensures old(currentStep) == LastStep ==> currentStep == LastStep && isComplete
      ensures old(isComplete) ==> isComplete
    {
      if !timerRunning {
        return;
      }
      ticks := ticks + 1;
      if currentStep < |GenerationSteps| - 1 {
        currentStep := currentStep + 1;
      } else {
        isComplete := true;
        timerRunning := false;
      }
    }

    /** The preview frame replaces the spinner only once the build is complete. */
    predicate PreviewShown()
      reads this
    {
      isComplete
    }

    /** The caption under the spinner: the current step. */
    function SpinnerCaption(): (s: string)
      requires Valid()
      reads this
      ensures s == GenerationSteps[currentStep]
    {
      GenerationSteps[currentStep]
    }

    method SetPreviewMode(m: PreviewMode)
      modifies this`previewMode
      ensures previewMode == m
    {
      previewMode := m;
    }

    /** The frame's width for the current mode. */
    function FrameWidth(): (w: string)
      reads this
      ensures w == PreviewWidth(previewMode)
    {
      PreviewWidth(previewMode)
    }
  }
}
