/**
 * The generation card (`components/ai-integration/real-time-ai.tsx`).  Its two
 * timers are explicit step methods: a progress tick every 50 ms that counts
 * to 100 and stops, and a step tick every second that walks a local index
 * through seven captions and stops.  Pressing Generate starts both; the
 * completion timeout ends the run.
 */
module RealTimeAi {
  import opened Wrappers
  import opened Text
  import opened Lists
  import AiModelSelector

  const Steps: seq<string> := [
    "Analyzing prompt...",
    "Identifying UI components...",
    "Generating component structure...",
    "Applying styling...",
    "Optimizing for responsiveness...",
    "Adding interactivity...",
    "Finalizing code..."
  ]

  lemma StepsDistinct()
    ensures forall i, j :: 0 <= i < j < |Steps| ==> Steps[i] != Steps[j]
  {
  }

  /** The quoted prompt in the generated code: at most 150 characters, then an ellipsis. */
  function Excerpt(prompt: string): (r: string)
    ensures |prompt| <= 150 ==> r == prompt
    ensures |prompt| > 150 ==> |r| == 153 && r == prompt[..150] + "..."
  {
    SubstringFromStart(prompt, 150);
    Substring(prompt, 0, 150) + (if |prompt| > 150 then "..." else "")
  }

  /** An excerpt begins with the prompt's opening and reproduces a short prompt whole. */
  lemma ExcerptKeepsOpening(prompt: string)
    ensures Excerpt(prompt)[..Min(|prompt|, 150)] == prompt[..Min(|prompt|, 150)]
    ensures |Excerpt(prompt)| <= 153
  {
  }

  /**
   * What the five-second timeout hands to `onCodeGenerated`, fixed from the
   * prompt and model of the render in which Generate was pressed.  The rest
   * of the generated code is a constant template.
   */
  datatype Generation = Generation(header: string, modelName: string, credits: nat, excerpt: string)

  function GenerationFor(prompt: string, m: AiModelSelector.AiModel): (g: Generation)
    ensures g.header == "// Generated with " + m.name + " from: " + prompt
    ensures g.credits == m.credits && g.modelName == m.name
    ensures g.excerpt == Excerpt(prompt)
  {
    Generation("// Generated with " + m.name + " from: " + prompt, m.name, m.credits, Excerpt(prompt))
  }

  /** Whether pressing Generate does anything, and if so what the timeout will deliver. */
  function Schedule(prompt: string, model: AiModelSelector.AiModel): (g: Option<Generation>)
    ensures g.None? <==> IsBlank(prompt)
    ensures g.Some? ==> g.value == GenerationFor(prompt, model)
  {
    if IsBlank(prompt) then None else Some(GenerationFor(prompt, model))
  }

  /** How a step caption is drawn. */
  datatype StepLook = DoneStep | ActiveStep | PendingStep

  /** `indexOf`, with -1 for a value that is absent. */
  function IndexOf(s: seq<string>, x: string): (r: int)
    ensures r == -1 <==> x !in s
    ensures r >= 0 ==> r < |s| && s[r] == x && forall j :: 0 <= j < r ==> s[j] != x
  {
    match FirstIndex(s, (y: string) => y == x)
    case None => -1
    case Some(k) => k
  }

  /** The classes of a step caption: active when it is the current caption, done when it comes earlier. */
  function StepLookOf(steps: seq<string>, step: string, current: string): StepLook {
    if step == current then ActiveStep
    else if IndexOf(steps, step) < IndexOf(steps, current) then DoneStep
    else PendingStep
  }

  /** With the seven distinct captions, step `i` is done before the current index, active at it and pending after. */
  lemma StepLooks(i: nat, k: nat)
    requires i < |Steps| && k < |Steps|
    ensures StepLookOf(Steps, Steps[i], Steps[k]) == (if i < k then DoneStep else if i == k then ActiveStep else PendingStep)
  {
    StepsDistinct();
    assert IndexOf(Steps, Steps[i]) == i;
    assert IndexOf(Steps, Steps[k]) == k;
  }

  /** Before the first caption is set nothing is done: an absent current caption has index -1. */
  lemma NothingDoneBeforeStart(steps: seq<string>, step: string)
    requires step != "" && "" !in steps
    ensures StepLookOf(steps, step, "") == PendingStep
  {
  }

  /** The Generate button is disabled for a blank prompt. */
  predicate GenerateDisabled(prompt: string) {
    IsBlank(prompt)
  }

  /**
   * The card's state.  `stepIndex` is the step timer's local counter.  The
   * `prompt` prop and the render's `model`, which is
   * `AiModelSelector.CurrentModel(selectedModel)`, are
   * the arguments of the handler, as the render in which Generate is pressed
   * sees them.
   */
  class Generator {
    var isGenerating: bool
    var generationProgress: int
    var generationSteps: seq<string>
    var currentStep: string
    var stepIndex: nat
    var progressTimer: bool
    var stepTimer: bool
    /** Completion timeouts scheduled by progress reaching 100 and not fired yet. */
    var pendingCompletions: nat

    /** Progress stays within 0..100, the step index within the list, and the caption follows the index. */
    ghost predicate Valid()
      reads this
    {
      && 0 <= generationProgress <= 100
      && (generationSteps == [] || generationSteps == Steps)
      && stepIndex <= |Steps|
      && (generationSteps != [] ==> currentStep == generationSteps[Min(stepIndex, |generationSteps| - 1)])
      && (stepTimer ==> generationSteps != [] && stepIndex < |generationSteps|)
    }

    constructor ()
      ensures Valid()
      ensures !isGenerating && generationProgress == 0 && generationSteps == [] && currentStep == ""
      ensures !progressTimer && !stepTimer && pendingCompletions == 0
    {
      isGenerating := false;
      generationProgress := 0;
      generationSteps := [];
      currentStep := "";
      stepIndex := 0;
      progressTimer := false;
      stepTimer := false;
      pendingCompletions := 0;
    }

    /** Generation turning on starts both timers and shows the first caption. */
    method StartTimers()
      requires Valid()
      modifies this`generationSteps, this`currentStep, this`stepIndex, this`progressTimer, this`stepTimer
      ensures Valid()
      ensures progressTimer && stepTimer && generationSteps == Steps && stepIndex == 0 && currentStep == Steps[0]
    {
      progressTimer := true;
      generationSteps := Steps;
      stepIndex := 0;
      currentStep := Steps[0];
      stepTimer := true;
    }

    /**
     * `generateCode`: a blank prompt does nothing.  Otherwise generation is on,
     * progress restarts at 0, and `scheduled` is what the timeout will deliver.
     * When generation was off, turning it on starts both timers and resets the
     * captions to the first step.
     */
    method GenerateCode(prompt: string, model: AiModelSelector.AiModel) returns (scheduled: Option<Generation>)
      requires Valid()
      modifies this`isGenerating, this`generationProgress, this`generationSteps, this`currentStep,
        this`stepIndex, this`progressTimer, this`stepTimer
      ensures Valid()
      ensures scheduled == Schedule(prompt, model)
      ensures scheduled.None? ==>
        (&& isGenerating == old(isGenerating) && generationProgress == old(generationProgress)
         && generationSteps == old(generationSteps) && stepIndex == old(stepIndex) && currentStep == old(currentStep)
         && progressTimer == old(progressTimer) && stepTimer == old(stepTimer))
      ensures scheduled.Some? ==> isGenerating && generationProgress == 0
      ensures scheduled.Some? && !old(isGenerating) ==>
        progressTimer && stepTimer && generationSteps == Steps && stepIndex == 0 && currentStep == Steps[0]
      ensures old(isGenerating) ==>
        (&& generationSteps == old(generationSteps) && stepIndex == old(stepIndex)
         && progressTimer == old(progressTimer) && stepTimer == old(stepTimer))
    {
      scheduled := Schedule(prompt, model);
      if scheduled.None? {
        return;
      }
      var wasGenerating := isGenerating;
      isGenerating := true;
      generationProgress := 0;
      if !wasGenerating {
        StartTimers();
      }
    }

    /**
     * One 50 ms tick: count up by one, or stay at 100 and stop the timer there.
     * The tick on which progress becomes 100 schedules the completion timeout.
     */
    method ProgressTick()
      requires Valid()
      modifies this`generationProgress, this`progressTimer, this`pendingCompletions
      ensures Valid()
      ensures !old(progressTimer) ==> generationProgress == old(generationProgress) && !progressTimer
      ensures old(progressTimer) && old(generationProgress) >= 100 ==> generationProgress == 100 && !progressTimer
      ensures old(progressTimer) && old(generationProgress) < 100 ==> generationProgress == old(generationProgress) + 1 && progressTimer
      ensures generationProgress >= old(generationProgress)
      ensures pendingCompletions == old(pendingCompletions) + (if old(generationProgress) != 100 && generationProgress == 100 then 1 else 0)
    {
      if !progressTimer {
        return;
      }
      if generationProgress >= 100 {
        progressTimer := false;
        generationProgress := 100;
      } else {
        generationProgress := generationProgress + 1;
        if generationProgress == 100 {
          pendingCompletions := pendingCompletions + 1;
        }
      }
    }

    /** One 1 s tick: move to the next caption, or stop the timer after the last one. */
    method StepTick()
      requires Valid()
      modifies this`stepIndex, this`currentStep, this`stepTimer
      ensures Valid()
      ensures !old(stepTimer) ==> stepIndex == old(stepIndex) && currentStep == old(currentStep) && !stepTimer
      ensures old(stepTimer) ==> stepIndex == old(stepIndex) + 1
      ensures old(stepTimer) && stepIndex < |Steps| ==> currentStep == Steps[stepIndex] && stepTimer
      ensures old(stepTimer) && stepIndex == |Steps| ==> currentStep == old(currentStep) && !stepTimer
    {
      if !stepTimer {
        return;
      }
      stepIndex := stepIndex + 1;
      if stepIndex < |generationSteps| {
        currentStep := generationSteps[stepIndex];
      } else {
        stepTimer := false;
      }
    }

    /**
     * A completion timeout fires, half a second after progress reached 100: the
     * run ends, the timers are cleared with it, and `onGenerationComplete` is
     * called (the caller's callback, not modelled further).
     */
    method CompletionTimeout()
      requires Valid() && pendingCompletions > 0
      modifies this`isGenerating, this`progressTimer, this`stepTimer, this`pendingCompletions
      ensures Valid()
      ensures !isGenerating && !progressTimer && !stepTimer
      ensures pendingCompletions == old(pendingCompletions) - 1
    {
      isGenerating := false;
      progressTimer := false;
      stepTimer := false;
      pendingCompletions := pendingCompletions - 1;
    }
  }
}
