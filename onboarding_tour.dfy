/**
 * The onboarding tour: a step counter over five fixed steps, the handlers
 * that move it, finish the tour or skip it, and the `useOnboarding` hook that
 * holds whether the tour is active and whether it was ever completed. The
 * browser's `localStorage` flag is a field of the tour.
 */
module OnboardingTour {
  import opened Common

  /** `ONBOARDING_STEPS`, by id. */
  const StepIds: seq<string> := ["project-title", "stage-navigation", "ai-chat", "prd-editor", "agent-debate"]

  /** The index of the last step, `ONBOARDING_STEPS.length - 1`. */
  const LastStep: nat := |StepIds| - 1

  predicate IsFirstStep(step: nat) { step == 0 }

  predicate IsLastStep(step: nat) { step == |StepIds| - 1 }

  /** The progress line, 'Step k of 5'. */
  function StepText(step: nat): (s: string)
    ensures |s| > 5 && s[..5] == "Step "
  {
    "Step " + NatToString(step + 1) + " of " + NatToString(|StepIds|)
  }

  /** The five steps are told apart by their progress lines. */
  lemma StepTextInjective(a: nat, b: nat)
    requires StepText(a) == StepText(b)
    ensures a == b
  {
    var tail := " of " + NatToString(|StepIds|);
    assert StepText(a) == "Step " + NatToString(a + 1) + tail;
    assert StepText(b) == "Step " + NatToString(b + 1) + tail;
    SameFrame("Step ", NatToString(a + 1), NatToString(b + 1), tail);
    ParseNatToString(a + 1);
    ParseNatToString(b + 1);
  }

  /** Equal strings with the same prefix and suffix have the same middle. */
  lemma SameFrame(p: string, x: string, y: string, t: string)
    requires p + x + t == p + y + t
    ensures x == y
  {
    assert |x| == |y|;
    assert x == (p + x + t)[|p|..|p| + |x|];
    assert y == (p + y + t)[|p|..|p| + |y|];
  }

  /** The state of one `useOnboarding` hook instance. */
  class Onboarding {
    var isOnboardingActive: bool
    var hasCompletedOnboarding: bool

    constructor ()
      ensures !isOnboardingActive && !hasCompletedOnboarding
    {
      isOnboardingActive := false;
      hasCompletedOnboarding := false;
    }

    /** The mount effect: completed exactly when the stored flag reads 'true'
        (`getItem` gives `None` for a missing key). */
    method LoadStored(stored: Option<string>)
      modifies this`hasCompletedOnboarding
      ensures hasCompletedOnboarding <==> stored == Some("true")
    {
      hasCompletedOnboarding := stored == Some("true");
    }

    method StartOnboarding()
      modifies this`isOnboardingActive
      ensures isOnboardingActive
    {
      isOnboardingActive := true;
    }

    method CompleteOnboarding()
      modifies this
      ensures !isOnboardingActive && hasCompletedOnboarding
    {
      isOnboardingActive := false;
      hasCompletedOnboarding := true;
    }

    method SkipOnboarding()
      modifies this
      ensures !isOnboardingActive && hasCompletedOnboarding
    {
      isOnboardingActive := false;
      hasCompletedOnboarding := true;
    }
  }

  /** The tour component. Its `onComplete` and `onSkip` callbacks are the
      hook's `CompleteOnboarding` and `SkipOnboarding`, and its `isActive`
      prop is the hook's `isOnboardingActive`. */
  class Tour {
    var currentStep: nat
    /** `localStorage['onboarding-completed'] === 'true'`. */
    var storedCompleted: bool

    /** The step counter never leaves the five steps. */
    ghost predicate Valid()
      reads this
    {
      currentStep <= LastStep
    }

    constructor (storedCompleted: bool)
      ensures Valid() && currentStep == 0 && this.storedCompleted == storedCompleted
    {
      currentStep := 0;
      this.storedCompleted := storedCompleted;
    }

    /** Nothing renders while the tour is inactive. */
    predicate Renders(hook: Onboarding)
      reads hook
    {
      hook.isOnboardingActive
    }

    /** `completeTour`: records completion and calls `onComplete`. */
    method CompleteTour(hook: Onboarding)
      modifies this`storedCompleted, hook
      ensures storedCompleted && !hook.isOnboardingActive && hook.hasCompletedOnboarding
    {
      storedCompleted := true;
      hook.CompleteOnboarding();
    }

    /** `skipTour`: records completion and calls `onSkip`. */
    method SkipTour(hook: Onboarding)
      modifies this`storedCompleted, hook
      ensures storedCompleted && !hook.isOnboardingActive && hook.hasCompletedOnboarding
      ensures !Renders(hook)
    {
      storedCompleted := true;
      hook.SkipOnboarding();
    }

    /** `nextStep`: moves on below the last step; at the last step it
        finishes the tour without moving. */
    method NextStep(hook: Onboarding)
      requires Valid()
      modifies this, hook
      ensures Valid()
      ensures old(currentStep) < LastStep ==>
        currentStep == old(currentStep) + 1 && storedCompleted == old(storedCompleted) &&
        hook.isOnboardingActive == old(hook.isOnboardingActive) &&
        hook.hasCompletedOnboarding == old(hook.hasCompletedOnboarding)
      ensures old(currentStep) == LastStep ==>
        currentStep == LastStep && storedCompleted && !hook.isOnboardingActive && hook.hasCompletedOnboarding
    {
      if currentStep < |StepIds| - 1 {
        currentStep := currentStep + 1;
      } else {
        CompleteTour(hook);
      }
    }

    /** `previousStep`: moves back above the first step, a no-op at it. */
    method PreviousStep()
      requires Valid()
      modifies this`currentStep
      ensures Valid()
      ensures old(currentStep) > 0 ==> currentStep == old(currentStep) - 1
      ensures old(currentStep) == 0 ==> currentStep == 0
    {
      if currentStep > 0 {
        currentStep := currentStep - 1;
      }
    }

    /** Clicking 'Next' from any step finishes the tour after exactly
        `LastStep - step + 1` clicks, and never earlier. */
    method ClickNextUntilDone(hook: Onboarding) returns (clicks: nat)
      requires Valid() && hook.isOnboardingActive
      modifies this, hook
      ensures Valid() && currentStep == LastStep
      ensures clicks == LastStep - old(currentStep) + 1
      ensures storedCompleted && !hook.isOnboardingActive && hook.hasCompletedOnboarding
    {
      clicks := 0;
      while hook.isOnboardingActive
        invariant Valid()
        invariant hook.isOnboardingActive ==> currentStep == old(currentStep) + clicks
        invariant !hook.isOnboardingActive ==>
          currentStep == LastStep && clicks == LastStep - old(currentStep) + 1 &&
          storedCompleted && hook.hasCompletedOnboarding
        decreases LastStep - currentStep + (if hook.isOnboardingActive then 1 else 0)
      {
        NextStep(hook);
        clicks := clicks + 1;
      }
    }
  }
}
