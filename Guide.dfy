/** The onboarding stepper (src/components/UserGuide.tsx). */
module Guide {

  datatype GuideStep = GuideStep(title: string, content: string)

  /** The five steps, in order. */
  const Steps: seq<GuideStep> := [
    GuideStep("Welcome to FlowOptimize Scribe", "A minimalist tool designed to help you optimize your content with AI assistance."),
    GuideStep("1. Enter your content", "Start by typing or pasting your content in the editor."),
    GuideStep("2. Choose optimization type", "Select how you'd like to optimize your content from the options panel."),
    GuideStep("3. Review and accept", "Compare the original and optimized versions, then accept the changes or try again."),
    GuideStep("4. Access history", "All your optimizations are saved in the history tab for future reference.")
  ]

  const LastStep := |Steps| - 1

  class UserGuide {
    var isOpen: bool
    var step: nat

    /** The step always names one of the five steps. */
    predicate Valid()
      reads this
    {
      step < |Steps|
    }

    /** The guide starts open on the first step. */
    constructor()
      ensures Valid() && isOpen && step == 0
    {
      isOpen := true;
      step := 0;
    }

    /** The step on show. */
    function Current(): (s: GuideStep)
      requires Valid()
      reads this
      ensures s in Steps
    {
      Steps[step]
    }

    /** The forward button reads "Get Started" exactly on the last step. */
    function ButtonLabel(): (caption: string)
      requires Valid()
      reads this
      ensures caption == "Get Started" <==> step == LastStep
    {
      if step < LastStep then "Next" else "Get Started"
    }

    /** `handleNextStep()`: forward one step, or close the guide on the last one. */
    method HandleNextStep()
      requires Valid()
      modifies this
      ensures Valid()
      ensures old(step) < LastStep ==> step == old(step) + 1 && isOpen == old(isOpen)
      ensures old(step) == LastStep ==> step == old(step) && !isOpen
    {
      if step < LastStep {
        step := step + 1;
      } else {
        isOpen := false;
      }
    }

    /** The close button. */
    method Close()
      requires Valid()
      modifies this
      ensures Valid() && !isOpen && step == old(step)
    {
      isOpen := false;
    }

    /** The "Guide" button shown while closed. */
    method Reopen()
      modifies this
      ensures Valid() && isOpen && step == 0
    {
      isOpen := true;
      step := 0;
    }
  }
}
