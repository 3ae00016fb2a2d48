/** The optimization modes and their descriptions (src/components/PromptPanel.tsx). */
module Modes {

  /** `OptimizationType`: the closed set of rewriting styles. */
  datatype OptimizationType = Improve | Simplify | Persuasive | Professional | Creative | Custom

  /** The six modes in the order the panel lists them. */
  const AllModes: seq<OptimizationType> := [Improve, Simplify, Persuasive, Professional, Creative, Custom]

  /** The enumeration has exactly six members and `AllModes` lists each once. */
  lemma AllModesExact()
    ensures |AllModes| == 6
    ensures forall t: OptimizationType :: t in AllModes
    ensures forall i, j :: 0 <= i < j < |AllModes| ==> AllModes[i] != AllModes[j]
  {
    forall t: OptimizationType ensures t in AllModes {
      match t
      case Improve => assert AllModes[0] == t;
      case Simplify => assert AllModes[1] == t;
      case Persuasive => assert AllModes[2] == t;
      case Professional => assert AllModes[3] == t;
      case Creative => assert AllModes[4] == t;
      case Custom => assert AllModes[5] == t;
    }
  }

  /** The string literal that stands for each mode in the source. */
  function ModeName(t: OptimizationType): (name: string)
    ensures name != []
  {
    match t
    case Improve => "improve"
    case Simplify => "simplify"
    case Persuasive => "persuasive"
    case Professional => "professional"
    case Creative => "creative"
    case Custom => "custom"
  }

  /** Different modes have different names. */
  lemma ModeNameInjective(t: OptimizationType, u: OptimizationType)
    requires ModeName(t) == ModeName(u)
    ensures t == u
  {
    // the names differ in their first two characters
    assert ModeName(t)[..2] == ModeName(u)[..2];
  }

  const ImproveDescription := "General improvement for clarity and effectiveness"
  const SimplifyDescription := "Make the content easier to understand"
  const PersuasiveDescription := "Enhance persuasiveness and conversion potential"
  const ProfessionalDescription := "Refine for a professional, business context"
  const CreativeDescription := "Make the content more engaging and creative"
  const CustomDescription := "Use your own custom prompt"

  /** `promptDescriptions`: a description for every mode (a total `Record`). */
  function Description(t: OptimizationType): (d: string)
    ensures d != []
  {
    match t
    case Improve => ImproveDescription
    case Simplify => SimplifyDescription
    case Persuasive => PersuasiveDescription
    case Professional => ProfessionalDescription
    case Creative => CreativeDescription
    case Custom => CustomDescription
  }

  /** Each mode is described by its own text. */
  lemma DescriptionInjective(t: OptimizationType, u: OptimizationType)
    requires Description(t) == Description(u)
    ensures t == u
  {
    // the lengths differ, except for the two 43-character texts, whose last characters differ
    assert |Description(t)| == |Description(u)|;
    if |Description(t)| == 43 {
      assert Description(t)[42] == Description(u)[42];
    }
  }
}
