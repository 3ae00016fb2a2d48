/** Prompt selection of the API helper (src/lib/api.ts): the user-facing instruction per mode and
    the system prompt looked up in a table with a fallback. */
module Prompts {
  import opened Text
  import opened Modes

  /** The instruction every prompt ends with (keep paragraphs, drop stray asterisks). */
  const PromptSuffix := "请保持适当分段并去除多余的星号标记:"

  /** The separator put between a custom instruction and the suffix (a full-width comma). */
  const CustomSeparator := "，"

  /** The mode-specific instructions the fixed prompts start with. */
  const ImproveInstruction := "改进这段内容，提高清晰度和效果，同时保持原始意图和语调，"
  const SimplifyInstruction := "简化这段内容，使用简单语言和较短句子，让它更容易理解，"
  const PersuasiveInstruction := "让这段内容更有说服力和吸引力，以促使读者采取行动，"
  const ProfessionalInstruction := "将这段内容调整为专业商务风格，确保它精炼且正式，"
  const CreativeInstruction := "让这段内容更有创意，更吸引人，更令人难忘，"

  /** `getPromptForType(type, customPromptValue)`; each fixed prompt is its instruction followed by
      the common suffix. */
  function PromptForType(t: OptimizationType, customPromptValue: string): (p: string)
    ensures EndsWith(p, PromptSuffix)
  {
    match t
    case Improve => ImproveInstruction + PromptSuffix
    case Simplify => SimplifyInstruction + PromptSuffix
    case Persuasive => PersuasiveInstruction + PromptSuffix
    case Professional => ProfessionalInstruction + PromptSuffix
    case Creative => CreativeInstruction + PromptSuffix
    case Custom => (if customPromptValue != [] then customPromptValue + CustomSeparator else []) + PromptSuffix
  }

  /** For `custom`, an empty value gives the bare suffix and any other value is put in front of it
      with a full-width comma. */
  lemma CustomPrompt(v: string)
    ensures v == [] ==> PromptForType(Custom, v) == PromptSuffix
    ensures v != [] ==> PromptForType(Custom, v) == v + CustomSeparator + PromptSuffix
    ensures PromptForType(Custom, v) == PromptSuffix <==> v == []
  {
  }

  /** The five fixed modes ignore the custom text and each has its own instruction. */
  lemma FixedPrompts(t: OptimizationType, u: OptimizationType, a: string, b: string)
    requires t != Custom && u != Custom
    ensures PromptForType(t, a) == PromptForType(t, b)
    ensures PromptForType(t, a) == PromptForType(u, b) <==> t == u
  {
    // the five fixed prompts have five different lengths
    if PromptForType(t, a) == PromptForType(u, b) {
      assert |PromptForType(t, a)| == |PromptForType(u, b)|;
    }
  }

  /** `SYSTEM_PROMPTS`, keyed by mode name plus a `general` entry. The prose is opaque here; each
      entry is a distinct stand-in text. */
  const SystemPrompts: map<string, string> := map[
    "simplify" := "[system prompt: concise-rewriting expert]",
    "improve" := "[system prompt: senior editor]",
    "general" := "[system prompt: plain-language expert]",
    "persuasive" := "[system prompt: marketing copywriter]",
    "professional" := "[system prompt: business writer]",
    "creative" := "[system prompt: creative writer]",
    "custom" := "[system prompt: adaptable copywriter]"
  ]

  const GeneralKey := "general"

  /** `SYSTEM_PROMPTS[key] || SYSTEM_PROMPTS.general`: a missing or empty entry falls back to `general`. */
  function SystemPromptFor(key: string): (r: string)
    ensures r in SystemPrompts.Values
  {
    if key in SystemPrompts && SystemPrompts[key] != [] then SystemPrompts[key] else SystemPrompts[GeneralKey]
  }

  /** `getSystemPrompt(type)`: every mode has its own entry and gets it, never the `general` one. */
  function SystemPrompt(t: OptimizationType): (p: string)
    ensures ModeName(t) in SystemPrompts
    ensures p == SystemPrompts[ModeName(t)]
    ensures p != SystemPrompts[GeneralKey]
  {
    SystemPromptFor(ModeName(t))
  }

  /** The `general` text comes back exactly for a key that is not in the table, or for `general` itself. */
  lemma GeneralOnlyForMissingKey(key: string)
    ensures SystemPromptFor(key) == SystemPrompts[GeneralKey] <==> key !in SystemPrompts || key == GeneralKey
  {
  }
}
