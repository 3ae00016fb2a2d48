/** The local stand-in for the AI service used by the session holder
    (src/context/ContentContext.tsx): its English prompt table and `simulateOptimization`.
    `Math.random` in the `improve` branch is a caller-supplied choice per kept sentence, and the
    library case mappings are parameters. */
module Simulation {
  import opened Text
  import opened Modes

  const CustomFallback := "Please optimize this content based on custom instructions:"

  const ImprovePrompt := "Improve this content for clarity and effectiveness, maintaining the original intent and tone:"
  const SimplifyPrompt := "Simplify this content to make it easier to understand, using plain language and shorter sentences:"
  const PersuasivePrompt := "Make this content more persuasive and compelling to drive action:"
  const ProfessionalPrompt := "Refine this content for a professional business context, ensuring it's polished and formal:"
  const CreativePrompt := "Make this content more creative, engaging, and memorable:"

  /** The session holder's own `getPromptForType`. */
  function LocalPrompt(t: OptimizationType, customPromptValue: string): (p: string)
    ensures t == Custom && customPromptValue != [] ==> p == customPromptValue
    ensures t == Custom && customPromptValue == [] ==> p == CustomFallback
  {
    match t
    case Improve => ImprovePrompt
    case Simplify => SimplifyPrompt
    case Persuasive => PersuasivePrompt
    case Professional => ProfessionalPrompt
    case Creative => CreativePrompt
    case Custom => if customPromptValue != [] then customPromptValue else CustomFallback
  }

  /** The five fixed prompts tell their modes apart and never depend on the custom value. */
  lemma LocalPromptsDistinct(t1: OptimizationType, t2: OptimizationType, v1: string, v2: string)
    requires t1 != Custom && t2 != Custom
    ensures LocalPrompt(t1, v1) == LocalPrompt(t2, v2) <==> t1 == t2
  {
    // the five fixed prompts have five different lengths
    assert |ImprovePrompt| == 93 && |SimplifyPrompt| == 98 && |PersuasivePrompt| == 65;
    assert |ProfessionalPrompt| == 91 && |CreativePrompt| == 57;
  }

  const SentenceSeparator := ". "
  const WordSeparator := " "
  /** `simplify` shortens sentences longer than this many characters ... */
  const LongSentence := 15
  /** ... that have more than this many words, down to that many words. */
  const KeptWords := 8
  /** `improve` leaves sentences shorter than this alone. */
  const ShortSentence := 10

  /** One sentence of the `simplify` branch: the sentence or a prefix of it. */
  function Shorten(sentence: string): (r: string)
    ensures r <= sentence
  {
    var words := Split(sentence, WordSeparator);
    if |sentence| > LongSentence && |words| > KeptWords then
      JoinSplit(sentence, WordSeparator);
      JoinPrefix(words, KeptWords, WordSeparator);
      Join(words[..KeptWords], WordSeparator)
    else sentence
  }

  /** `simplify`: shorten every sentence and rejoin with the same separator; the text never
      grows. */
  function SimplifyText(content: string): (r: string)
    ensures |r| <= |content|
  {
    var sentences := Split(content, SentenceSeparator);
    var shortened := seq(|sentences|, k requires 0 <= k < |sentences| => Shorten(sentences[k]));
    JoinLengthMono(shortened, sentences, SentenceSeparator);
    JoinSplit(content, SentenceSeparator);
    Join(shortened, SentenceSeparator)
  }

  lemma SeparatorsDistinctTail()
    ensures forall j :: 0 < j < |SentenceSeparator| ==> SentenceSeparator[j] != SentenceSeparator[0]
    ensures forall j :: 0 < j < |WordSeparator| ==> WordSeparator[j] != WordSeparator[0]
  {
  }

  /** A sentence is either unchanged, or, exactly when it is longer than 15 characters and has
      more than 8 words, cut to a proper prefix whose words are its first 8 words. */
  lemma ShortenSpec(sentence: string)
    ensures Shorten(sentence) != sentence
            <==> |sentence| > LongSentence && |Split(sentence, WordSeparator)| > KeptWords
    ensures Shorten(sentence) != sentence
            ==> Split(Shorten(sentence), WordSeparator) == Split(sentence, WordSeparator)[..KeptWords]
  {
    var words := Split(sentence, WordSeparator);
    JoinSplit(sentence, WordSeparator);
    if |sentence| > LongSentence && |words| > KeptWords {
      var kept := words[..KeptWords];
      JoinSplitAt(words, KeptWords, WordSeparator);
      assert |Join(kept, WordSeparator)| < |sentence|;
      SplitPiecesFree(sentence, WordSeparator);
      SeparatorsDistinctTail();
      forall k | 0 <= k < |kept| ensures Clean(kept[k], WordSeparator) {
        FreeClean(kept[k], WordSeparator);
      }
      SplitJoin(kept, WordSeparator);
    }
  }

  /** Shortening twice is shortening once: a cut sentence has exactly 8 words left. */
  lemma ShortenIdempotent(sentence: string)
    ensures Shorten(Shorten(sentence)) == Shorten(sentence)
  {
    ShortenSpec(sentence);
  }

  /** The sentences of the simplified text are the shortened sentences of the input, one for one. */
  lemma SimplifySentences(content: string)
    ensures
      var sentences := Split(content, SentenceSeparator);
      Split(SimplifyText(content), SentenceSeparator)
      == seq(|sentences|, k requires 0 <= k < |sentences| => Shorten(sentences[k]))
  {
    var sentences := Split(content, SentenceSeparator);
    var shortened := seq(|sentences|, k requires 0 <= k < |sentences| => Shorten(sentences[k]));
    SplitPiecesFree(content, SentenceSeparator);
    SeparatorsDistinctTail();
    forall k | 0 <= k < |shortened| ensures Clean(shortened[k], SentenceSeparator) {
      ShortenSpec(sentences[k]);
      FreePrefix(shortened[k], sentences[k], SentenceSeparator);
      FreeClean(shortened[k], SentenceSeparator);
    }
    SplitJoin(shortened, SentenceSeparator);
  }

  /** Text without a long sentence comes back unchanged. */
  lemma SimplifyKeepsShortText(content: string)
    requires forall s :: s in Split(content, SentenceSeparator) ==>
               |s| <= LongSentence || |Split(s, WordSeparator)| <= KeptWords
    ensures SimplifyText(content) == content
  {
    var sentences := Split(content, SentenceSeparator);
    var shortened := seq(|sentences|, k requires 0 <= k < |sentences| => Shorten(sentences[k]));
    assert shortened == sentences by {
      forall k | 0 <= k < |sentences| ensures shortened[k] == sentences[k] {
        assert sentences[k] in sentences;
      }
    }
    JoinSplit(content, SentenceSeparator);
  }

  /** Simplifying a simplified text changes nothing more. */
  lemma SimplifyIdempotent(content: string)
    ensures SimplifyText(SimplifyText(content)) == SimplifyText(content)
  {
    var once := SimplifyText(content);
    var sentences := Split(content, SentenceSeparator);
    SimplifySentences(content);
    forall s | s in Split(once, SentenceSeparator)
      ensures |s| <= LongSentence || |Split(s, WordSeparator)| <= KeptWords
    {
      var k :| 0 <= k < |sentences| && s == Shorten(sentences[k]);
      ShortenIdempotent(sentences[k]);
      ShortenSpec(s);
    }
    SimplifyKeepsShortText(once);
  }

  /** What `Math.random` picks for one `improve` sentence. */
  datatype ImproveChoice = Indeed | Notably | Capitalize

  /** `toLowerCase` on a string and `toUpperCase` on a one-character string. */
  datatype CaseMapping = CaseMapping(lower: string -> string, upper: string -> string)

  /** The trimmed sentences that are not empty, in order. */
  function KeptSentences(sentences: seq<string>): (kept: seq<string>)
    ensures |kept| <= |sentences|
    ensures forall k :: 0 <= k < |kept| ==> kept[k] != [] && kept[k] in TrimmedAll(sentences)
    ensures forall s :: s in kept <==> s in TrimmedAll(sentences) && s != []
  {
    if sentences == [] then []
    else
      var rest := KeptSentences(sentences[1..]);
      assert TrimmedAll(sentences) == [Trim(sentences[0])] + TrimmedAll(sentences[1..]);
      if Trim(sentences[0]) == [] then rest else [Trim(sentences[0])] + rest
  }

  /** Dropping empty sentences works piece by piece. */
  lemma {:induction false} KeptSentencesAppend(a: seq<string>, b: seq<string>)
    ensures KeptSentences(a + b) == KeptSentences(a) + KeptSentences(b)
    decreases |a|
  {
    if a == [] {
      assert a + b == b;
    } else {
      assert (a + b)[1..] == a[1..] + b;
      KeptSentencesAppend(a[1..], b);
    }
  }

  /** The sentences, trimmed. */
  function TrimmedAll(sentences: seq<string>): (r: seq<string>)
    ensures |r| == |sentences|
  {
    if sentences == [] then [] else [Trim(sentences[0])] + TrimmedAll(sentences[1..])
  }

  /** One sentence of the `improve` branch. */
  function ImproveSentence(sentence: string, choice: ImproveChoice, cm: CaseMapping): string
    requires sentence != []
  {
    if |sentence| < ShortSentence then sentence
    else
      match choice
      case Indeed => "Indeed, " + cm.lower(sentence)
      case Notably => "Notably, " + cm.lower(sentence)
      case Capitalize => cm.upper([sentence[0]]) + sentence[1..]
  }

  /** The `improve` pipeline after the split: trim each sentence, drop the empty ones, and vary
      the k-th kept sentence by `choose(from + k)`. */
  function ImproveAll(sentences: seq<string>, from: nat, choose: nat -> ImproveChoice, cm: CaseMapping): seq<string>
    decreases |sentences|
  {
    if sentences == [] then []
    else
      var t := Trim(sentences[0]);
      if t == [] then ImproveAll(sentences[1..], from, choose, cm)
      else [ImproveSentence(t, choose(from), cm)] + ImproveAll(sentences[1..], from + 1, choose, cm)
  }

  /** The last `.map` of the chain on its own: the k-th kept sentence varied by `choose(from + k)`. */
  function VaryFrom(kept: seq<string>, from: nat, choose: nat -> ImproveChoice, cm: CaseMapping): (varied: seq<string>)
    requires forall k :: 0 <= k < |kept| ==> kept[k] != []
    ensures |varied| == |kept|
    decreases |kept|
  {
    if kept == [] then [] else [ImproveSentence(kept[0], choose(from), cm)] + VaryFrom(kept[1..], from + 1, choose, cm)
  }

  /** The fused pipeline is the source's chain: trim, filter, then vary the kept sentences in order. */
  lemma {:induction false} ImproveAllPipeline(sentences: seq<string>, from: nat, choose: nat -> ImproveChoice, cm: CaseMapping)
    ensures ImproveAll(sentences, from, choose, cm) == VaryFrom(KeptSentences(sentences), from, choose, cm)
    decreases |sentences|
  {
    if sentences != [] {
      var t := Trim(sentences[0]);
      var rest := KeptSentences(sentences[1..]);
      if t == [] {
        ImproveAllPipeline(sentences[1..], from, choose, cm);
      } else {
        ImproveAllPipeline(sentences[1..], from + 1, choose, cm);
        assert KeptSentences(sentences) == [t] + rest;
        assert ([t] + rest)[1..] == rest;
      }
    }
  }

  /** When every kept sentence is short, the pipeline only trims and drops. */
  lemma {:induction false} ImproveAllShort(sentences: seq<string>, from: nat, choose: nat -> ImproveChoice, cm: CaseMapping)
    requires forall s :: s in KeptSentences(sentences) ==> |s| < ShortSentence
    ensures ImproveAll(sentences, from, choose, cm) == KeptSentences(sentences)
    decreases |sentences|
  {
    if sentences != [] {
      var t := Trim(sentences[0]);
      var rest := KeptSentences(sentences[1..]);
      assert forall s :: s in rest ==> s in KeptSentences(sentences);
      if t == [] {
        ImproveAllShort(sentences[1..], from, choose, cm);
      } else {
        assert t in KeptSentences(sentences);
        ImproveAllShort(sentences[1..], from + 1, choose, cm);
      }
    }
  }

  /** `improve`: split, trim, drop the empty sentences, vary each long one, rejoin. */
  function ImproveText(content: string, choose: nat -> ImproveChoice, cm: CaseMapping): string {
    Join(ImproveAll(Split(content, SentenceSeparator), 0, choose, cm), SentenceSeparator)
  }

  /** When every kept sentence is short, `improve` only trims sentences and drops empty ones: the
      random choices and the case mappings do not matter. */
  lemma ImproveShortIsDeterministic(content: string, choose: nat -> ImproveChoice, cm: CaseMapping)
    requires forall s :: s in KeptSentences(Split(content, SentenceSeparator)) ==> |s| < ShortSentence
    ensures ImproveText(content, choose, cm) == Join(KeptSentences(Split(content, SentenceSeparator)), SentenceSeparator)
  {
    ImproveAllShort(Split(content, SentenceSeparator), 0, choose, cm);
  }

  /** A short sentence passes through, whatever the random choice and the case mappings. */
  lemma ImproveShortSentence(sentence: string, choice: ImproveChoice, cm: CaseMapping)
    requires sentence != [] && |sentence| < ShortSentence
    ensures ImproveSentence(sentence, choice, cm) == sentence
  {
  }

  /** A long sentence is always changed by a prefix or, capitalized, keeps all but its first
      character. */
  lemma ImproveLongSentence(sentence: string, choice: ImproveChoice, cm: CaseMapping)
    requires |sentence| >= ShortSentence
    ensures choice == Indeed ==> StartsWith(ImproveSentence(sentence, choice, cm), "Indeed, ")
    ensures choice == Notably ==> StartsWith(ImproveSentence(sentence, choice, cm), "Notably, ")
    ensures choice == Capitalize ==> EndsWith(ImproveSentence(sentence, choice, cm), sentence[1..])
  {
  }

  const PersuasiveTail := " This is a tremendous opportunity that you definitely shouldn't miss. Act now to secure these benefits right away!"
  const ProfessionalOpening := "We are pleased to provide the following information: "
  const ProfessionalClosing := ". Please do not hesitate to contact us if you require any clarification."
  const CreativeOpening := "Imagine a world where "
  const CreativeClosing := " This fascinating possibility opens up endless opportunities for innovation and discovery!"
  const CustomTail := " [Custom optimization applied based on your specific instructions]"

  /** `professional`: first-person singular wording becomes plural, inside a formal frame. */
  function ProfessionalText(content: string): (r: string)
    ensures StartsWith(r, ProfessionalOpening) && EndsWith(r, ProfessionalClosing)
  {
    ProfessionalOpening + ReplaceAll(ReplaceAll(content, "I ", "we "), "My ", "Our ") + ProfessionalClosing
  }

  /** `simulateOptimization(content, type)` */
  function SimulateOptimization(content: string, t: OptimizationType, choose: nat -> ImproveChoice, cm: CaseMapping): (r: string)
    ensures t == Persuasive ==> content <= r && EndsWith(r, PersuasiveTail)
    ensures t == Custom ==> content <= r && EndsWith(r, CustomTail)
    ensures t == Simplify ==> |r| <= |content|
    ensures t == Professional ==> StartsWith(r, ProfessionalOpening) && EndsWith(r, ProfessionalClosing)
    ensures t == Creative ==> StartsWith(r, CreativeOpening) && EndsWith(r, CreativeClosing)
  {
    match t
    case Improve => ImproveText(content, choose, cm)
    case Simplify => SimplifyText(content)
    case Persuasive => content + PersuasiveTail
    case Professional => ProfessionalText(content)
    case Creative => CreativeOpening + cm.lower(content) + CreativeClosing
    case Custom => content + CustomTail
  }

  /**
   * Every mode but `improve` ignores the random choices; `persuasive` and
   * `custom` add exactly their tail, so nothing lies between content and tail.
   */
  lemma SimulationShapes(content: string, t: OptimizationType, choose: nat -> ImproveChoice, choose': nat -> ImproveChoice, cm: CaseMapping)
    ensures t != Improve ==> SimulateOptimization(content, t, choose, cm) == SimulateOptimization(content, t, choose', cm)
    ensures t == Persuasive ==> |SimulateOptimization(content, t, choose, cm)| == |content| + |PersuasiveTail|
    ensures t == Custom ==> |SimulateOptimization(content, t, choose, cm)| == |content| + |CustomTail|
  {
  }

  /** Without "I " or "My " in the content, `professional` only frames it. */
  lemma ProfessionalFramesPlainContent(content: string)
    requires Free(content, "I ") && Free(content, "My ")
    ensures ProfessionalText(content) == ProfessionalOpening + content + ProfessionalClosing
  {
    ReplaceAllFree(content, "I ", "we ");
    ReplaceAllFree(content, "My ", "Our ");
  }
}
