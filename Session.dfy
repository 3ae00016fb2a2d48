/** The session state holder (src/context/ContentContext.tsx): the texts being worked on, the
    processing flag, the chosen mode, the custom prompt and the history, newest first.

    React state setters are modelled as field updates that take effect when the handler returns;
    a handler that reads state reads the values from before its own setters, which is why the
    history entry saved by `AcceptOptimization` holds the pre-accept pair. */
module Session {
  import opened Wrappers
  import opened Text
  import opened Modes
  import opened HistoryItem
  import opened Simulation

  /** The shortest trimmed content worth optimizing. */
  const MinContentLength := 10

  /** `content.trim().length < 10`: the guard of both the session holder and the editor. */
  predicate TooShort(content: string) {
    |Trim(content)| < MinContentLength
  }

  /** What the completion timer of `optimizeContent` captured: the content and the mode current
      when optimization was requested. */
  datatype PendingOptimization = PendingOptimization(content: string, mode: OptimizationType)

  /** The history after `saveToHistory` with the given texts and mode: a new entry in front when
      both texts are non-empty, otherwise the history unchanged. */
  function WithEntry(history: seq<ContentHistory>, original: string, optimized: string, mode: OptimizationType,
                     id: string, timestamp: int): (r: seq<ContentHistory>)
    ensures original != [] && optimized != [] ==> |r| == |history| + 1 && r[1..] == history
    ensures original == [] || optimized == [] ==> r == history
  {
    if original != [] && optimized != [] then [ContentHistory(id, original, optimized, timestamp, mode)] + history
    else history
  }

  /** The entry a successful save puts first carries exactly the saved texts, mode, id and time. */
  lemma WithEntryHead(history: seq<ContentHistory>, original: string, optimized: string, mode: OptimizationType,
                      id: string, timestamp: int)
    requires original != [] && optimized != []
    ensures
      var r := WithEntry(history, original, optimized, mode, id, timestamp);
      r[0].original == original && r[0].optimized == optimized && r[0].mode == mode
      && r[0].id == id && r[0].timestamp == timestamp
  {
  }

  /** `history.filter(item => item.id !== id)` */
  function RemoveId(history: seq<ContentHistory>, id: string): (r: seq<ContentHistory>)
    ensures |r| <= |history|
    ensures forall e :: e in r <==> e in history && e.id != id
  {
    if history == [] then []
    else
      var rest := RemoveId(history[1..], id);
      if history[0].id == id then rest else [history[0]] + rest
  }

  /** Filtering works piecewise, so the kept entries stay in their order. */
  lemma {:induction false} RemoveIdAppend(a: seq<ContentHistory>, b: seq<ContentHistory>, id: string)
    ensures RemoveId(a + b, id) == RemoveId(a, id) + RemoveId(b, id)
    decreases |a|
  {
    if a == [] {
      assert a + b == b;
    } else {
      assert (a + b)[1..] == a[1..] + b;
      RemoveIdAppend(a[1..], b, id);
    }
  }

  /** Deleting an id no entry has changes nothing. */
  lemma {:induction false} RemoveAbsentId(history: seq<ContentHistory>, id: string)
    requires forall k :: 0 <= k < |history| ==> history[k].id != id
    ensures RemoveId(history, id) == history
    decreases |history|
  {
    if history != [] {
      RemoveAbsentId(history[1..], id);
    }
  }

  /** With ids unique, deleting the id of entry k removes exactly that entry. */
  lemma RemoveUniqueId(history: seq<ContentHistory>, k: nat)
    requires k < |history|
    requires forall i, j :: 0 <= i < j < |history| ==> history[i].id != history[j].id
    ensures RemoveId(history, history[k].id) == history[..k] + history[k + 1..]
  {
    SplitAround(history, k);
    OthersHaveOtherIds(history, k, history[..k], history[k + 1..]);
    RemoveBetween(history[..k], history[k], history[k + 1..]);
  }

  lemma SplitAround<T>(s: seq<T>, k: nat)
    requires k < |s|
    ensures s == s[..k] + ([s[k]] + s[k + 1..])
  {
  }

  /** With ids unique, no entry before or after entry k has its id. */
  lemma OthersHaveOtherIds(history: seq<ContentHistory>, k: nat, before: seq<ContentHistory>, after: seq<ContentHistory>)
    requires k < |history| && before == history[..k] && after == history[k + 1..]
    requires forall i, j :: 0 <= i < j < |history| ==> history[i].id != history[j].id
    ensures forall i :: 0 <= i < |before| ==> before[i].id != history[k].id
    ensures forall i :: 0 <= i < |after| ==> after[i].id != history[k].id
  {
    forall i | 0 <= i < |before| ensures before[i].id != history[k].id {
      assert before[i] == history[i];
    }
    forall i | 0 <= i < |after| ensures after[i].id != history[k].id {
      assert after[i] == history[k + 1 + i];
    }
  }

  /** Deleting the id of an entry that no other entry has leaves the entries around it. */
  lemma RemoveBetween(before: seq<ContentHistory>, entry: ContentHistory, after: seq<ContentHistory>)
    requires forall i :: 0 <= i < |before| ==> before[i].id != entry.id
    requires forall i :: 0 <= i < |after| ==> after[i].id != entry.id
    ensures RemoveId(before + ([entry] + after), entry.id) == before + after
  {
    var id := entry.id;
    RemoveIdAppend(before, [entry] + after, id);
    RemoveIdAppend([entry], after, id);
    RemoveAbsentId(before, id);
    RemoveAbsentId(after, id);
    assert RemoveId([entry], id) == [] by {
      assert [entry][1..] == [];
    }
  }

  /** Deleting the same id twice is deleting it once. */
  lemma {:induction false} RemoveIdIdempotent(history: seq<ContentHistory>, id: string)
    ensures RemoveId(RemoveId(history, id), id) == RemoveId(history, id)
  {
    var r := RemoveId(history, id);
    forall k | 0 <= k < |r| ensures r[k].id != id {
      assert r[k] in r;
    }
    RemoveAbsentId(r, id);
  }

  /** A history with no entry left is empty. */
  lemma NoMemberIsEmpty(history: seq<ContentHistory>)
    ensures (forall e :: e !in history) ==> history == []
  {
    if history != [] {
      assert history[0] in history;
    }
  }

  /** `ContentProvider` */
  class ContentSession {
    var originalContent: string
    var optimizedContent: string
    var isProcessing: bool
    var currentPromptType: OptimizationType
    var customPrompt: string
    var contentHistory: seq<ContentHistory>

    /** The initial state; `saved` is the history read back from storage, `None` when there was
        none or it did not parse. */
    constructor(saved: Option<seq<ContentHistory>>)
      ensures originalContent == [] && optimizedContent == [] && !isProcessing
      ensures currentPromptType == Improve && customPrompt == []
      ensures contentHistory == (if saved.Some? then saved.value else [])
    {
      originalContent := [];
      optimizedContent := [];
      isProcessing := false;
      currentPromptType := Improve;
      customPrompt := [];
      contentHistory := if saved.Some? then saved.value else [];
    }

    /** `optimizeContent(content)` up to the timer: rejects short content without touching the
        state; otherwise marks processing, shows the content as the original and returns what the
        timer captured. */
    method OptimizeContent(content: string) returns (pending: Option<PendingOptimization>)
      modifies this
      ensures TooShort(content) ==> pending.None? && unchanged(this)
      ensures !TooShort(content) ==>
                && pending == Some(PendingOptimization(content, old(currentPromptType)))
                && isProcessing && originalContent == content
                && optimizedContent == old(optimizedContent) && currentPromptType == old(currentPromptType)
                && customPrompt == old(customPrompt) && contentHistory == old(contentHistory)
    {
      if TooShort(content) {
        return None;
      }
      isProcessing := true;
      originalContent := content;
      return Some(PendingOptimization(content, currentPromptType));
    }

    /** The timer body of `optimizeContent`: the simulated rewrite of the captured content in the
        captured mode becomes the optimized text and processing ends. */
    method CompleteOptimization(pending: PendingOptimization, choose: nat -> ImproveChoice, cm: CaseMapping)
      modifies this
      ensures optimizedContent == SimulateOptimization(pending.content, pending.mode, choose, cm)
      ensures !isProcessing
      ensures originalContent == old(originalContent) && currentPromptType == old(currentPromptType)
      ensures customPrompt == old(customPrompt) && contentHistory == old(contentHistory)
    {
      var rewritten := SimulateOptimization(pending.content, pending.mode, choose, cm);
      optimizedContent, isProcessing := rewritten, false;
    }

    /** `acceptOptimization()`: with an optimized text, it becomes the original, the optimized
        text is cleared and the pre-accept pair is saved; otherwise nothing happens. */
    method AcceptOptimization(id: string, timestamp: int)
      modifies this
      ensures old(optimizedContent) == [] ==> unchanged(this)
      ensures old(optimizedContent) != [] ==>
                && originalContent == old(optimizedContent) && optimizedContent == []
                && contentHistory == WithEntry(old(contentHistory), old(originalContent), old(optimizedContent),
                                               old(currentPromptType), id, timestamp)
                && isProcessing == old(isProcessing) && currentPromptType == old(currentPromptType)
                && customPrompt == old(customPrompt)
    {
      if optimizedContent != [] {
        var original, optimized := originalContent, optimizedContent;
        originalContent := optimized;
        optimizedContent := [];
        // `saveToHistory` runs in the same render, on the values captured before the setters
        contentHistory := WithEntry(contentHistory, original, optimized, currentPromptType, id, timestamp);
      }
    }

    /** `saveToHistory()`: puts the current pair in front of the history when both texts are
        non-empty. */
    method SaveToHistory(id: string, timestamp: int)
      modifies this
      ensures contentHistory == WithEntry(old(contentHistory), originalContent, optimizedContent, currentPromptType, id, timestamp)
      ensures originalContent == old(originalContent) && optimizedContent == old(optimizedContent)
      ensures isProcessing == old(isProcessing) && currentPromptType == old(currentPromptType)
      ensures customPrompt == old(customPrompt)
    {
      contentHistory := WithEntry(contentHistory, originalContent, optimizedContent, currentPromptType, id, timestamp);
    }

    /** `deleteHistoryItem(id)` */
    method DeleteHistoryItem(id: string)
      modifies this
      ensures contentHistory == RemoveId(old(contentHistory), id)
      ensures originalContent == old(originalContent) && optimizedContent == old(optimizedContent)
      ensures isProcessing == old(isProcessing) && currentPromptType == old(currentPromptType)
      ensures customPrompt == old(customPrompt)
    {
      contentHistory := RemoveId(contentHistory, id);
    }

    /** `loadFromHistory(item)`: shows a saved pair again in its mode; the history is untouched. */
    method LoadFromHistory(item: ContentHistory)
      modifies this
      ensures originalContent == item.original && optimizedContent == item.optimized
      ensures currentPromptType == item.mode
      ensures isProcessing == old(isProcessing) && customPrompt == old(customPrompt)
      ensures contentHistory == old(contentHistory)
    {
      originalContent := item.original;
      optimizedContent := item.optimized;
      currentPromptType := item.mode;
    }

    /** `setPromptType(type, prompt?)`: the mode always changes; the custom prompt only for
        `custom` with a prompt supplied. */
    method SetPromptType(t: OptimizationType, prompt: Option<string>)
      modifies this
      ensures currentPromptType == t
      ensures customPrompt == (if t == Custom && prompt.Some? then prompt.value else old(customPrompt))
      ensures originalContent == old(originalContent) && optimizedContent == old(optimizedContent)
      ensures isProcessing == old(isProcessing) && contentHistory == old(contentHistory)
    {
      currentPromptType := t;
      if t == Custom && prompt.Some? {
        customPrompt := prompt.value;
      }
    }
  }
}
