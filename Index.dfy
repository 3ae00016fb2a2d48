/** The editor page's wiring (src/pages/Index.tsx): the panel's callback is `setPromptType`, the
    editor's is `optimizeContent`, and the editor's prop is the session's original text. */
module Index {
  import opened Wrappers
  import opened Modes
  import opened Session
  import opened Panel
  import opened Editor

  /** Clicking a mode: the session takes the mode, and its custom prompt changes only for
      `custom`, to the panel's text. */
  method SelectPrompt(panel: PromptPanel, session: ContentSession, t: OptimizationType)
    modifies session
    ensures session.currentPromptType == t
    ensures session.customPrompt == (if t == Custom then panel.customPrompt else old(session.customPrompt))
    ensures session.originalContent == old(session.originalContent) && session.optimizedContent == old(session.optimizedContent)
    ensures session.isProcessing == old(session.isProcessing) && session.contentHistory == old(session.contentHistory)
  {
    var call := panel.HandleSelectPrompt(t);
    session.SetPromptType(call.mode, call.customPrompt);
  }

  /** Typing a custom prompt: the panel keeps it, and the session's custom prompt follows only
      while `custom` is the session's mode; the mode itself does not change. */
  method EditCustomPrompt(panel: PromptPanel, session: ContentSession, value: string)
    modifies panel, session
    ensures panel.customPrompt == value
    ensures session.currentPromptType == old(session.currentPromptType)
    ensures session.customPrompt == (if old(session.currentPromptType) == Custom then value else old(session.customPrompt))
    ensures session.originalContent == old(session.originalContent) && session.optimizedContent == old(session.optimizedContent)
    ensures session.isProcessing == old(session.isProcessing) && session.contentHistory == old(session.contentHistory)
  {
    var call := panel.HandleCustomPromptChange(value, session.currentPromptType);
    if call.Some? {
      session.SetPromptType(call.value.mode, call.value.customPrompt);
    }
  }

  /** Submitting: the editor's guard and the session's guard agree, so short text changes
      nothing, and any other text starts an optimization of exactly that text in the current
      mode; the editor's text survives the new prop it receives. Between renders the editor's prop
      is the session's original text. */
  method Submit(editor: ContentEditor, session: ContentSession) returns (pending: Option<PendingOptimization>)
    requires editor.Valid() && editor.initialContent == session.originalContent
    modifies editor, session
    ensures TooShort(old(editor.content)) ==> pending.None? && unchanged(session)
    ensures !TooShort(old(editor.content)) ==>
              && pending == Some(PendingOptimization(old(editor.content), old(session.currentPromptType)))
              && session.isProcessing && session.originalContent == old(editor.content)
              && session.contentHistory == old(session.contentHistory)
              && session.optimizedContent == old(session.optimizedContent)
              && session.currentPromptType == old(session.currentPromptType)
              && session.customPrompt == old(session.customPrompt)
    ensures editor.Valid() && editor.content == old(editor.content) && editor.initialContent == session.originalContent
  {
    var submitted := editor.HandleSubmit();
    pending := None;
    if submitted.Some? {
      pending := session.OptimizeContent(submitted.value);
    }
    editor.ReceiveInitialContent(session.originalContent);
  }
}
