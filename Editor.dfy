/** The text editor (src/components/ContentEditor.tsx): its text, the character counter kept in
    step with it, and the guarded submit. */
module Editor {
  import opened Wrappers
  import opened Session
  import opened Text

  class ContentEditor {
    /** The `initialContent` prop as last rendered. */
    var initialContent: string
    var content: string
    var charCount: nat

    /** The counter effect has run: the counter shows the text's length. */
    predicate Valid()
      reads this
    {
      charCount == |content|
    }

    /** Mounting with a prop: the text starts as the prop and the counter effect runs. */
    constructor(initialContent: string)
      ensures Valid() && content == initialContent && this.initialContent == initialContent
    {
      this.initialContent := initialContent;
      content := initialContent;
      charCount := |initialContent|;
    }

    /** Typing: the text changes and the counter follows. */
    method Edit(value: string)
      modifies this
      ensures Valid() && content == value && initialContent == old(initialContent)
    {
      content := value;
      charCount := |content|;
    }

    /** A re-render with a prop: a new prop replaces the text, an unchanged one leaves it alone. */
    method ReceiveInitialContent(prop: string)
      requires Valid()
      modifies this
      ensures Valid() && initialContent == prop
      ensures content == (if prop != old(initialContent) then prop else old(content))
    {
      if prop != initialContent {
        content := prop;
        charCount := |content|;
      }
      initialContent := prop;
    }

    /** `handleSubmit()`: hands the text to `onSubmit` (returned here) only when its trimmed length
        is at least 10; the text is never changed. */
    method HandleSubmit() returns (submitted: Option<string>)
      ensures submitted.Some? <==> !TooShort(content)
      ensures submitted.Some? ==> submitted.value == content
    {
      if TooShort(content) {
        return None;
      }
      return Some(content);
    }

    /** The submit button: never enabled while processing, and otherwise enabled exactly for the
        text `HandleSubmit` lets through, so a click on an enabled button always submits. */
    function SubmitEnabled(isProcessing: bool): (enabled: bool)
      reads this
      ensures enabled ==> !isProcessing && |Trim(content)| >= MinContentLength
      ensures !isProcessing ==> (enabled <==> !TooShort(content))
    {
      !isProcessing && !TooShort(content)
    }
  }
}
