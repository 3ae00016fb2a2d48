/** The mode picker (src/components/PromptPanel.tsx): it keeps its own custom-prompt text and
    forwards selections to its `onSelectPrompt` callback, which is returned here as a value. */
module Panel {
  import opened Wrappers
  import opened Modes

  /** One call of `onSelectPrompt(type, customPrompt?)`; `None` is the omitted argument. */
  datatype SelectCall = SelectCall(mode: OptimizationType, customPrompt: Option<string>)

  /** `PromptPanel`'s local state (the expand/collapse toggle is not modelled). */
  class PromptPanel {
    var customPrompt: string

    constructor()
      ensures customPrompt == []
    {
      customPrompt := [];
    }

    /** `handleSelectPrompt(type)`: `custom` forwards the local text, any other mode forwards no
        text at all. */
    method HandleSelectPrompt(t: OptimizationType) returns (call: SelectCall)
      ensures call.mode == t
      ensures call.customPrompt.Some? <==> t == Custom
      ensures call.customPrompt.Some? ==> call.customPrompt.value == customPrompt
    {
      if t == Custom {
        call := SelectCall(t, Some(customPrompt));
      } else {
        call := SelectCall(t, None);
      }
    }

    /** `handleCustomPromptChange(e)`: the local text always follows the input; it is forwarded,
        as a `custom` selection, only while `custom` is the selected mode. */
    method HandleCustomPromptChange(value: string, selectedType: OptimizationType) returns (call: Option<SelectCall>)
      modifies this
      ensures customPrompt == value
      ensures call.Some? <==> selectedType == Custom
      ensures call.Some? ==> call.value == SelectCall(Custom, Some(value))
    {
      customPrompt := value;
      if selectedType == Custom {
        call := Some(SelectCall(Custom, Some(value)));
      } else {
        call := None;
      }
    }
  }
}
