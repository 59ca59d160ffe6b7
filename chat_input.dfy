/** The behaviour of the `ChatInput` component of src/components/ChatInput.tsx: the
    draft message and selected files, the send guard, and the reset after a send.
    Rendering is not modelled. */
module ChatInput {
  import opened Wrappers
  import opened Strings
  import opened ChatTypes

  /** What `onSendMessage` receives: the untrimmed message and the file array. */
  datatype Submission = Submission(message: string, files: seq<File>)

  /** `(message.trim() || files.length > 0) && !disabled`; an absent `disabled` allows sending. */
  predicate MaySend(message: string, files: seq<File>, disabled: Option<bool>): (ok: bool)
    ensures disabled == Some(true) ==> !ok
    ensures IsBlank(message) && files == [] ==> !ok
    ensures disabled != Some(true) && (!IsBlank(message) || files != []) ==> ok
  {
    (!IsBlank(message) || |files| > 0) && !(disabled.Some? && disabled.value)
  }

  class ChatInputState {
    var message: string
    var files: seq<File>

    constructor ()
      ensures message == "" && files == []
    {
      message := "";
      files := [];
    }

    /** Typing into the text area. */
    method SetMessage(text: string)
      modifies this
      ensures message == text && files == old(files)
    {
      message := text;
    }

    /** `handleSubmit`: sends the draft as it is and clears it, or does nothing. */
    method HandleSubmit(disabled: Option<bool>) returns (sent: Option<Submission>)
      modifies this
      ensures sent.Some? <==> MaySend(old(message), old(files), disabled)
      ensures sent.Some? ==> sent.value == Submission(old(message), old(files)) && message == "" && files == []
      ensures sent.None? ==> message == old(message) && files == old(files)
    {
      if MaySend(message, files, disabled) {
        sent := Some(Submission(message, files));
        message := "";
        files := [];
      } else {
        sent := None;
      }
    }

    /** `handleKeyDown`: Enter submits, Shift+Enter does not. */
    method HandleKeyDown(key: string, shiftKey: bool, disabled: Option<bool>) returns (sent: Option<Submission>)
      modifies this
      ensures sent.Some? <==> key == "Enter" && !shiftKey && MaySend(old(message), old(files), disabled)
      ensures sent.Some? ==> sent.value == Submission(old(message), old(files)) && message == "" && files == []
      ensures sent.None? ==> message == old(message) && files == old(files)
    {
      if key == "Enter" && !shiftKey {
        sent := HandleSubmit(disabled);
      } else {
        sent := None;
      }
    }

    /** `handleFileChange`: a selection replaces the list; no selection leaves it. */
    method HandleFileChange(selected: Option<seq<File>>)
      modifies this
      ensures files == (if selected.Some? then selected.value else old(files))
      ensures message == old(message)
    {
      if selected.Some? {
        files := selected.value;
      }
    }
  }
}
