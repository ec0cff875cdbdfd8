/** components/Composer.tsx: the message box under the chat. A submit, by
    the send button or by Enter without Shift, hands the text as typed to
    `onSend` and empties the box, unless the box is blank or the composer is
    disabled; the box grows with its content up to 128 pixels. */
module Composer {
  import opened Strings
  import ChatPanel

  const MaxHeight: int := 128

  /** The gate of `handleSubmit`: `message.trim() && !disabled`. */
  predicate SubmitAllowed(message: string, disabled: bool) {
    !AllWhitespace(message) && !disabled
  }

  /** The key rule of `handleKeyDown`: Enter without Shift submits. */
  predicate SubmitsOn(key: string, shiftKey: bool) {
    key == "Enter" && !shiftKey
  }

  /** The height effect: `Math.min(scrollHeight, 128)`. */
  function TextareaHeight(scrollHeight: int): (h: int)
    ensures h <= MaxHeight && h <= scrollHeight
    ensures h == scrollHeight || h == MaxHeight
  {
    if scrollHeight < MaxHeight then scrollHeight else MaxHeight
  }

  /** The box never grows past 128 pixels, and content that fits keeps its
      own height. */
  lemma HeightClamp(scrollHeight: int)
    ensures scrollHeight <= MaxHeight ==> TextareaHeight(scrollHeight) == scrollHeight
    ensures scrollHeight >= MaxHeight ==> TextareaHeight(scrollHeight) == MaxHeight
  {
  }

  /** Only a bare Enter submits: Shift+Enter and other keys do not. */
  lemma EnterRule(key: string, shiftKey: bool)
    ensures SubmitsOn(key, shiftKey) <==> key == "Enter" && !shiftKey
    ensures !SubmitsOn("Enter", true)
  {
  }

  /** The chat panel passes its typing flag as `disabled`, so every text the
      composer lets through is one `sendMessage` accepts. */
  lemma SubmissionIsAccepted(message: string, isTyping: bool)
    ensures SubmitAllowed(message, isTyping) <==> ChatPanel.SendAccepted(message, isTyping)
  {
  }

  /** The component's state: the box's text, and the texts handed to
      `onSend`, in order. */
  class Box {
    var message: string
    var sent: seq<string>

    constructor ()
      ensures message == "" && sent == []
    {
      message, sent := "", [];
    }

    /** The textarea's `onChange`. */
    method Edit(text: string)
      modifies this
      ensures message == text && sent == old(sent)
    {
      message := text;
    }

    /** `handleSubmit`: a submit that fires sends the untrimmed text and
        empties the box; a blocked one changes nothing. */
    method HandleSubmit(disabled: bool)
      modifies this
      ensures SubmitAllowed(old(message), disabled) ==> sent == old(sent) + [old(message)] && message == ""
      ensures !SubmitAllowed(old(message), disabled) ==> sent == old(sent) && message == old(message)
    {
      var blank := IsBlank(message);
      if !blank && !disabled {
        sent := sent + [message];
        message := "";
      }
    }

    /** `handleKeyDown`; returns whether the default action (a new line) is
        prevented. */
    method HandleKeyDown(key: string, shiftKey: bool, disabled: bool) returns (preventDefault: bool)
      modifies this
      ensures preventDefault == SubmitsOn(key, shiftKey)
      ensures SubmitsOn(key, shiftKey) && SubmitAllowed(old(message), disabled) ==>
                sent == old(sent) + [old(message)] && message == ""
      ensures !(SubmitsOn(key, shiftKey) && SubmitAllowed(old(message), disabled)) ==>
                sent == old(sent) && message == old(message)
    {
      preventDefault := key == "Enter" && !shiftKey;
      if preventDefault {
        HandleSubmit(disabled);
      }
    }
  }
}
