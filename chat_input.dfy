/** The chat composer: a draft that is sent trimmed and then cleared, the
    Enter/Shift+Enter distinction, and the clamped textarea height. The
    `disabled` and `isLoading` props are method inputs. */
module ChatInput {
  import opened Common

  const MaxHeight := 120
  const EnterKey := "Enter"

  /** The textarea's height for a content height: it follows the content
      up to 120 px. */
  function ClampedHeight(scrollHeight: nat): (h: nat)
    ensures h <= MaxHeight && h <= scrollHeight
    ensures scrollHeight <= MaxHeight ==> h == scrollHeight
    ensures scrollHeight > MaxHeight ==> h == MaxHeight
  {
    Min(scrollHeight, MaxHeight)
  }

  /** The condition under which a submit sends. */
  predicate CanSend(draft: string, disabled: bool, isLoading: bool) {
    Trim(draft) != [] && !disabled && !isLoading
  }

  class Composer {
    var message: string
    var height: nat

    constructor ()
      ensures message == "" && height == 0
    {
      message := "";
      height := 0;
    }

    method HandleChange(text: string)
      modifies this
      ensures message == text && height == old(height)
    {
      message := text;
    }

    /** The effect after each draft change. */
    method Resize(scrollHeight: nat)
      modifies this
      ensures height == ClampedHeight(scrollHeight) && message == old(message)
    {
      height := ClampedHeight(scrollHeight);
    }

    /** handleSubmit: sends the trimmed draft, once, only when it is not
      blank and the composer is neither disabled nor loading; a send
      clears the draft and a refusal leaves it. */
    method HandleSubmit(disabled: bool, isLoading: bool) returns (sent: Option<string>)
      modifies this
      ensures sent.Some? <==> CanSend(old(message), disabled, isLoading)
      ensures sent.Some? ==> sent.value == Trim(old(message)) && sent.value != "" && message == ""
      ensures sent.None? ==> message == old(message)
      ensures height == old(height)
    {
      if CanSend(message, disabled, isLoading) {
        sent := Some(Trim(message));
        message := "";
      } else {
        sent := None;
      }
    }

    /** Enter without Shift submits; every other key, Shift+Enter included,
      is left to the textarea (which adds the newline). */
    method HandleKeyDown(key: string, shiftKey: bool, disabled: bool, isLoading: bool)
      returns (sent: Option<string>, prevented: bool)
      modifies this
      ensures prevented <==> key == EnterKey && !shiftKey
      ensures !prevented ==> sent.None? && message == old(message)
      ensures prevented ==> (sent.Some? <==> CanSend(old(message), disabled, isLoading))
      ensures sent.Some? ==> sent.value == Trim(old(message)) && message == ""
      ensures prevented && sent.None? ==> message == old(message)
      ensures height == old(height)
    {
      if key == EnterKey && !shiftKey {
        prevented := true;
        sent := HandleSubmit(disabled, isLoading);
      } else {
        prevented := false;
        sent := None;
      }
    }
  }

  /** Shift+Enter never sends, whatever the draft. */
  method ShiftEnterKeepsDraft(draft: string) returns (sent: Option<string>, kept: string)
    ensures sent.None? && kept == draft
  {
    var composer := new Composer();
    composer.HandleChange(draft);
    var prevented;
    sent, prevented := composer.HandleKeyDown(EnterKey, true, false, false);
    kept := composer.message;
  }
}
