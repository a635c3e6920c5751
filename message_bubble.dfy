/** The render predicates of one chat bubble: its side, the state of its
    MCQ option buttons and whether suggestion pills appear. */
module MessageBubble {
  import opened Common
  import opened ChatApi
  import ChatArea

  datatype Alignment = Start | End

  /** User messages sit at the end of the row, every other at the start. */
  function Align(m: ChatMessage): (a: Alignment)
    ensures a == End <==> m.sender == UserSender
  {
    if m.sender == UserSender then End else Start
  }

  /** `!!mcq_selected_option`: the option buttons are disabled once an
      answer is recorded. */
  predicate OptionsDisabled(m: ChatMessage) {
    m.mcqSelectedOption.Some? && m.mcqSelectedOption.value != ""
  }

  predicate IsChosen(m: ChatMessage, option: string) {
    m.mcqSelectedOption == Some(option)
  }

  datatype OptionLook = Chosen | Locked | Open

  /** The three styles of an option button: the chosen one, the others of
      an answered question, and every option of an unanswered one. */
  function OptionStyle(m: ChatMessage, option: string): (r: OptionLook)
    ensures r == Chosen <==> IsChosen(m, option)
    ensures r == Locked <==> !IsChosen(m, option) && OptionsDisabled(m)
    ensures r == Open <==> !IsChosen(m, option) && !OptionsDisabled(m)
  {
    if IsChosen(m, option) then Chosen else if OptionsDisabled(m) then Locked else Open
  }

  /** Clicking option `index`: a disabled button fires nothing; an enabled
      one calls the handler with the message id and that option. */
  function Click(m: ChatMessage, index: nat): (r: Option<(string, string)>)
    requires m.mcqOptions.Some? && index < |m.mcqOptions.value.options|
    ensures r.Some? <==> !OptionsDisabled(m)
    ensures r.Some? ==> r.value == (m.id, m.mcqOptions.value.options[index])
  {
    if OptionsDisabled(m) then None else Some((m.id, m.mcqOptions.value.options[index]))
  }

  /** Suggestion pills need a non-empty list and no MCQ. */
  predicate ShowsSuggestions(m: ChatMessage) {
    m.suggestedQuestions.Some? && |m.suggestedQuestions.value| > 0 && m.mcqOptions.None?
  }

  /** Once ChatArea records an answer on a message, none of its options
      can be clicked again, and exactly the recorded one is shown chosen. */
  lemma AnsweredMcqIsFinal(messages: seq<ChatMessage>, id: string, value: string, i: nat, option: string)
    requires value != "" && i < |messages| && messages[i].id == id
    ensures var m := ChatArea.MarkSelected(messages, id, value)[i];
            && OptionsDisabled(m)
            && (OptionStyle(m, option) == Chosen <==> option == value)
            && (m.mcqOptions.Some? ==> forall k :: 0 <= k < |m.mcqOptions.value.options| ==> Click(m, k).None?)
  {
  }

  /** A message with an MCQ never shows suggestion pills, and a message
      awaiting an answer has clickable options. */
  lemma McqHidesSuggestions(m: ChatMessage)
    ensures m.mcqOptions.Some? ==> !ShowsSuggestions(m)
    ensures ChatArea.PendingMcq(m) && |m.mcqOptions.value.options| > 0 ==> Click(m, 0).Some?
  {
  }
}
