/** The chat screen: the message list with its optimistic user message,
    the per-session question quota, the one pending multiple-choice
    question, and the typed-out welcome line. Each backend call is
    replaced by its outcome; timestamps and ids come in as parameters. */
module ChatArea {
  import opened Common
  import opened ChatApi

  const InitialRemaining := 4
  const QuotaMarker := "maximum"
  const DefaultWelcome := "Hello! I'm Potato Guru, your expert advisor for cold storage. How can I help you today?"

  /** The fields of a question reply the screen reads. */
  datatype AskReply = AskReply(
    sessionId: Option<string>, kind: Option<ResponseType>, responseMessage: string,
    suggestions: Option<seq<string>>, mcq: Option<McqOption>, mcqMessageId: Option<string>,
    remainingQuestions: int)

  /** A question submission either resolves (with or without a `data`
      record) or throws, possibly with the server's `message`. */
  datatype AskOutcome = Replied(data: Option<AskReply>) | AskThrew(message: Option<string>)

  datatype McqReply = McqReply(message: string, suggestions: Option<seq<string>>, remainingQuestions: int)

  datatype McqOutcome = McqReplied(data: McqReply) | McqThrew

  datatype HistoryOutcome = History(messages: seq<ChatMessage>, remainingQuestions: int, canAskQuestion: bool) | HistoryFailed

  datatype CreateOutcome = Created(sessionId: string, welcomeMessage: Option<string>) | CreateFailed

  /** A bot question still waiting for its answer: options present, no
      (truthy) chosen option. */
  predicate PendingMcq(m: ChatMessage) {
    m.mcqOptions.Some? && (m.mcqSelectedOption.None? || m.mcqSelectedOption == Some(""))
  }

  /** The composer is disabled while an MCQ is pending, and once asking is
      blocked with nothing left. The limit banner uses the second half. */
  predicate InputDisabled(waitingForMcq: bool, canAskQuestion: bool, remainingQuestions: int)
    ensures waitingForMcq ==> InputDisabled(waitingForMcq, canAskQuestion, remainingQuestions)
    ensures canAskQuestion || remainingQuestions != 0 ==>
              (InputDisabled(waitingForMcq, canAskQuestion, remainingQuestions) <==> waitingForMcq)
  {
    waitingForMcq || (!canAskQuestion && remainingQuestions == 0)
  }

  function Truthy(s: Option<string>): bool {
    s.Some? && s.value != ""
  }

  /** The optimistic user message for `question`. */
  function UserMessage(id: string, sequenceNumber: int, question: string, now: string): (m: ChatMessage)
    ensures m.sender == UserSender && m.messageText == question && m.id == id && m.sequenceNumber == sequenceNumber
    ensures !PendingMcq(m)
  {
    ChatMessage(id, sequenceNumber, UserSender, question, Question, None, None, None, now)
  }

  /** The bot message built from a question reply: it takes the MCQ id as
      its own id when there is one. */
  function AnswerMessage(stamp: string, sequenceNumber: int, d: AskReply, now: string): (m: ChatMessage)
    ensures m.sender == BotSender && m.sequenceNumber == sequenceNumber && m.messageText == d.responseMessage
    ensures m.id == (if Truthy(d.mcqMessageId) then d.mcqMessageId.value else "bot-" + stamp)
    ensures m.mcqOptions == d.mcq && m.mcqSelectedOption == None && m.suggestedQuestions == d.suggestions
  {
    ChatMessage(if Truthy(d.mcqMessageId) then d.mcqMessageId.value else "bot-" + stamp,
                sequenceNumber, BotSender, d.responseMessage, Response, d.suggestions, d.mcq, None, now)
  }

  /** The bot follow-up to an MCQ answer; it never asks another MCQ. */
  function FollowUpMessage(stamp: string, sequenceNumber: int, d: McqReply, now: string): (m: ChatMessage)
    ensures m.sender == BotSender && m.id == "bot-" + stamp && m.sequenceNumber == sequenceNumber
    ensures m.messageText == d.message && m.suggestedQuestions == d.suggestions
    ensures !PendingMcq(m)
  {
    ChatMessage("bot-" + stamp, sequenceNumber, BotSender, d.message, Response, d.suggestions, None, None, now)
  }

  /** Recording the chosen option on every message with `id`. */
  function MarkSelected(messages: seq<ChatMessage>, id: string, value: string): (r: seq<ChatMessage>)
    ensures |r| == |messages|
    ensures forall i :: 0 <= i < |r| && messages[i].id == id ==> r[i] == messages[i].(mcqSelectedOption := Some(value))
    ensures forall i :: 0 <= i < |r| && messages[i].id != id ==> r[i] == messages[i]
  {
    if |messages| == 0 then []
    else
      var head := if messages[0].id == id then messages[0].(mcqSelectedOption := Some(value)) else messages[0];
      [head] + MarkSelected(messages[1..], id, value)
  }

  /** Once a non-empty option is recorded on a message it is no longer
      pending, and no other message changes whether it is pending. */
  lemma MarkSelectedAnswers(messages: seq<ChatMessage>, id: string, value: string)
    requires value != ""
    ensures forall i :: 0 <= i < |messages| ==>
      (PendingMcq(MarkSelected(messages, id, value)[i]) <==> messages[i].id != id && PendingMcq(messages[i]))
  {
  }

  /** The MCQ state after a history load, as written: it is only ever set,
      from a pending last message, and otherwise kept from before. */
  function HistoryMcqStateAsWritten(messages: seq<ChatMessage>, waiting: bool, id: Option<string>): (bool, Option<string>) {
    if |messages| > 0 && PendingMcq(messages[|messages| - 1]) then (true, Some(messages[|messages| - 1].id))
    else (waiting, id)
  }

  /** As written, a pending MCQ of the previous session keeps the composer
      disabled in a freshly loaded session that has none. */
  lemma StaleMcqBlocksNewSession()
    ensures var loaded := [ChatMessage("m7", 1, UserSender, "hi", Question, None, None, None, "")];
            var (waiting, id) := HistoryMcqStateAsWritten(loaded, true, Some("mcq-1"));
            && !PendingMcq(loaded[0])
            && waiting && id == Some("mcq-1") && InputDisabled(waiting, true, 4)
  {
  }

  /** The MCQ state a history load establishes: the loaded session is
      waiting exactly when its last message is a pending MCQ. */
  function HistoryMcqState(messages: seq<ChatMessage>): (r: (bool, Option<string>))
    ensures r.0 <==> |messages| > 0 && PendingMcq(messages[|messages| - 1])
    ensures r.0 ==> r.1 == Some(messages[|messages| - 1].id)
    ensures !r.0 ==> r.1 == None
  {
    if |messages| > 0 && PendingMcq(messages[|messages| - 1]) then (true, Some(messages[|messages| - 1].id))
    else (false, None)
  }

  /** The corrected load agrees with the written one whenever no MCQ was
      pending before, so the two differ only in the stale case. */
  lemma HistoryMcqStateAgrees(messages: seq<ChatMessage>)
    ensures HistoryMcqState(messages) == HistoryMcqStateAsWritten(messages, false, None)
  {
  }

  /** After a corrected load without a pending MCQ, only the quota can
      disable the composer. */
  lemma LoadedSessionNotBlockedByMcq(messages: seq<ChatMessage>, canAsk: bool, remaining: int)
    requires |messages| == 0 || !PendingMcq(messages[|messages| - 1])
    ensures InputDisabled(HistoryMcqState(messages).0, canAsk, remaining) <==> !canAsk && remaining == 0
  {
  }

  /** The no-session reset as written: messages, quota and welcome state
      are reset, the MCQ state is kept. Fields: (messages, remaining,
      canAsk, waiting, id). */
  function NoSessionResetAsWritten(waiting: bool, id: Option<string>)
    : (seq<ChatMessage>, int, bool, bool, Option<string>)
  {
    ([], InitialRemaining, true, waiting, id)
  }

  /** As written, leaving a session with a pending MCQ for the session
      list keeps the MCQ flags; the list view has no composer, but the
      next session opened from it (here a freshly created one, whose
      history is empty and whose quota is untouched) loads with those
      flags still set, so its composer is disabled. */
  lemma NewChatBlockedByStaleMcq()
    ensures var (msgs, _, _, waiting, id) := NoSessionResetAsWritten(true, Some("mcq-1"));
            var (waitingAfterLoad, idAfterLoad) := HistoryMcqStateAsWritten([], waiting, id);
            && msgs == []
            && waitingAfterLoad && idAfterLoad == Some("mcq-1")
            && InputDisabled(waitingAfterLoad, true, InitialRemaining)
  {
  }

  /** One tick of the welcome typing effect: one more character while the
      shown text is shorter. Returns the shown text and whether typing
      continues. */
  function TypeStep(welcome: string, displayed: string): (r: (string, bool))
    requires |displayed| <= |welcome| && displayed == welcome[..|displayed|]
    ensures |r.0| <= |welcome| && r.0 == welcome[..|r.0|]
    ensures r.1 <==> |displayed| < |welcome|
    ensures r.1 ==> |r.0| == |displayed| + 1
    ensures !r.1 ==> r.0 == displayed
  {
    if |displayed| < |welcome| then (welcome[..|displayed| + 1], true) else (displayed, false)
  }

  /** The shown text after `n` ticks from `displayed`. */
  function TypeSteps(welcome: string, displayed: string, n: nat): (r: string)
    requires |displayed| <= |welcome| && displayed == welcome[..|displayed|]
    ensures |r| <= |welcome| && r == welcome[..|r|]
    decreases n
  {
    if n == 0 then displayed else TypeSteps(welcome, TypeStep(welcome, displayed).0, n - 1)
  }

  /** Starting from nothing, n ticks show exactly the first min(n, |welcome|)
      characters. */
  lemma {:induction false} TypingShowsPrefix(welcome: string, displayed: string, n: nat)
    requires |displayed| <= |welcome| && displayed == welcome[..|displayed|]
    ensures TypeSteps(welcome, displayed, n) == welcome[..Min(|displayed| + n, |welcome|)]
    decreases n
  {
    if n > 0 {
      var next := TypeStep(welcome, displayed).0;
      TypingShowsPrefix(welcome, next, n - 1);
      if |displayed| < |welcome| {
        assert |next| == |displayed| + 1;
      } else {
        assert displayed == welcome;
      }
    }
  }

  class Chat {
    var sessionId: Option<string>
    var messages: seq<ChatMessage>
    var remainingQuestions: int
    var canAskQuestion: bool
    var isLoading: bool
    var waitingForMcq: bool
    var currentMcqMessageId: Option<string>
    var welcomeMessage: string
    var displayedWelcome: string
    var isWelcomeTyping: bool
    var typingMessageId: Option<string>

    constructor ()
      ensures sessionId == None && messages == [] && remainingQuestions == InitialRemaining && canAskQuestion
      ensures !isLoading && !waitingForMcq && currentMcqMessageId == None
      ensures welcomeMessage == "" && displayedWelcome == "" && !isWelcomeTyping && typingMessageId == None
      ensures Valid()
    {
      sessionId := None;
      messages := [];
      remainingQuestions := InitialRemaining;
      canAskQuestion := true;
      isLoading := false;
      waitingForMcq := false;
      currentMcqMessageId := None;
      welcomeMessage := "";
      displayedWelcome := "";
      isWelcomeTyping := false;
      typingMessageId := None;
    }

    /** The welcome text shown is always a prefix of the welcome line, and a
      pending MCQ always has its message id. */
    predicate Valid()
      reads this
    {
      && |displayedWelcome| <= |welcomeMessage| && displayedWelcome == welcomeMessage[..|displayedWelcome|]
      && (waitingForMcq ==> currentMcqMessageId.Some?)
    }

    predicate ComposerDisabled()
      reads this
      ensures waitingForMcq ==> ComposerDisabled()
      ensures !waitingForMcq ==> (ComposerDisabled() <==> !canAskQuestion && remainingQuestions == 0)
    {
      InputDisabled(waitingForMcq, canAskQuestion, remainingQuestions)
    }

    /** The session effect, corrected: a session's history is loaded with
      the MCQ state taken from it alone (HistoryMcqState), and no session
      resets the screen including the MCQ state. The source keeps that
      state in both cases (HistoryMcqStateAsWritten, NoSessionResetAsWritten). */
    method ChangeSession(sid: Option<string>, history: HistoryOutcome)
      requires Valid()
      modifies this
      ensures Valid() && sessionId == sid
      ensures Truthy(sid) && history.History? ==>
                && messages == history.messages && remainingQuestions == history.remainingQuestions
                && canAskQuestion == history.canAskQuestion
                && (waitingForMcq, currentMcqMessageId) == HistoryMcqState(history.messages)
                && !isLoading
      ensures Truthy(sid) && history.HistoryFailed? ==>
                && messages == old(messages) && remainingQuestions == old(remainingQuestions)
                && canAskQuestion == old(canAskQuestion) && waitingForMcq == old(waitingForMcq)
                && currentMcqMessageId == old(currentMcqMessageId) && !isLoading
      ensures Truthy(sid) ==>
                welcomeMessage == old(welcomeMessage) && displayedWelcome == old(displayedWelcome)
                && isWelcomeTyping == old(isWelcomeTyping)
      ensures !Truthy(sid) ==>
                && messages == [] && remainingQuestions == InitialRemaining && canAskQuestion
                && !waitingForMcq && currentMcqMessageId == None
                && welcomeMessage == "" && displayedWelcome == "" && !isWelcomeTyping
                && isLoading == old(isLoading)
      ensures typingMessageId == old(typingMessageId)
    {
      sessionId := sid;
      if Truthy(sid) {
        isLoading := true;
        match history {
          case History(loaded, remaining, canAsk) =>
            LoadHistory(loaded, remaining, canAsk);
          case HistoryFailed =>
        }
        isLoading := false;
      } else {
        ResetScreen();
      }
    }

    /** A loaded history replaces the messages and the quota, and, as
      corrected, the MCQ state is derived from it alone. */
    method LoadHistory(loaded: seq<ChatMessage>, remaining: int, canAsk: bool)
      requires Valid()
      modifies this
      ensures Valid()
      ensures messages == loaded && remainingQuestions == remaining && canAskQuestion == canAsk
      ensures (waitingForMcq, currentMcqMessageId) == HistoryMcqState(loaded)
      ensures sessionId == old(sessionId) && isLoading == old(isLoading) && typingMessageId == old(typingMessageId)
      ensures welcomeMessage == old(welcomeMessage) && displayedWelcome == old(displayedWelcome)
      ensures isWelcomeTyping == old(isWelcomeTyping)
    {
      messages := loaded;
      remainingQuestions := remaining;
      canAskQuestion := canAsk;
      var (waiting, id) := HistoryMcqState(loaded);
      waitingForMcq := waiting;
      currentMcqMessageId := id;
    }

    /** The no-session reset, corrected: the MCQ state is cleared as well. */
    method ResetScreen()
      modifies this
      ensures Valid()
      ensures messages == [] && remainingQuestions == InitialRemaining && canAskQuestion
      ensures !waitingForMcq && currentMcqMessageId == None
      ensures welcomeMessage == "" && displayedWelcome == "" && !isWelcomeTyping
      ensures sessionId == old(sessionId) && isLoading == old(isLoading) && typingMessageId == old(typingMessageId)
    {
      messages := [];
      remainingQuestions := InitialRemaining;
      canAskQuestion := true;
      waitingForMcq := false;
      currentMcqMessageId := None;
      welcomeMessage := "";
      displayedWelcome := "";
      isWelcomeTyping := false;
    }

    /** Creating a session starts typing its welcome line (or the default
      one) and returns the id handed to the page. */
    method CreateSession(outcome: CreateOutcome) returns (created: Option<string>)
      requires Valid()
      modifies this
      ensures Valid()
      ensures outcome.Created? ==>
                && created == Some(outcome.sessionId)
                && welcomeMessage == (if Truthy(outcome.welcomeMessage) then outcome.welcomeMessage.value else DefaultWelcome)
                && displayedWelcome == "" && isWelcomeTyping
      ensures outcome.CreateFailed? ==>
                created == None && welcomeMessage == old(welcomeMessage) && displayedWelcome == old(displayedWelcome)
                && isWelcomeTyping == old(isWelcomeTyping)
      ensures sessionId == old(sessionId) && messages == old(messages) && remainingQuestions == old(remainingQuestions)
      ensures canAskQuestion == old(canAskQuestion) && waitingForMcq == old(waitingForMcq)
      ensures currentMcqMessageId == old(currentMcqMessageId) && isLoading == old(isLoading)
      ensures typingMessageId == old(typingMessageId)
    {
      match outcome {
        case Created(id, welcome) =>
          welcomeMessage := if Truthy(welcome) then welcome.value else DefaultWelcome;
          displayedWelcome := "";
          isWelcomeTyping := true;
          created := Some(id);
        case CreateFailed =>
          created := None;
      }
    }

    /** One 20 ms tick of the typing effect. */
    method TypeWelcome()
      requires Valid()
      modifies this
      ensures Valid()
      ensures welcomeMessage != "" && old(isWelcomeTyping) ==>
                (displayedWelcome, isWelcomeTyping) == TypeStep(old(welcomeMessage), old(displayedWelcome))
      ensures !(welcomeMessage != "" && old(isWelcomeTyping)) ==>
                displayedWelcome == old(displayedWelcome) && isWelcomeTyping == old(isWelcomeTyping)
      ensures welcomeMessage == old(welcomeMessage) && sessionId == old(sessionId) && messages == old(messages)
      ensures remainingQuestions == old(remainingQuestions) && canAskQuestion == old(canAskQuestion)
      ensures waitingForMcq == old(waitingForMcq) && currentMcqMessageId == old(currentMcqMessageId)
      ensures isLoading == old(isLoading) && typingMessageId == old(typingMessageId)
    {
      if welcomeMessage != "" && isWelcomeTyping {
        var (shown, typing) := TypeStep(welcomeMessage, displayedWelcome);
        displayedWelcome := shown;
        isWelcomeTyping := typing;
      }
    }

    /** handleSendMessage, run to completion. `stamp` and `now` stand for
      the clock readings the ids and timestamps are made from. Returns the
      session id handed to the page when the reply opened a new session. */
    method HandleSendMessage(question: string, stamp: string, now: string, outcome: AskOutcome)
      returns (createdSession: Option<string>)
      requires Valid()
      modifies this
      ensures Valid()
      ensures !old(canAskQuestion) || old(waitingForMcq) ==>
                && createdSession == None && messages == old(messages)
                && remainingQuestions == old(remainingQuestions) && canAskQuestion == old(canAskQuestion)
                && waitingForMcq == old(waitingForMcq) && currentMcqMessageId == old(currentMcqMessageId)
                && isLoading == old(isLoading) && typingMessageId == old(typingMessageId)
      ensures old(canAskQuestion) && !old(waitingForMcq) ==>
        var user := UserMessage("temp-" + stamp, |old(messages)| + 1, question, now);
        && !isLoading
        && (createdSession.Some? <==> !Truthy(old(sessionId)) && outcome.Replied? && outcome.data.Some?
                                      && Truthy(outcome.data.value.sessionId))
        && (createdSession.Some? ==> createdSession == outcome.data.value.sessionId)
        && (outcome.Replied? && outcome.data.None? ==>
              messages == old(messages) + [user] && remainingQuestions == old(remainingQuestions)
              && canAskQuestion && waitingForMcq == old(waitingForMcq)
              && currentMcqMessageId == old(currentMcqMessageId) && typingMessageId == old(typingMessageId))
        && (outcome.Replied? && outcome.data.Some? ==>
              var d := outcome.data.value;
              var bot := AnswerMessage(stamp, |old(messages)| + 2, d, now);
              && messages == old(messages) + [user, bot]
              && remainingQuestions == d.remainingQuestions
              && typingMessageId == Some(bot.id)
              && (canAskQuestion <==> d.remainingQuestions != 0)
              && (d.kind == Some(Mcq) && Truthy(d.mcqMessageId) ==>
                    waitingForMcq && currentMcqMessageId == d.mcqMessageId)
              && (!(d.kind == Some(Mcq) && Truthy(d.mcqMessageId)) ==>
                    !waitingForMcq && currentMcqMessageId == old(currentMcqMessageId)))
        && (outcome.AskThrew? ==>
              messages == old(messages) && waitingForMcq == old(waitingForMcq)
              && currentMcqMessageId == old(currentMcqMessageId) && typingMessageId == old(typingMessageId)
              && (Truthy(outcome.message) && Contains(outcome.message.value, QuotaMarker) ==>
                    !canAskQuestion && remainingQuestions == 0)
              && (!(Truthy(outcome.message) && Contains(outcome.message.value, QuotaMarker)) ==>
                    canAskQuestion && remainingQuestions == old(remainingQuestions)))
      ensures sessionId == old(sessionId) && welcomeMessage == old(welcomeMessage)
      ensures displayedWelcome == old(displayedWelcome) && isWelcomeTyping == old(isWelcomeTyping)
    {
      createdSession := None;
      if !canAskQuestion || waitingForMcq {
        return;
      }
      var before := messages;
      var user := UserMessage("temp-" + stamp, |before| + 1, question, now);
      messages := before + [user];
      isLoading := true;
      match outcome {
        case Replied(data) =>
          if !Truthy(sessionId) && data.Some? && Truthy(data.value.sessionId) {
            createdSession := data.value.sessionId;
          }
          if data.Some? {
            ShowAnswer(before, user, AnswerMessage(stamp, |before| + 2, data.value, now), data.value);
          }
        case AskThrew(message) =>
          RollBack(before, message);
      }
      isLoading := false;
    }

    /** The success branch of handleSendMessage: the optimistic message is
      replaced by itself and the bot answer, and the flags follow the reply. */
    method ShowAnswer(before: seq<ChatMessage>, user: ChatMessage, bot: ChatMessage, d: AskReply)
      requires Valid() && messages == before + [user]
      modifies this
      ensures Valid()
      ensures messages == before + [user, bot] && remainingQuestions == d.remainingQuestions
      ensures typingMessageId == Some(bot.id)
      ensures canAskQuestion <==> old(canAskQuestion) && d.remainingQuestions != 0
      ensures d.kind == Some(Mcq) && Truthy(d.mcqMessageId) ==> waitingForMcq && currentMcqMessageId == d.mcqMessageId
      ensures !(d.kind == Some(Mcq) && Truthy(d.mcqMessageId)) ==>
                waitingForMcq == old(waitingForMcq) && currentMcqMessageId == old(currentMcqMessageId)
      ensures sessionId == old(sessionId) && welcomeMessage == old(welcomeMessage) && isLoading == old(isLoading)
      ensures displayedWelcome == old(displayedWelcome) && isWelcomeTyping == old(isWelcomeTyping)
    {
      assert messages[..|messages| - 1] == before;
      remainingQuestions := d.remainingQuestions;
      messages := messages[..|messages| - 1] + [user, bot];
      typingMessageId := Some(bot.id);
      if d.kind == Some(Mcq) && Truthy(d.mcqMessageId) {
        waitingForMcq := true;
        currentMcqMessageId := d.mcqMessageId;
      }
      if d.remainingQuestions == 0 {
        canAskQuestion := false;
      }
    }

    /** The error branch of handleSendMessage: the optimistic message is
      removed, and a quota error blocks asking with nothing left. */
    method RollBack(before: seq<ChatMessage>, message: Option<string>)
      requires Valid() && |messages| == |before| + 1 && messages[..|before|] == before
      modifies this
      ensures Valid() && messages == before
      ensures Truthy(message) && Contains(message.value, QuotaMarker) ==> !canAskQuestion && remainingQuestions == 0
      ensures !(Truthy(message) && Contains(message.value, QuotaMarker)) ==>
                canAskQuestion == old(canAskQuestion) && remainingQuestions == old(remainingQuestions)
      ensures waitingForMcq == old(waitingForMcq) && currentMcqMessageId == old(currentMcqMessageId)
      ensures typingMessageId == old(typingMessageId) && sessionId == old(sessionId) && isLoading == old(isLoading)
      ensures welcomeMessage == old(welcomeMessage) && displayedWelcome == old(displayedWelcome)
      ensures isWelcomeTyping == old(isWelcomeTyping)
    {
      if Truthy(message) && Contains(message.value, QuotaMarker) {
        canAskQuestion := false;
        remainingQuestions := 0;
      }
      messages := messages[..|messages| - 1];
    }

    /** handleMCQSelect, run to completion: the choice is recorded on the
      clicked message and the answer sent for the pending MCQ. Returns the
      (MCQ id, value) pair sent, if any. */
    method HandleMcqSelect(messageId: string, selectedValue: string, stamp: string, now: string, outcome: McqOutcome)
      returns (sent: Option<(string, string)>)
      requires Valid()
      modifies this
      ensures Valid()
      ensures !Truthy(old(currentMcqMessageId)) ==>
                && sent == None && messages == old(messages) && waitingForMcq == old(waitingForMcq)
                && currentMcqMessageId == old(currentMcqMessageId) && remainingQuestions == old(remainingQuestions)
                && canAskQuestion == old(canAskQuestion) && isLoading == old(isLoading)
                && typingMessageId == old(typingMessageId)
      ensures Truthy(old(currentMcqMessageId)) ==>
        var marked := MarkSelected(old(messages), messageId, selectedValue);
        && sent == Some((old(currentMcqMessageId).value, selectedValue))
        && !waitingForMcq && !isLoading
        && (outcome.McqReplied? ==>
              var bot := FollowUpMessage(stamp, |old(messages)| + 1, outcome.data, now);
              && messages == marked + [bot]
              && remainingQuestions == outcome.data.remainingQuestions
              && currentMcqMessageId == None && typingMessageId == Some(bot.id)
              && (outcome.data.remainingQuestions == 0 ==> !canAskQuestion)
              && (outcome.data.remainingQuestions != 0 ==> canAskQuestion == old(canAskQuestion)))
        && (outcome.McqThrew? ==>
              messages == marked && remainingQuestions == old(remainingQuestions)
              && currentMcqMessageId == old(currentMcqMessageId) && canAskQuestion == old(canAskQuestion)
              && typingMessageId == old(typingMessageId))
      ensures sessionId == old(sessionId) && welcomeMessage == old(welcomeMessage)
      ensures displayedWelcome == old(displayedWelcome) && isWelcomeTyping == old(isWelcomeTyping)
    {
      if !Truthy(currentMcqMessageId) {
        return None;
      }
      var before := messages;
      messages := MarkSelected(before, messageId, selectedValue);
      isLoading := true;
      waitingForMcq := false;
      sent := Some((currentMcqMessageId.value, selectedValue));
      match outcome {
        case McqReplied(d) =>
          ShowFollowUp(FollowUpMessage(stamp, |before| + 1, d, now), d);
        case McqThrew =>
      }
      isLoading := false;
    }

    /** The success branch of handleMCQSelect: the follow-up is appended,
      the MCQ is settled, and a zero quota blocks asking. */
    method ShowFollowUp(bot: ChatMessage, d: McqReply)
      requires Valid() && !waitingForMcq
      modifies this
      ensures Valid()
      ensures messages == old(messages) + [bot] && remainingQuestions == d.remainingQuestions
      ensures currentMcqMessageId == None && typingMessageId == Some(bot.id)
      ensures canAskQuestion <==> old(canAskQuestion) && d.remainingQuestions != 0
      ensures waitingForMcq == old(waitingForMcq) && sessionId == old(sessionId) && isLoading == old(isLoading)
      ensures welcomeMessage == old(welcomeMessage) && displayedWelcome == old(displayedWelcome)
      ensures isWelcomeTyping == old(isWelcomeTyping)
    {
      remainingQuestions := d.remainingQuestions;
      currentMcqMessageId := None;
      messages := messages + [bot];
      typingMessageId := Some(bot.id);
      if d.remainingQuestions == 0 {
        canAskQuestion := false;
      }
    }

    /** The bubble's typing animation finished. */
    method TypingComplete()
      modifies this
      ensures typingMessageId == None
      ensures sessionId == old(sessionId) && messages == old(messages) && remainingQuestions == old(remainingQuestions)
      ensures canAskQuestion == old(canAskQuestion) && waitingForMcq == old(waitingForMcq)
      ensures currentMcqMessageId == old(currentMcqMessageId) && isLoading == old(isLoading)
      ensures welcomeMessage == old(welcomeMessage) && displayedWelcome == old(displayedWelcome)
      ensures isWelcomeTyping == old(isWelcomeTyping)
    {
      typingMessageId := None;
    }
  }
}
