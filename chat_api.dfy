/** The chat service client: the records it exchanges with the backend,
    the task poller that turns an asynchronous backend task into one
    result, and the classification of the question and MCQ submissions.
    Each status request's outcome is an input; sleeping is counted. */
module ChatApi {
  import opened Common

  const PollIntervalMs: nat := 1500
  const MaxPollAttempts: nat := 100

  const FailureFallback := "Something went wrong. Please try again later."
  const TimeoutMessage := "Request timed out. Please try again later."
  const InvalidResponseMessage := "Invalid response from server."
  const AskFailedMessage := "Unable to send message. Please try again."
  const McqFailedMessage := "Unable to submit your response. Please try again."

  datatype McqOption = McqOption(question: string, options: seq<string>)

  datatype Sender = UserSender | BotSender

  datatype MessageType = Question | Response | McqResponse | BotAnswer

  datatype ChatMessage = ChatMessage(
    id: string,
    sequenceNumber: int,
    sender: Sender,
    messageText: string,
    messageType: MessageType,
    suggestedQuestions: Option<seq<string>>,
    mcqOptions: Option<McqOption>,
    mcqSelectedOption: Option<string>,
    createdAt: string)

  datatype SessionStatus = Active | LimitReached

  datatype ChatSession = ChatSession(id: string, title: string, startedAt: string, status: SessionStatus)

  datatype TaskStatus = Pending | Started | Success | Failure | Retry

  datatype ResponseType = Answer | Meta | Mcq | Rejection | Text

  /** The task-status record the status endpoint returns; absent and null
      fields are both `None`. */
  datatype TaskStatusResponse = TaskStatusResponse(
    taskId: string,
    taskStatus: TaskStatus,
    sessionId: Option<string>,
    kind: Option<ResponseType>,
    responseMessage: Option<string>,
    suggestions: Option<seq<string>>,
    mcq: Option<McqOption>,
    mcqMessageId: Option<string>,
    remainingDailyQuestions: Option<int>,
    message: Option<string>,
    error: Option<string>)

  /** What one status request yields: a thrown error (network failure or a
      malformed body) or a status record. */
  datatype PollOutcome = NetworkError | Status(record: TaskStatusResponse)

  datatype AsyncChatResult = AsyncChatResult(
    success: bool,
    sessionId: Option<string>,
    kind: Option<ResponseType>,
    message: Option<string>,
    suggestions: Option<seq<string>>,
    mcq: Option<McqOption>,
    mcqMessageId: Option<string>,
    remainingQuestions: Option<int>,
    error: Option<string>,
    isSessionLimitReached: Option<bool>)

  /** A result with `success: false` and only an error message. */
  function Failed(error: string): (r: AsyncChatResult)
    ensures !r.success && r.error == Some(error) && r.isSessionLimitReached == None
  {
    AsyncChatResult(false, None, None, None, None, None, None, None, Some(error), None)
  }

  /** A result with `success: false` that tells the UI the session quota is spent. */
  function LimitReachedResult(error: string): (r: AsyncChatResult)
    ensures !r.success && r.error == Some(error) && r.isSessionLimitReached == Some(true)
  {
    AsyncChatResult(false, None, None, None, None, None, None, None, Some(error), Some(true))
  }

  predicate IsTerminal(o: PollOutcome) {
    o.Status? && (o.record.taskStatus == Success || o.record.taskStatus == Failure)
  }

  /** The result a terminal status record is turned into. */
  function TerminalResult(o: PollOutcome): (r: AsyncChatResult)
    requires IsTerminal(o)
    ensures r.success <==> o.record.taskStatus == Success
    ensures r.success ==>
      && r.sessionId == o.record.sessionId && r.kind == o.record.kind
      && r.message == o.record.responseMessage && r.mcq == o.record.mcq
      && r.mcqMessageId == o.record.mcqMessageId
      && r.remainingQuestions == o.record.remainingDailyQuestions
      && r.suggestions == Some(o.record.suggestions.GetOr([]))
      && r.error == None
    ensures !r.success ==> r == Failed(if o.record.error.Some? && o.record.error.value != ""
                                       then o.record.error.value else FailureFallback)
  {
    var t := o.record;
    if t.taskStatus == Success then
      AsyncChatResult(true, t.sessionId, t.kind, t.responseMessage,
                      Some(if t.suggestions.Some? then t.suggestions.value else []),
                      t.mcq, t.mcqMessageId, t.remainingDailyQuestions, None, None)
    else
      Failed(if t.error.Some? && t.error.value != "" then t.error.value else FailureFallback)
  }

  /** The index, among the first `MaxPollAttempts` outcomes from `from` on,
      of the first terminal one. */
  function FirstTerminalFrom(outcomes: seq<PollOutcome>, from: nat): (r: Option<nat>)
    requires |outcomes| >= MaxPollAttempts
    ensures r.Some? ==> from <= r.value < MaxPollAttempts && IsTerminal(outcomes[r.value])
    ensures r.Some? ==> forall j :: from <= j < r.value ==> !IsTerminal(outcomes[j])
    ensures r.None? ==> forall j :: from <= j < MaxPollAttempts ==> !IsTerminal(outcomes[j])
    decreases MaxPollAttempts - from
  {
    if from >= MaxPollAttempts then None
    else if IsTerminal(outcomes[from]) then Some(from)
    else FirstTerminalFrom(outcomes, from + 1)
  }

  function FirstTerminal(outcomes: seq<PollOutcome>): Option<nat>
    requires |outcomes| >= MaxPollAttempts
  {
    FirstTerminalFrom(outcomes, 0)
  }

  /** What polling returns: the first terminal outcome decides, otherwise
      the time-out failure. */
  function PollResult(outcomes: seq<PollOutcome>): AsyncChatResult
    requires |outcomes| >= MaxPollAttempts
  {
    match FirstTerminal(outcomes)
    case Some(k) => TerminalResult(outcomes[k])
    case None => Failed(TimeoutMessage)
  }

  /** How many status requests polling issues. */
  function PollRequests(outcomes: seq<PollOutcome>): nat
    requires |outcomes| >= MaxPollAttempts
  {
    match FirstTerminal(outcomes)
    case Some(k) => k + 1
    case None => MaxPollAttempts
  }

  /** How many times polling sleeps for `PollIntervalMs`. */
  function PollDelays(outcomes: seq<PollOutcome>): nat
    requires |outcomes| >= MaxPollAttempts
  {
    match FirstTerminal(outcomes)
    case Some(k) => k
    case None => MaxPollAttempts
  }

  /** pollTaskResult: `outcomes[i]` is what the (i+1)-th status request
      yields. Returns the result, the number of requests issued and the
      number of sleeps taken. */
  method PollTaskResult(outcomes: seq<PollOutcome>) returns (result: AsyncChatResult, requests: nat, delays: nat)
    requires |outcomes| >= MaxPollAttempts
    ensures result == PollResult(outcomes)
    ensures requests == PollRequests(outcomes) <= MaxPollAttempts
    ensures delays == PollDelays(outcomes)
    ensures forall j :: 0 <= j < delays ==> !IsTerminal(outcomes[j])
  {
    var attempts: nat := 0;
    delays := 0;
    while attempts < MaxPollAttempts
      invariant attempts <= MaxPollAttempts
      invariant delays == attempts
      invariant forall j :: 0 <= j < attempts ==> !IsTerminal(outcomes[j])
      invariant FirstTerminal(outcomes) == FirstTerminalFrom(outcomes, attempts)
    {
      attempts := attempts + 1;
      var outcome := outcomes[attempts - 1];
      match outcome {
        case NetworkError =>
          delays := delays + 1;
        case Status(record) =>
          if record.taskStatus == Success || record.taskStatus == Failure {
            result := TerminalResult(outcome);
            requests := attempts;
            return;
          }
          delays := delays + 1;
      }
    }
    requests := attempts;
    result := Failed(TimeoutMessage);
  }

  /** Polling succeeds exactly when some outcome among the first
      `MaxPollAttempts` is a SUCCESS record and none before it is terminal. */
  lemma PollSucceedsIff(outcomes: seq<PollOutcome>)
    requires |outcomes| >= MaxPollAttempts
    ensures PollResult(outcomes).success <==>
      exists k :: 0 <= k < MaxPollAttempts && outcomes[k].Status? && outcomes[k].record.taskStatus == Success
                  && forall j :: 0 <= j < k ==> !IsTerminal(outcomes[j])
  {
    match FirstTerminal(outcomes) {
      case Some(k) =>
        forall k' | 0 <= k' < MaxPollAttempts && outcomes[k'].Status? && outcomes[k'].record.taskStatus == Success
                    && (forall j :: 0 <= j < k' ==> !IsTerminal(outcomes[j]))
          ensures k' == k
        {
          FirstTerminalIs(outcomes, 0, k');
        }
      case None =>
    }
  }

  /** A terminal outcome with none before it is the one the scan finds. */
  lemma {:induction false} FirstTerminalIs(outcomes: seq<PollOutcome>, from: nat, k: nat)
    requires |outcomes| >= MaxPollAttempts && from <= k < MaxPollAttempts && IsTerminal(outcomes[k])
    requires forall j :: from <= j < k ==> !IsTerminal(outcomes[j])
    ensures FirstTerminalFrom(outcomes, from) == Some(k)
    decreases k - from
  {
    if from < k {
      FirstTerminalIs(outcomes, from + 1, k);
    }
  }

  /** When the first terminal outcome is a FAILURE, the result carries the
      server's error, or the fallback when that is absent or empty. */
  lemma PollFailureCarriesError(outcomes: seq<PollOutcome>, k: nat)
    requires |outcomes| >= MaxPollAttempts && k < MaxPollAttempts
    requires outcomes[k].Status? && outcomes[k].record.taskStatus == Failure
    requires forall j :: 0 <= j < k ==> !IsTerminal(outcomes[j])
    ensures !PollResult(outcomes).success
    ensures PollResult(outcomes).error ==
      Some(if outcomes[k].record.error.Some? && outcomes[k].record.error.value != ""
           then outcomes[k].record.error.value else FailureFallback)
    ensures PollRequests(outcomes) == k + 1 && PollDelays(outcomes) == k
  {
    assert FirstTerminal(outcomes) == Some(k);
  }

  /** Without a terminal outcome in the budget, polling times out after
      exactly `MaxPollAttempts` requests and as many delays. */
  lemma PollTimesOut(outcomes: seq<PollOutcome>)
    requires |outcomes| >= MaxPollAttempts
    requires forall j :: 0 <= j < MaxPollAttempts ==> !IsTerminal(outcomes[j])
    ensures PollResult(outcomes) == Failed(TimeoutMessage)
    ensures PollRequests(outcomes) == MaxPollAttempts == PollDelays(outcomes)
  {
    assert FirstTerminal(outcomes) == None;
  }

  /** The first terminal outcome decides everything: outcomes after it are
      never requested, so changing them changes nothing. */
  lemma PollIgnoresLaterOutcomes(a: seq<PollOutcome>, b: seq<PollOutcome>)
    requires |a| >= MaxPollAttempts && |b| >= MaxPollAttempts
    requires a[..PollRequests(a)] == b[..PollRequests(a)]
    ensures PollResult(a) == PollResult(b)
    ensures PollRequests(a) == PollRequests(b) && PollDelays(a) == PollDelays(b)
  {
    var n := PollRequests(a);
    forall j | 0 <= j < n ensures a[j] == b[j] {
      assert a[..n][j] == a[j] && b[..n][j] == b[j];
    }
    match FirstTerminal(a) {
      case Some(k) =>
        assert FirstTerminal(b) == Some(k);
      case None =>
        assert FirstTerminal(b) == None;
    }
  }

  /** Network errors and PENDING/STARTED/RETRY records are handled alike:
      replacing one kind of non-terminal outcome by another changes nothing. */
  lemma PollTreatsNonTerminalAlike(a: seq<PollOutcome>, b: seq<PollOutcome>)
    requires |a| >= MaxPollAttempts && |b| >= MaxPollAttempts
    requires forall j :: 0 <= j < MaxPollAttempts ==> (IsTerminal(a[j]) || IsTerminal(b[j]) ==> a[j] == b[j])
    ensures PollResult(a) == PollResult(b)
    ensures PollRequests(a) == PollRequests(b) && PollDelays(a) == PollDelays(b)
  {
    match FirstTerminal(a) {
      case Some(k) =>
        assert FirstTerminal(b) == Some(k);
      case None =>
        assert FirstTerminal(b) == None;
    }
  }

  /** One sleep follows every non-terminal outcome before the result, and
      a terminal outcome ends the loop without one; so the whole wait is
      bounded by `MaxPollAttempts * PollIntervalMs`, 150 s. */
  lemma PollWaitBounded(outcomes: seq<PollOutcome>)
    requires |outcomes| >= MaxPollAttempts
    ensures PollRequests(outcomes) == PollDelays(outcomes) + (if FirstTerminal(outcomes).Some? then 1 else 0)
    ensures forall j :: 0 <= j < PollDelays(outcomes) ==> !IsTerminal(outcomes[j])
    ensures PollDelays(outcomes) < MaxPollAttempts ==> IsTerminal(outcomes[PollDelays(outcomes)])
    ensures PollDelays(outcomes) * PollIntervalMs <= 150000
    ensures PollRequests(outcomes) <= MaxPollAttempts
  {
  }

  /** PENDING, PENDING, SUCCESS: a success after exactly two delays. */
  lemma PollPendingPendingSuccess(outcomes: seq<PollOutcome>)
    requires |outcomes| >= MaxPollAttempts
    requires outcomes[0].Status? && outcomes[0].record.taskStatus == Pending
    requires outcomes[1].Status? && outcomes[1].record.taskStatus == Pending
    requires outcomes[2].Status? && outcomes[2].record.taskStatus == Success
    ensures PollResult(outcomes).success
    ensures PollResult(outcomes).kind == outcomes[2].record.kind
    ensures PollResult(outcomes).message == outcomes[2].record.responseMessage
    ensures PollDelays(outcomes) == 2 && PollRequests(outcomes) == 3
  {
    assert FirstTerminal(outcomes) == Some(2);
  }

  /** The status outcomes as written: the endpoint table has no
      `TASK_STATUS` entry, so building the status path throws inside the
      try on every attempt, before any request is sent, and the catch
      sleeps exactly as it does after a failed request. */
  function StatusOutcomesAsWritten(): (r: seq<PollOutcome>)
    ensures |r| == MaxPollAttempts
    ensures forall j :: 0 <= j < |r| ==> r[j] == NetworkError
  {
    seq(MaxPollAttempts, _ => NetworkError)
  }

  /** Hence, as written, polling never succeeds: every accepted question
      or MCQ answer ends in the time-out failure, after 100 attempts and
      150 s of sleeping. */
  lemma MissingStatusRouteTimesOut()
    ensures !PollResult(StatusOutcomesAsWritten()).success
    ensures PollResult(StatusOutcomesAsWritten()) == Failed(TimeoutMessage)
    ensures PollRequests(StatusOutcomesAsWritten()) == MaxPollAttempts
    ensures PollDelays(StatusOutcomesAsWritten()) * PollIntervalMs == 150000
  {
    PollTimesOut(StatusOutcomesAsWritten());
  }

  // ---- submission ----

  datatype TaskRef = TaskRef(taskId: string, sessionId: string, status: TaskStatus)

  /** The body the submit endpoints answer with. */
  datatype TaskSubmitResponse = TaskSubmitResponse(message: string, async: Option<bool>, data: Option<TaskRef>)

  /** A submit call either answers or throws; a thrown HTTP error may carry
      `response.data.message`. */
  datatype SubmitOutcome =
    | Submitted(response: TaskSubmitResponse)
    | SubmitThrew(responseMessage: Option<string>)

  datatype AskPayload = AskPayload(question: string, sessionId: Option<string>)

  datatype McqPayload = McqPayload(mcqMessageId: string, selectedValue: string)

  /** After a submission the client either has its answer or must poll. */
  datatype SubmitStep = Done(result: AsyncChatResult) | PollTask(task: TaskRef)

  /** The body askQuestion posts: `session_id` only for a truthy session id. */
  function AskPayloadFor(question: string, sessionId: Option<string>): (p: AskPayload)
    ensures p.question == question
    ensures p.sessionId.Some? <==> sessionId.Some? && sessionId.value != ""
    ensures p.sessionId.Some? ==> p.sessionId == sessionId
  {
    if sessionId.Some? && sessionId.value != "" then AskPayload(question, sessionId)
    else AskPayload(question, None)
  }

  /** askQuestion's handling of the submit outcome. */
  function ClassifyAsk(outcome: SubmitOutcome): (s: SubmitStep)
    ensures outcome.Submitted? && outcome.response.async == Some(false) ==>
              s == Done(LimitReachedResult(outcome.response.message))
    ensures outcome.Submitted? && outcome.response.async != Some(false) && outcome.response.data.None? ==>
              s == Done(Failed(InvalidResponseMessage))
    ensures outcome.Submitted? && outcome.response.async != Some(false) && outcome.response.data.Some? ==>
              s == PollTask(outcome.response.data.value)
    ensures outcome.SubmitThrew? ==>
              s == Done(if outcome.responseMessage.Some? && Contains(outcome.responseMessage.value, "maximum")
                        then LimitReachedResult(outcome.responseMessage.value)
                        else Failed(AskFailedMessage))
  {
    match outcome
    case Submitted(response) =>
      if response.async == Some(false) then Done(LimitReachedResult(response.message))
      else if response.data.None? then Done(Failed(InvalidResponseMessage))
      else PollTask(response.data.value)
    case SubmitThrew(message) =>
      if message.Some? && Contains(message.value, "maximum") then Done(LimitReachedResult(message.value))
      else Done(Failed(AskFailedMessage))
  }

  /** answerMCQ's handling of the submit outcome: no quota check at all. */
  function ClassifyAnswerMcq(outcome: SubmitOutcome): (s: SubmitStep)
    ensures outcome.Submitted? && outcome.response.data.None? ==> s == Done(Failed(InvalidResponseMessage))
    ensures outcome.Submitted? && outcome.response.data.Some? ==> s == PollTask(outcome.response.data.value)
    ensures outcome.SubmitThrew? ==> s == Done(Failed(McqFailedMessage))
    ensures s.Done? ==> s.result.isSessionLimitReached == None
  {
    match outcome
    case Submitted(response) =>
      if response.data.None? then Done(Failed(InvalidResponseMessage)) else PollTask(response.data.value)
    case SubmitThrew(_) => Done(Failed(McqFailedMessage))
  }

  /** askQuestion: posts the payload, and polls only when the submission
      returned a task. */
  method AskQuestion(question: string, sessionId: Option<string>, submit: SubmitOutcome, polls: seq<PollOutcome>)
    returns (payload: AskPayload, result: AsyncChatResult, requests: nat)
    requires |polls| >= MaxPollAttempts
    ensures payload == AskPayloadFor(question, sessionId)
    ensures ClassifyAsk(submit).Done? ==> result == ClassifyAsk(submit).result && requests == 0
    ensures ClassifyAsk(submit).PollTask? ==> result == PollResult(polls) && requests == PollRequests(polls)
  {
    payload := AskPayloadFor(question, sessionId);
    var step := ClassifyAsk(submit);
    match step {
      case Done(r) =>
        result, requests := r, 0;
      case PollTask(_) =>
        var delays;
        result, requests, delays := PollTaskResult(polls);
    }
  }

  /** answerMCQ: posts the selected option, and polls only when the
      submission returned a task. */
  method AnswerMcq(mcqMessageId: string, selectedValue: string, submit: SubmitOutcome, polls: seq<PollOutcome>)
    returns (payload: McqPayload, result: AsyncChatResult, requests: nat)
    requires |polls| >= MaxPollAttempts
    ensures payload == McqPayload(mcqMessageId, selectedValue)
    ensures ClassifyAnswerMcq(submit).Done? ==> result == ClassifyAnswerMcq(submit).result && requests == 0
    ensures ClassifyAnswerMcq(submit).PollTask? ==> result == PollResult(polls) && requests == PollRequests(polls)
  {
    payload := McqPayload(mcqMessageId, selectedValue);
    var step := ClassifyAnswerMcq(submit);
    match step {
      case Done(r) =>
        result, requests := r, 0;
      case PollTask(_) =>
        var delays;
        result, requests, delays := PollTaskResult(polls);
    }
  }

  /** A quota refusal (`async: false`) never polls and reports the limit. */
  lemma AskQuotaRefusalDoesNotPoll(message: string, data: Option<TaskRef>)
    ensures ClassifyAsk(Submitted(TaskSubmitResponse(message, Some(false), data)))
            == Done(LimitReachedResult(message))
  {
  }
}
