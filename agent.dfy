/**
 * The conversation orchestrator of src/services/agents/claude/qaAgent.ts.
 *
 * Everything the agent obtains from outside is an oracle: the planner's opening
 * utterance, plan and follow-up utterances, the outcome and latency of every
 * endpoint call, the message ids, the chat id, the persona prompt found in the
 * database and the judge's parsed answer. The helper functions whose source is
 * not part of this model (formatInput, extractChatResponse,
 * validateResponseFormat, validateCondition) are fields of `Helpers`.
 */
module Agent {
  import opened Common
  import opened Runs

  const TimeoutMessage: string := "API request timed out after 10 seconds"
  const JudgeFallbackExplanation: string := "Validation failed"
  const MissingKeyMessage: string := "Anthropic API key not provided to QaAgent."

  /** What `ApiHandler.callEndpoint` can throw: an `AbortError` (its timeout) or anything else. */
  datatype CallError = AbortError(message: string) | OtherError(message: string)

  datatype CallOutcome = Returned(response: Json) | Threw(error: CallError)

  /** The judge's answer `{ isCorrect, explanation }`. */
  datatype Verdict = Verdict(isCorrect: bool, explanation: string)

  datatype Rule = Rule(
    id: string,
    path: string,
    condition: string,
    value: Json,
    description: string,
    isValid: bool)

  datatype ApiConfig = ApiConfig(inputFormat: Json, outputFormat: Json, rules: seq<Rule>)

  /** `QaAgentConfig`. */
  datatype AgentConfig = AgentConfig(
    headers: Json,
    modelId: Option<string>,
    endpointUrl: string,
    apiConfig: ApiConfig,
    persona: Option<string>,
    userApiKey: Option<string>)

  /** The language model the agent is built on: the configured one, or the Sonnet 3.5 default. */
  datatype ModelRef = Named(id: string) | DefaultSonnet35

  /**
   * The helpers the agent calls but whose code is not part of this model, and
   * `show`, the text a template literal makes of a JSON value (`${v}`).
   */
  datatype Helpers = Helpers(
    show: Json -> string,
    formatInput: (string, Json) -> Json,
    extractChatResponse: (Json, seq<Rule>) -> string,
    validateResponseFormat: (Json, Json) -> bool,
    validateCondition: (Json, seq<Rule>) -> bool)

  /**
   * The outside world of one conversation. Turn 0 is the opening utterance,
   * turn t > 0 the follow-up for `plan[t - 1]`; message n of the transcript
   * gets id `messageId(n)`.
   */
  datatype Environment = Environment(
    personaPrompt: Option<string>,
    opening: string,
    plan: seq<string>,
    followUp: nat -> string,
    endpoint: nat -> CallOutcome,
    latency: nat -> nat,
    messageId: nat -> string,
    chatId: string,
    judge: string -> Option<Verdict>)

  datatype Conversation = Conversation(
    humanMessage: string,
    rawInput: Json,
    rawOutput: Json,
    chatResponse: string,
    allMessages: seq<Message>)

  datatype ValidationResult = ValidationResult(
    passedTest: bool,
    formatValid: bool,
    conditionMet: bool,
    explanation: string,
    conversationResult: Verdict,
    responseTime: nat,
    validationScore: Option<nat>)

  datatype TestResult = TestResult(conversation: Conversation, validation: ValidationResult)

  /** What `runTestStreaming` passes to its `onMessage` callback. */
  datatype AgentEvent =
    | MessageEvent(message: Message)
    | ValidationEvent(result: ValidationResult)
    | CompleteEvent(conversation: Conversation)
    | ErrorEvent(error: CallError)

  /** The events `runTestStreaming` emitted, and the error it rethrew, if any. */
  datatype StreamOutcome = StreamOutcome(events: seq<AgentEvent>, error: Option<CallError>)

  /** The two entry points differ only in the metrics they record. */
  datatype Variant = Batch | Streamed

  function ModelFor(config: AgentConfig): ModelRef
  {
    if Truthy(config.modelId) then Named(config.modelId.value) else DefaultSonnet35
  }

  /** The system prompt override the agent uses: only when a persona is configured and its record has a prompt. */
  function PromptPersona(config: AgentConfig, found: Option<string>): Option<string>
  {
    if Truthy(config.persona) && Truthy(found) then found else None
  }

  /** `apiResponse?.response?.text`: None where the optional chain yields `undefined`. */
  function TextField(response: Json): Option<Json>
  {
    if response.JObject? && "response" in response.fields then
      var inner := response.fields["response"];
      if inner.JObject? && "text" in inner.fields then Some(inner.fields["text"]) else None
    else None
  }

  /**
   * The reply: the conventional `response.text` field when it is truthy, whatever
   * its type (a message stores the text it renders as), else the rule-based extraction.
   */
  function ReplyText(h: Helpers, rules: seq<Rule>, response: Json): string
  {
    var text := TextField(response);
    if text.Some? && JsTruthy(text.value) then
      (if text.value.JString? then text.value.s else h.show(text.value))
    else h.extractChatResponse(response, rules)
  }

  /** The utterance the agent sends in turn t. */
  function Utterance(env: Environment, t: nat): string
  {
    if t == 0 then env.opening else env.followUp(t - 1)
  }

  /** The endpoint calls of turns 0 .. n-1 all returned. */
  ghost predicate Answered(env: Environment, n: nat)
  {
    forall t :: 0 <= t < n ==> env.endpoint(t).Returned?
  }

  /** The first of turns 0 .. n-1 whose endpoint call threw. */
  function FirstFailure(env: Environment, n: nat): (r: Option<nat>)
    ensures r.None? <==> Answered(env, n)
    ensures r.Some? ==> r.value < n && env.endpoint(r.value).Threw? && Answered(env, r.value)
    decreases n
  {
    if n == 0 then None
    else
      match FirstFailure(env, n - 1)
      case Some(t) => Some(t)
      case None => if env.endpoint(n - 1).Threw? then Some(n - 1) else None
  }

  /** The error a failed call in turn t surfaces as: a follow-up's abort becomes the timeout error. */
  function Surfaced(t: nat, e: CallError): CallError
  {
    if t > 0 && e.AbortError? then OtherError(TimeoutMessage) else e
  }

  /** Sum of the latencies of turns 0 .. n-1. */
  function TotalLatency(env: Environment, n: nat): nat
    decreases n
  {
    if n == 0 then 0 else TotalLatency(env, n - 1) + env.latency(n - 1)
  }

  /** The user side of turn t: what the agent said. */
  function UserMessage(v: Variant, env: Environment, t: nat): Message
  {
    Message(env.messageId(2 * t), env.chatId, User, Utterance(env, t),
      if v == Streamed then 0 else env.latency(t),
      if v == Batch && t > 0 then None else Some(1),
      None, None, None)
  }

  /** The assistant side of turn t: the endpoint's reply. */
  function AssistantMessage(config: AgentConfig, h: Helpers, env: Environment, t: nat): Message
    requires env.endpoint(t).Returned?
  {
    Message(env.messageId(2 * t + 1), env.chatId, Assistant,
      ReplyText(h, config.apiConfig.rules, env.endpoint(t).response),
      env.latency(t), Some(1), None, None, None)
  }

  /** The transcript of turns 0 .. k-1: each turn's user side followed by its assistant side. */
  function Transcript(v: Variant, config: AgentConfig, h: Helpers, env: Environment, k: nat): (msgs: seq<Message>)
    requires Answered(env, k)
    ensures |msgs| == 2 * k
    decreases k
  {
    if k == 0 then []
    else Transcript(v, config, h, env, k - 1) + [UserMessage(v, env, k - 1), AssistantMessage(config, h, env, k - 1)]
  }

  /** A thrown call preceded only by answered ones is the first failure. */
  lemma FirstFailureAt(env: Environment, n: nat, t: nat)
    requires t < n && Answered(env, t) && env.endpoint(t).Threw?
    ensures FirstFailure(env, n) == Some(t)
  {
    assert !Answered(env, n);
  }

  function Speaker(role: Role): string
  {
    if role == User then "Human" else "Assistant"
  }

  function Line(m: Message): string
  {
    Speaker(m.role) + ": " + m.content
  }

  /** `Array.prototype.join`. */
  function Join(parts: seq<string>, sep: string): string
    decreases |parts|
  {
    if |parts| == 0 then ""
    else if |parts| == 1 then parts[0]
    else parts[0] + sep + Join(parts[1..], sep)
  }

  function Lines(msgs: seq<Message>): seq<string>
  {
    seq(|msgs|, i requires 0 <= i < |msgs| => Line(msgs[i]))
  }

  /** The transcript as the judge reads it. */
  function Render(msgs: seq<Message>): string
  {
    Join(Lines(msgs), "\n\n")
  }

  /** The judge's output parsed, or the safe default when it did not parse. */
  function JudgeVerdict(parsed: Option<Verdict>): Verdict
  {
    match parsed
    case Some(v) => v
    case None => Verdict(false, JudgeFallbackExplanation)
  }

  function Mark(m: Message, judged: bool, v: Verdict): Message
  {
    m.(isCorrect := Some(if judged then v.isCorrect else true),
       explanation := if judged then Some(v.explanation) else None)
  }

  /** `validatedMessages`: each message whose id equals the last message's id carries the verdict. */
  function Annotate(msgs: seq<Message>, v: Verdict): seq<Message>
  {
    if |msgs| == 0 then []
    else
      var lastId := msgs[|msgs| - 1].id;
      seq(|msgs|, i requires 0 <= i < |msgs| => Mark(msgs[i], msgs[i].id == lastId, v))
  }

  /** Where a conversation stands after a turn: the messages so far, the last response and the summed latency. */
  datatype Progress = Progress(allMessages: seq<Message>, apiResponse: Json, totalResponseTime: nat)

  /** The progress once turns 0 .. t were all answered. */
  function Reached(v: Variant, config: AgentConfig, h: Helpers, env: Environment, t: nat): Progress
    requires Answered(env, t + 1)
  {
    Progress(Transcript(v, config, h, env, t + 1), env.endpoint(t).response, TotalLatency(env, t + 1))
  }

  /**
   * The validation stage: format and rule checks on the last response, the judge
   * on the rendered transcript, the verdict on the last message, and the conjunctive
   * pass decision.
   */
  function Validate(v: Variant, config: AgentConfig, h: Helpers, env: Environment, p: Progress): TestResult
  {
    var formatValid := h.validateResponseFormat(p.apiResponse, config.apiConfig.outputFormat);
    var conditionMet := h.validateCondition(p.apiResponse, config.apiConfig.rules);
    var verdict := JudgeVerdict(env.judge(Render(p.allMessages)));
    TestResult(
      Conversation(env.opening, h.formatInput(env.opening, config.apiConfig.inputFormat), p.apiResponse,
        ReplyText(h, config.apiConfig.rules, p.apiResponse), Annotate(p.allMessages, verdict)),
      ValidationResult(formatValid && conditionMet && verdict.isCorrect, formatValid, conditionMet,
        verdict.explanation, verdict,
        if v == Batch then p.totalResponseTime else 0,
        if v == Batch then None else Some(1)))
  }

  /** How the conversation stage ends: the first thrown call's surfaced error, or the progress after the last turn. */
  function Conversed(v: Variant, config: AgentConfig, h: Helpers, env: Environment): Result<Progress, CallError>
  {
    match FirstFailure(env, |env.plan| + 1)
    case Some(t) => Failure(Surfaced(t, env.endpoint(t).error))
    case None => Success(Reached(v, config, h, env, |env.plan|))
  }

  function MessageEvents(msgs: seq<Message>): (events: seq<AgentEvent>)
    ensures |events| == |msgs|
    ensures forall i :: 0 <= i < |msgs| ==> events[i] == MessageEvent(msgs[i])
    decreases |msgs|
  {
    if |msgs| == 0 then []
    else MessageEvents(msgs[..|msgs| - 1]) + [MessageEvent(msgs[|msgs| - 1])]
  }

  /**
   * The message events of the streaming conversation stage: every appended message,
   * including the user side of a turn whose call then threw.
   */
  function ConversedEvents(config: AgentConfig, h: Helpers, env: Environment): seq<AgentEvent>
  {
    match FirstFailure(env, |env.plan| + 1)
    case Some(t) => MessageEvents(Transcript(Streamed, config, h, env, t) + [UserMessage(Streamed, env, t)])
    case None => MessageEvents(Transcript(Streamed, config, h, env, |env.plan| + 1))
  }

  /** What `runTest` resolves to (Success) or rejects with (Failure). */
  function RunTestSpec(config: AgentConfig, h: Helpers, env: Environment): Result<TestResult, CallError>
  {
    match Conversed(Batch, config, h, env)
    case Failure(e) => Failure(e)
    case Success(p) => Success(Validate(Batch, config, h, env, p))
  }

  /** What `runTestStreaming` emits and whether it rethrows: the error event follows the messages, or the validation and completion events do. */
  function StreamSpec(config: AgentConfig, h: Helpers, env: Environment): StreamOutcome
  {
    var events := ConversedEvents(config, h, env);
    match Conversed(Streamed, config, h, env)
    case Failure(e) => StreamOutcome(events + [ErrorEvent(e)], Some(e))
    case Success(p) =>
      var result := Validate(Streamed, config, h, env, p);
      StreamOutcome(events + [ValidationEvent(result.validation), CompleteEvent(result.conversation)], None)
  }

  lemma {:induction false} MessageEventsAppend(a: seq<Message>, b: seq<Message>)
    ensures MessageEvents(a + b) == MessageEvents(a) + MessageEvents(b)
    decreases |b|
  {
    if |b| > 0 {
      assert (a + b)[..|a + b| - 1] == a + b[..|b| - 1];
      MessageEventsAppend(a, b[..|b| - 1]);
    } else {
      assert a + b == a;
    }
  }

  lemma AnsweredOneMore(env: Environment, n: nat)
    requires Answered(env, n) && env.endpoint(n).Returned?
    ensures Answered(env, n + 1)
  {
  }

  /** One more answered turn extends the progress by its two messages and its latency. */
  lemma ReachedNext(v: Variant, config: AgentConfig, h: Helpers, env: Environment, i: nat)
    requires Answered(env, (i + 1) + 1)
    ensures Reached(v, config, h, env, i + 1) ==
      Progress(Reached(v, config, h, env, i).allMessages + [UserMessage(v, env, i + 1), AssistantMessage(config, h, env, i + 1)],
        env.endpoint(i + 1).response, Reached(v, config, h, env, i).totalResponseTime + env.latency(i + 1))
  {
  }

  /** The conversation stage when the call of turn t is the first to throw. */
  lemma ConversedWhenThrown(config: AgentConfig, h: Helpers, env: Environment, t: nat)
    requires t <= |env.plan| && Answered(env, t) && env.endpoint(t).Threw?
    ensures Conversed(Batch, config, h, env) == Failure(Surfaced(t, env.endpoint(t).error))
    ensures Conversed(Streamed, config, h, env) == Failure(Surfaced(t, env.endpoint(t).error))
    ensures ConversedEvents(config, h, env) == MessageEvents(Transcript(Streamed, config, h, env, t) + [UserMessage(Streamed, env, t)])
  {
    FirstFailureAt(env, |env.plan| + 1, t);
  }

  /** The conversation stage when every call was answered. */
  lemma ConversedWhenAnswered(config: AgentConfig, h: Helpers, env: Environment)
    requires Answered(env, |env.plan| + 1)
    ensures Conversed(Batch, config, h, env) == Success(Reached(Batch, config, h, env, |env.plan|))
    ensures Conversed(Streamed, config, h, env) == Success(Reached(Streamed, config, h, env, |env.plan|))
    ensures ConversedEvents(config, h, env) == MessageEvents(Transcript(Streamed, config, h, env, |env.plan| + 1))
  {
  }

  /** The opening turn of `runTest`: its call is outside the follow-ups' handler, so any error passes through unchanged. */
  method BatchOpening(config: AgentConfig, h: Helpers, env: Environment) returns (r: Result<Progress, CallError>)
    ensures env.endpoint(0).Threw? ==> r == Failure(env.endpoint(0).error)
    ensures env.endpoint(0).Returned? ==> Answered(env, 1) && r == Success(Reached(Batch, config, h, env, 0))
  {
    var testMessage := env.opening;
    var outcome := env.endpoint(0);
    if outcome.Threw? {
      return Failure(outcome.error);
    }
    var apiResponse := outcome.response;
    var chatResponse := ReplyText(h, config.apiConfig.rules, apiResponse);
    var totalResponseTime := env.latency(0);
    var chatId := env.chatId;
    var allMessages := [];
    allMessages := allMessages + [Message(env.messageId(|allMessages|), chatId, User, testMessage, totalResponseTime, Some(1), None, None, None)];
    allMessages := allMessages + [Message(env.messageId(|allMessages|), chatId, Assistant, chatResponse, totalResponseTime, Some(1), None, None, None)];
    AnsweredOneMore(env, 0);
    assert allMessages == [UserMessage(Batch, env, 0), AssistantMessage(config, h, env, 0)];
    assert Transcript(Batch, config, h, env, 1) == [] + allMessages;
    assert Reached(Batch, config, h, env, 0).allMessages == allMessages;
    assert TotalLatency(env, 1) == totalResponseTime;
    return Success(Progress(allMessages, apiResponse, totalResponseTime));
  }

  /** The opening turn of `runTestStreaming`; `emitted` is what it passed to `onMessage`. */
  method StreamedOpening(config: AgentConfig, h: Helpers, env: Environment)
    returns (emitted: seq<AgentEvent>, r: Result<Progress, CallError>)
    ensures env.endpoint(0).Threw? ==>
      emitted == MessageEvents(Transcript(Streamed, config, h, env, 0) + [UserMessage(Streamed, env, 0)])
      && r == Failure(env.endpoint(0).error)
    ensures env.endpoint(0).Returned? ==>
      Answered(env, 1)
      && r == Success(Reached(Streamed, config, h, env, 0))
      && emitted == MessageEvents(r.value.allMessages)
  {
    var testMessage := env.opening;
    var chatId := env.chatId;
    var allMessages := [];
    var userMessage := Message(env.messageId(|allMessages|), chatId, User, testMessage, 0, Some(1), None, None, None);
    allMessages := allMessages + [userMessage];
    emitted := [MessageEvent(userMessage)];
    var outcome := env.endpoint(0);
    if outcome.Threw? {
      assert Transcript(Streamed, config, h, env, 0) + [UserMessage(Streamed, env, 0)] == allMessages;
      return emitted, Failure(outcome.error);
    }
    var apiResponse := outcome.response;
    var chatResponse := ReplyText(h, config.apiConfig.rules, apiResponse);
    var totalResponseTime := env.latency(0);
    var assistantMessage := Message(env.messageId(|allMessages|), chatId, Assistant, chatResponse, totalResponseTime, Some(1), None, None, None);
    allMessages := allMessages + [assistantMessage];
    emitted := emitted + [MessageEvent(assistantMessage)];
    AnsweredOneMore(env, 0);
    assert allMessages == [UserMessage(Streamed, env, 0), AssistantMessage(config, h, env, 0)];
    assert Transcript(Streamed, config, h, env, 1) == [] + allMessages;
    assert Reached(Streamed, config, h, env, 0).allMessages == allMessages;
    assert TotalLatency(env, 1) == totalResponseTime;
    assert MessageEvents(allMessages) == emitted;
    return emitted, Success(Progress(allMessages, apiResponse, totalResponseTime));
  }

  /** The follow-up turn for `plan[i]` (turn i + 1) of `runTest`: send the planned utterance, await the reply, record both sides. */
  method BatchFollowUp(config: AgentConfig, h: Helpers, env: Environment, i: nat, p: Progress) returns (r: Result<Progress, CallError>)
    requires Answered(env, i + 1) && p == Reached(Batch, config, h, env, i)
    ensures env.endpoint(i + 1).Threw? ==> r == Failure(Surfaced(i + 1, env.endpoint(i + 1).error))
    ensures env.endpoint(i + 1).Returned? ==> Answered(env, (i + 1) + 1) && r == Success(Reached(Batch, config, h, env, i + 1))
  {
    var followUpMessage := env.followUp(i);
    var outcome := env.endpoint(i + 1);
    if outcome.Threw? {
      if outcome.error.AbortError? {
        return Failure(OtherError(TimeoutMessage));
      }
      return Failure(outcome.error);
    }
    var apiResponse := outcome.response;
    var chatResponse := ReplyText(h, config.apiConfig.rules, apiResponse);
    var turnResponseTime := env.latency(i + 1);
    var allMessages := p.allMessages;
    allMessages := allMessages + [Message(env.messageId(|allMessages|), env.chatId, User, followUpMessage, turnResponseTime, None, None, None, None)];
    allMessages := allMessages + [Message(env.messageId(|allMessages|), env.chatId, Assistant, chatResponse, turnResponseTime, Some(1), None, None, None)];
    AnsweredOneMore(env, i + 1);
    assert allMessages == p.allMessages + [UserMessage(Batch, env, i + 1), AssistantMessage(config, h, env, i + 1)];
    return Success(Progress(allMessages, apiResponse, p.totalResponseTime + turnResponseTime));
  }

  /**
   * The follow-up turn for `plan[i]` (turn i + 1) of `runTestStreaming`; `events`
   * extends `sent`, what was passed to `onMessage` before, by what this turn passes.
   */
  method StreamedFollowUp(config: AgentConfig, h: Helpers, env: Environment, i: nat, p: Progress, sent: seq<AgentEvent>)
    returns (events: seq<AgentEvent>, r: Result<Progress, CallError>)
    requires Answered(env, i + 1) && p == Reached(Streamed, config, h, env, i) && sent == MessageEvents(p.allMessages)
    ensures env.endpoint(i + 1).Threw? ==>
      events == MessageEvents(Transcript(Streamed, config, h, env, i + 1) + [UserMessage(Streamed, env, i + 1)])
      && r == Failure(Surfaced(i + 1, env.endpoint(i + 1).error))
    ensures env.endpoint(i + 1).Returned? ==>
      Answered(env, (i + 1) + 1)
      && r == Success(Reached(Streamed, config, h, env, i + 1))
      && events == MessageEvents(r.value.allMessages)
  {
    var followUpMessage := env.followUp(i);
    var allMessages := p.allMessages;
    var userFollowUp := Message(env.messageId(|allMessages|), env.chatId, User, followUpMessage, 0, Some(1), None, None, None);
    assert userFollowUp == UserMessage(Streamed, env, i + 1);
    allMessages := allMessages + [userFollowUp];
    events := sent + [MessageEvent(userFollowUp)];
    MessageEventsAppend(p.allMessages, [userFollowUp]);
    var outcome := env.endpoint(i + 1);
    if outcome.Threw? {
      assert allMessages == Transcript(Streamed, config, h, env, i + 1) + [UserMessage(Streamed, env, i + 1)];
      if outcome.error.AbortError? {
        return events, Failure(OtherError(TimeoutMessage));
      }
      return events, Failure(outcome.error);
    }
    var apiResponse := outcome.response;
    var chatResponse := ReplyText(h, config.apiConfig.rules, apiResponse);
    var turnResponseTime := env.latency(i + 1);
    var assistantFollowUp := Message(env.messageId(|allMessages|), env.chatId, Assistant, chatResponse, turnResponseTime, Some(1), None, None, None);
    MessageEventsAppend(allMessages, [assistantFollowUp]);
    allMessages := allMessages + [assistantFollowUp];
    events := events + [MessageEvent(assistantFollowUp)];
    AnsweredOneMore(env, i + 1);
    assert allMessages == p.allMessages + [UserMessage(Streamed, env, i + 1), AssistantMessage(config, h, env, i + 1)];
    ReachedNext(Streamed, config, h, env, i);
    return events, Success(Progress(allMessages, apiResponse, p.totalResponseTime + turnResponseTime));
  }

  /** The conversation stage of `runTest`: the opening turn, then one turn per planned step. */
  method BatchConversation(config: AgentConfig, h: Helpers, env: Environment) returns (r: Result<Progress, CallError>)
    ensures r == Conversed(Batch, config, h, env)
  {
    var conversationPlan := env.plan;
    var opening := BatchOpening(config, h, env);
    if opening.Failure? {
      ConversedWhenThrown(config, h, env, 0);
      return opening;
    }
    var progress := opening.value;
    var i := 0;
    while i < |conversationPlan|
      invariant 0 <= i <= |conversationPlan|
      invariant Answered(env, i + 1)
      invariant progress == Reached(Batch, config, h, env, i)
    {
      var next := BatchFollowUp(config, h, env, i, progress);
      if next.Failure? {
        ConversedWhenThrown(config, h, env, i + 1);
        return next;
      }
      progress := next.value;
      i := i + 1;
    }
    ConversedWhenAnswered(config, h, env);
    return Success(progress);
  }

  /** The conversation stage of `runTestStreaming`; `events` is what it passed to `onMessage`. */
  method StreamedConversation(config: AgentConfig, h: Helpers, env: Environment)
    returns (events: seq<AgentEvent>, r: Result<Progress, CallError>)
    ensures r == Conversed(Streamed, config, h, env)
    ensures events == ConversedEvents(config, h, env)
  {
    var conversationPlan := env.plan;
    var opening;
    events, opening := StreamedOpening(config, h, env);
    if opening.Failure? {
      ConversedWhenThrown(config, h, env, 0);
      return events, opening;
    }
    var progress := opening.value;
    var i := 0;
    while i < |conversationPlan|
      invariant 0 <= i <= |conversationPlan|
      invariant Answered(env, i + 1)
      invariant progress == Reached(Streamed, config, h, env, i)
      invariant events == MessageEvents(progress.allMessages)
    {
      var next;
      events, next := StreamedFollowUp(config, h, env, i, progress, events);
      if next.Failure? {
        ConversedWhenThrown(config, h, env, i + 1);
        return events, next;
      }
      progress := next.value;
      i := i + 1;
    }
    ConversedWhenAnswered(config, h, env);
    return events, Success(progress);
  }

  /** `new QaAgent(config)`, which throws when no API key is configured. */
  method NewQaAgent(config: AgentConfig) returns (r: Result<QaAgent, string>)
    ensures r.Failure? <==> !Truthy(config.userApiKey)
    ensures r.Failure? ==> r.error == MissingKeyMessage
    ensures r.Success? ==>
      fresh(r.value) && r.value.config == config && r.value.model == ModelFor(config) && r.value.promptPersona == None
  {
    if !Truthy(config.userApiKey) {
      return Failure(MissingKeyMessage);
    }
    var agent := new QaAgent(config);
    return Success(agent);
  }

  class QaAgent {
    const config: AgentConfig
    const model: ModelRef
    /** The persona override the prompt template was last built with (None: the default tester prompt). */
    var promptPersona: Option<string>

    constructor (config: AgentConfig)
      requires Truthy(config.userApiKey)
      ensures this.config == config && model == ModelFor(config) && promptPersona == None
    {
      this.config := config;
      model := ModelFor(config);
      promptPersona := None;
    }

    /** `runTest`: the whole conversation, then one result. */
    method RunTest(h: Helpers, env: Environment) returns (r: Result<TestResult, CallError>)
      modifies this
      ensures promptPersona == PromptPersona(config, env.personaPrompt)
      ensures r == RunTestSpec(config, h, env)
    {
      promptPersona := PromptPersona(config, env.personaPrompt);
      var conversation := BatchConversation(config, h, env);
      if conversation.Failure? {
        return Failure(conversation.error);
      }
      return Success(Validate(Batch, config, h, env, conversation.value));
    }

    /** `runTestStreaming`: every message is emitted as it is appended; validation and completion follow. */
    method RunTestStreaming(h: Helpers, env: Environment) returns (out: StreamOutcome)
      modifies this
      ensures promptPersona == PromptPersona(config, env.personaPrompt)
      ensures out == StreamSpec(config, h, env)
    {
      promptPersona := PromptPersona(config, env.personaPrompt);
      var events, conversation := StreamedConversation(config, h, env);
      if conversation.Failure? {
        return StreamOutcome(events + [ErrorEvent(conversation.error)], Some(conversation.error));
      }
      var result := Validate(Streamed, config, h, env, conversation.value);
      events := events + [ValidationEvent(result.validation), CompleteEvent(result.conversation)];
      return StreamOutcome(events, None);
    }
  }
}
