/**
 * The `POST` handler of src/app/api/tools/test-runs/route.ts: it admits a request
 * through an ordered chain of checks, records a new test run, runs one streaming
 * conversation per (scenario, persona) pair, scenario-outer and persona-inner, and
 * streams what happens as server-sent events.
 *
 * The database, the authentication service, the id and clock sources and the
 * conversations' outside world are parameters. The stream and the two database
 * writes are recorded, in order, as a log of effects.
 */
module Route {
  import opened Common
  import opened Runs
  import opened Agent

  const UnknownErrorMessage: string := "Unknown error occurred"

  /** A test case of the test variations: the scenario text and the expected behaviour. */
  datatype Scenario = Scenario(scenario: string, expectedOutput: string)

  /** A rule as the test configuration stores it. */
  datatype ConfigRule = ConfigRule(path: string, condition: string, value: Json, description: Option<string>)

  /** The parts of a test configuration the handler reads; `responseData` is `latestOutput?.responseData`. */
  datatype TestConfig = TestConfig(
    name: string,
    orgId: string,
    headers: Json,
    endpoint: string,
    rules: seq<ConfigRule>,
    inputFormat: Option<Json>,
    responseData: Option<Json>)

  datatype Profile = Profile(id: string, orgId: string)

  /** The authenticated user, the body's `testId` and the `x-api-key` and `x-model` headers. */
  datatype Request = Request(userId: Option<string>, testId: Option<string>, apiKey: Option<string>, model: Option<string>)

  /** The lookups of the database service, by Clerk user id and by test id. */
  datatype Database = Database(
    profileOf: string -> Option<Profile>,
    configOf: string -> Option<TestConfig>,
    personaIdsOf: string -> Option<seq<string>>,
    testCasesOf: string -> seq<Scenario>)

  /** Fresh ids and timestamps: the run's, one per configuration rule, one per (scenario, persona) pair. */
  datatype FreshValues = FreshValues(
    runId: string,
    runTimestamp: string,
    ruleId: nat -> string,
    chatId: (nat, nat) -> string,
    chatTimestamp: (nat, nat) -> string)

  /** The helpers the agents use and the outside world of the conversation of each (scenario, persona) pair. */
  datatype Agents = Agents(h: Helpers, env: (nat, nat) -> Environment)

  /** A server-sent event of the run stream. */
  datatype RouteEvent =
    | RunCreated(runId: string, name: string, agentId: string, createdBy: string)
    | PairMessage(personaId: string, message: AgentEvent)
    | ChatComplete(chatId: string, success: bool)
    | PairError(personaId: string, error: string)
    | Complete(testId: string)

  /** What a stored chat holds: each event the agent emitted, with the pair's chat id spread into it. */
  datatype StoredEvent = StoredEvent(event: AgentEvent, chatId: string)

  /** One observable step of the handler: a database write or an enqueued event. */
  datatype Effect =
    | CreateRun(run: TestRun<StoredEvent>)
    | Emit(event: RouteEvent)
    | UpdateRun(run: TestRun<StoredEvent>)

  datatype Rejection = Rejection(status: nat, error: string)

  /** An early JSON error response, or the event stream with everything it caused. */
  datatype Response = Rejected(status: nat, error: string) | Streaming(effects: seq<Effect>)

  /** What the checks let through. */
  datatype Admitted = Admitted(testId: string, apiKey: string, model: string, profile: Profile, config: TestConfig)

  /**
   * What the pair loop works with. `outcome` is what the streaming conversation of
   * each (scenario, persona) pair ends in; `Consistent` ties it to the agent's model.
   */
  datatype Setup = Setup(
    scenarios: seq<Scenario>,
    personas: seq<string>,
    base: AgentConfig,
    agents: Agents,
    ids: FreshValues,
    outcome: (nat, nat) -> StreamOutcome)

  /** The precondition chain: the first failing check decides the response. */
  function Admit(req: Request, db: Database): Result<Admitted, Rejection>
  {
    if !Truthy(req.userId) then Failure(Rejection(401, "Unauthorized"))
    else if !Truthy(req.testId) then Failure(Rejection(400, "Test ID is required"))
    else if !Truthy(req.apiKey) then Failure(Rejection(500, "Anthropic API key is missing on the server."))
    else
      match db.profileOf(req.userId.value)
      case None => Failure(Rejection(404, "User profile not found"))
      case Some(profile) =>
        match db.configOf(req.testId.value)
        case None => Failure(Rejection(404, "Test configuration not found"))
        case Some(config) =>
          if config.orgId != profile.orgId then Failure(Rejection(403, "Unauthorized access to test"))
          else Success(Admitted(req.testId.value, req.apiKey.value,
                                if Truthy(req.model) then req.model.value else "", profile, config))
  }

  /** A stored rule in the agent's form: a fresh id, the description defaulting to "", and marked valid. */
  function FormatRule(rule: ConfigRule, id: string): Rule
  {
    Rule(id, rule.path, rule.condition, rule.value,
      if Truthy(rule.description) then rule.description.value else "", true)
  }

  function FormatRules(rules: seq<ConfigRule>, ruleId: nat -> string): seq<Rule>
  {
    seq(|rules|, i requires 0 <= i < |rules| => FormatRule(rules[i], ruleId(i)))
  }

  /** `typeof v === 'object' ? v : {}`. */
  function NormalizeFormat(v: Option<Json>): Json
  {
    if TypeofObject(v) then v.value else JObject(map[])
  }

  /** The personas of the mapping, none when it has no list. */
  function SelectedPersonas(db: Database, testId: string): seq<string>
  {
    match db.personaIdsOf(testId)
    case Some(ids) => ids
    case None => []
  }

  /** The configuration every pair's agent shares: headers, model, endpoint, formats, rules and key. */
  function BaseConfig(a: Admitted, ids: FreshValues): AgentConfig
  {
    AgentConfig(a.config.headers, Some(a.model), a.config.endpoint,
      ApiConfig(NormalizeFormat(a.config.inputFormat), NormalizeFormat(a.config.responseData),
        FormatRules(a.config.rules, ids.ruleId)),
      None, Some(a.apiKey))
  }

  /** What the streaming conversation of a pair ends in, by the agent's model. */
  function Outcomes(base: AgentConfig, personas: seq<string>, agents: Agents): (nat, nat) -> StreamOutcome
  {
    (si: nat, pi: nat) =>
      if pi < |personas| then StreamSpec(base.(persona := Some(personas[pi])), agents.h, agents.env(si, pi))
      else StreamOutcome([], None)
  }

  function SetupFor(a: Admitted, db: Database, ids: FreshValues, agents: Agents): Setup
  {
    var personas := SelectedPersonas(db, a.testId);
    var base := BaseConfig(a, ids);
    Setup(db.testCasesOf(a.testId), personas, base, agents, ids, Outcomes(base, personas, agents))
  }

  /** The run record created before any pair runs. */
  function InitialRun(a: Admitted, s: Setup): TestRun<StoredEvent>
  {
    var total := |s.scenarios| * |s.personas|;
    TestRun(s.ids.runId, a.config.name, s.ids.runTimestamp, RunRunning,
      Metrics(total, 0, 0, total, 0, 0, None), [], a.testId, a.profile.id)
  }

  /** The agent configuration of a pair: the shared one with the pair's persona. */
  function PairConfig(s: Setup, pi: nat): AgentConfig
    requires pi < |s.personas|
  {
    s.base.(persona := Some(s.personas[pi]))
  }

  /** The outcome recorded for a pair is what its agent's streaming conversation emits and rethrows. */
  predicate PairConsistent(s: Setup, si: nat, pi: nat)
    requires pi < |s.personas|
  {
    s.outcome(si, pi) == StreamSpec(PairConfig(s, pi), s.agents.h, s.agents.env(si, pi))
  }

  predicate Consistent(s: Setup)
  {
    forall si: nat, pi: nat :: si < |s.scenarios| && pi < |s.personas| ==> PairConsistent(s, si, pi)
  }

  /** `error.message || "Unknown error occurred"`. */
  function ErrorText(e: CallError): string
  {
    if e.message != "" then e.message else UnknownErrorMessage
  }

  /** Every agent event forwarded as a `message` event tagged with the persona. */
  function Forwarded(personaId: string, events: seq<AgentEvent>): seq<Effect>
  {
    seq(|events|, i requires 0 <= i < |events| => Emit(PairMessage(personaId, events[i])))
  }

  function Stamp(events: seq<AgentEvent>, chatId: string): seq<StoredEvent>
  {
    seq(|events|, i requires 0 <= i < |events| => StoredEvent(events[i], chatId))
  }

  /** The event that closes a pair: `chat_complete` when its conversation finished, the pair's error otherwise. */
  function PairClosing(s: Setup, si: nat, pi: nat): Effect
    requires pi < |s.personas|
  {
    var out := s.outcome(si, pi);
    if out.error.Some? then Emit(PairError(s.personas[pi], ErrorText(out.error.value)))
    else Emit(ChatComplete(s.ids.chatId(si, pi), true))
  }

  /** The events of one pair: what its agent emitted, then the closing event. */
  function PairEffects(s: Setup, si: nat, pi: nat): seq<Effect>
    requires pi < |s.personas|
  {
    Forwarded(s.personas[pi], s.outcome(si, pi).events) + [PairClosing(s, si, pi)]
  }

  /** The chat of a pair: named after its scenario, passed, holding the agent's events stamped with the pair's chat id. */
  function CompletedChat(s: Setup, si: nat, pi: nat): Chat<StoredEvent>
    requires si < |s.scenarios| && pi < |s.personas|
  {
    var chatId := s.ids.chatId(si, pi);
    Chat(chatId, s.scenarios[si].scenario, s.scenarios[si].scenario, ChatPassed, Stamp(s.outcome(si, pi).events, chatId),
      EmptyChatMetrics, s.ids.chatTimestamp(si, pi), s.personas[pi])
  }

  /** The chats a pair adds: its chat when its conversation finished, none when it failed. */
  function PairChats(s: Setup, si: nat, pi: nat): seq<Chat<StoredEvent>>
    requires si < |s.scenarios| && pi < |s.personas|
  {
    if s.outcome(si, pi).error.Some? then [] else [CompletedChat(s, si, pi)]
  }

  /**
   * A position of the pair loops: before persona pi of scenario si. The end of
   * the loops is (|scenarios|, 0).
   */
  predicate Cursor(s: Setup, si: nat, pi: nat)
  {
    (si < |s.scenarios| && pi <= |s.personas|) || (si == |s.scenarios| && pi == 0)
  }

  /** The events of every pair before the cursor, scenario-outer and persona-inner. */
  function EffectsBefore(s: Setup, si: nat, pi: nat): seq<Effect>
    requires Cursor(s, si, pi)
    decreases si, pi
  {
    if pi > 0 then EffectsBefore(s, si, pi - 1) + PairEffects(s, si, pi - 1)
    else if si > 0 then EffectsBefore(s, si - 1, |s.personas|)
    else []
  }

  /** The chats of every pair before the cursor. */
  function ChatsBefore(s: Setup, si: nat, pi: nat): seq<Chat<StoredEvent>>
    requires Cursor(s, si, pi)
    decreases si, pi
  {
    if pi > 0 then ChatsBefore(s, si, pi - 1) + PairChats(s, si, pi - 1)
    else if si > 0 then ChatsBefore(s, si - 1, |s.personas|)
    else []
  }

  /** The events of all pairs. */
  function RunEffects(s: Setup): seq<Effect>
  {
    EffectsBefore(s, |s.scenarios|, 0)
  }

  /** The chats of all pairs. */
  function RunChats(s: Setup): seq<Chat<StoredEvent>>
  {
    ChatsBefore(s, |s.scenarios|, 0)
  }

  /** The run record written at the end: the completed chats, status completed, nothing else changed. */
  function FinalRun(a: Admitted, s: Setup): TestRun<StoredEvent>
  {
    InitialRun(a, s).(chats := RunChats(s), status := RunCompleted)
  }

  /** The stream of an admitted request: the run record, `run_created`, every pair, the final record, `complete`. */
  function RunStream(a: Admitted, s: Setup): seq<Effect>
  {
    var run := InitialRun(a, s);
    [CreateRun(run), Emit(RunCreated(run.id, run.name, run.agentId, run.createdBy))]
      + RunEffects(s)
      + [UpdateRun(FinalRun(a, s)), Emit(Complete(a.testId))]
  }

  /** The whole response of `POST`. */
  function PostSpec(req: Request, db: Database, ids: FreshValues, agents: Agents): Response
  {
    match Admit(req, db)
    case Failure(r) => Rejected(r.status, r.error)
    case Success(a) => Streaming(RunStream(a, SetupFor(a, db, ids, agents)))
  }

  /** The outcomes the agent's model predicts are consistent with it. */
  lemma OutcomesConsistent(s: Setup)
    requires s.outcome == Outcomes(s.base, s.personas, s.agents)
    ensures Consistent(s)
  {
    forall si: nat, pi: nat | si < |s.scenarios| && pi < |s.personas|
      ensures PairConsistent(s, si, pi)
    {
    }
  }

  /** One (scenario, persona) pair: a new agent runs the streaming conversation, and its outcome is reported. */
  method RunPair(s: Setup, si: nat, pi: nat) returns (effects: seq<Effect>, chats: seq<Chat<StoredEvent>>)
    requires si < |s.scenarios| && pi < |s.personas|
    requires Truthy(s.base.userApiKey) && Consistent(s)
    ensures effects == PairEffects(s, si, pi)
    ensures chats == PairChats(s, si, pi)
  {
    assert PairConsistent(s, si, pi);
    var scenario := s.scenarios[si];
    var personaId := s.personas[pi];
    var chatId := s.ids.chatId(si, pi);
    var agent := new QaAgent(PairConfig(s, pi));
    var out := agent.RunTestStreaming(s.agents.h, s.agents.env(si, pi));
    effects := Forwarded(personaId, out.events);
    var chatMessages := out.events;
    if out.error.Some? {
      effects := effects + [Emit(PairError(personaId, ErrorText(out.error.value)))];
      chats := [];
    } else {
      effects := effects + [Emit(ChatComplete(chatId, true))];
      chats := [Chat(chatId, scenario.scenario, scenario.scenario, ChatPassed, Stamp(chatMessages, chatId),
                     EmptyChatMetrics, s.ids.chatTimestamp(si, pi), personaId)];
    }
  }

  /**
   * The inner loop: every persona of scenario si, in order, each pair's events
   * appended to the stream and its chat to the completed chats.
   */
  method RunScenario(s: Setup, si: nat, effects0: seq<Effect>, chats0: seq<Chat<StoredEvent>>)
    returns (effects: seq<Effect>, chats: seq<Chat<StoredEvent>>)
    requires si < |s.scenarios| && Truthy(s.base.userApiKey) && Consistent(s)
    requires effects0 == EffectsBefore(s, si, 0) && chats0 == ChatsBefore(s, si, 0)
    ensures effects == EffectsBefore(s, si + 1, 0)
    ensures chats == ChatsBefore(s, si + 1, 0)
  {
    effects := effects0;
    chats := chats0;
    var pi := 0;
    while pi < |s.personas|
      invariant 0 <= pi <= |s.personas|
      invariant effects == EffectsBefore(s, si, pi)
      invariant chats == ChatsBefore(s, si, pi)
    {
      var pairEffects, pairChats := RunPair(s, si, pi);
      effects := effects + pairEffects;
      chats := chats + pairChats;
      pi := pi + 1;
    }
  }

  /** The outer loop: every scenario, in order. */
  method RunPairs(s: Setup) returns (effects: seq<Effect>, completedChats: seq<Chat<StoredEvent>>)
    requires Truthy(s.base.userApiKey) && Consistent(s)
    ensures effects == RunEffects(s)
    ensures completedChats == RunChats(s)
  {
    effects := [];
    completedChats := [];
    var si := 0;
    while si < |s.scenarios|
      invariant 0 <= si <= |s.scenarios|
      invariant effects == EffectsBefore(s, si, 0)
      invariant completedChats == ChatsBefore(s, si, 0)
    {
      effects, completedChats := RunScenario(s, si, effects, completedChats);
      si := si + 1;
    }
  }

  /** The precondition chain of `POST`, checked in order. */
  method CheckRequest(req: Request, db: Database) returns (r: Result<Admitted, Rejection>)
    ensures r == Admit(req, db)
  {
    if !Truthy(req.userId) {
      return Failure(Rejection(401, "Unauthorized"));
    }
    if !Truthy(req.testId) {
      return Failure(Rejection(400, "Test ID is required"));
    }
    var testId := req.testId.value;
    var apiKey := req.apiKey;
    var modelFromHeader := if Truthy(req.model) then req.model.value else "";
    if !Truthy(apiKey) {
      return Failure(Rejection(500, "Anthropic API key is missing on the server."));
    }
    var profile := db.profileOf(req.userId.value);
    if profile.None? {
      return Failure(Rejection(404, "User profile not found"));
    }
    var testConfig := db.configOf(testId);
    if testConfig.None? {
      return Failure(Rejection(404, "Test configuration not found"));
    }
    if testConfig.value.orgId != profile.value.orgId {
      return Failure(Rejection(403, "Unauthorized access to test"));
    }
    return Success(Admitted(testId, apiKey.value, modelFromHeader, profile.value, testConfig.value));
  }

  /** `POST`: the checks, then the run record, the pairs, the final record and the closing event. */
  method Post(req: Request, db: Database, ids: FreshValues, agents: Agents) returns (resp: Response)
    ensures resp == PostSpec(req, db, ids, agents)
  {
    var admission := CheckRequest(req, db);
    if admission.Failure? {
      return Rejected(admission.error.status, admission.error.error);
    }
    var admitted := admission.value;
    var testId := admitted.testId;
    var testConfig := admitted.config;
    var scenarios := db.testCasesOf(testId);
    var selectedPersonas := SelectedPersonas(db, testId);
    var totalRuns := |scenarios| * |selectedPersonas|;
    var testRun := TestRun(ids.runId, testConfig.name, ids.runTimestamp, RunRunning,
      Metrics(totalRuns, 0, 0, totalRuns, 0, 0, None), [], testId, admitted.profile.id);
    var effects := [CreateRun(testRun)];
    var formattedRules := FormatRules(testConfig.rules, ids.ruleId);
    var inputFormat := NormalizeFormat(testConfig.inputFormat);
    var outputFormat := NormalizeFormat(testConfig.responseData);
    var base := AgentConfig(testConfig.headers, Some(admitted.model), testConfig.endpoint,
      ApiConfig(inputFormat, outputFormat, formattedRules), None, Some(admitted.apiKey));
    var setup := Setup(scenarios, selectedPersonas, base, agents, ids, Outcomes(base, selectedPersonas, agents));
    assert setup == SetupFor(admitted, db, ids, agents);
    assert testRun == InitialRun(admitted, setup);
    OutcomesConsistent(setup);
    effects := effects + [Emit(RunCreated(testRun.id, testRun.name, testRun.agentId, testRun.createdBy))];
    var pairEffects, completedChats := RunPairs(setup);
    effects := effects + pairEffects;
    testRun := testRun.(chats := completedChats, status := RunCompleted);
    effects := effects + [UpdateRun(testRun)];
    effects := effects + [Emit(Complete(testId))];
    return Streaming(effects);
  }
}
