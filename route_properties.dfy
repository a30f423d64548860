/** What the `POST` handler of the test-runs route promises: admission order, run record, stream shape and counts. */
module RouteProperties {
  import opened Common
  import opened Runs
  import opened Agent
  import opened AgentProperties
  import opened Route

  // ---------------------------------------------------------------------------
  // Kinds of effects

  predicate IsRunCreated(e: Effect)
  {
    e.Emit? && e.event.RunCreated?
  }

  predicate IsComplete(e: Effect)
  {
    e.Emit? && e.event.Complete?
  }

  /** An event emitted on behalf of one pair: a forwarded agent event, `chat_complete` or the pair's error. */
  predicate IsPairEvent(e: Effect)
  {
    e.Emit? && (e.event.PairMessage? || e.event.ChatComplete? || e.event.PairError?)
  }

  /** The event that closes a pair's group. */
  predicate IsTerminal(e: Effect)
  {
    e.Emit? && (e.event.ChatComplete? || e.event.PairError?)
  }

  /** The element test the counts below use. */
  const Closing: Effect -> bool := e => IsTerminal(e)

  predicate AllPairEvents(g: seq<Effect>)
  {
    forall i :: 0 <= i < |g| ==> IsPairEvent(g[i])
  }

  /** A chat as the handler stores it: passed, fresh metrics, every stored event stamped with the chat's id. */
  predicate StoredChat(c: Chat<StoredEvent>)
  {
    && c.status == ChatPassed
    && c.metrics == EmptyChatMetrics
    && forall k :: 0 <= k < |c.messages| ==> c.messages[k].chatId == c.id
  }

  predicate AllStored(chats: seq<Chat<StoredEvent>>)
  {
    forall i :: 0 <= i < |chats| ==> StoredChat(chats[i])
  }

  /** Whether the conversation of a pair finished. */
  predicate Finished(s: Setup, si: nat, pi: nat)
  {
    s.outcome(si, pi).error.None?
  }

  /** How many pairs before the cursor finished their conversation. */
  function FinishedBefore(s: Setup, si: nat, pi: nat): nat
    requires Cursor(s, si, pi)
    decreases si, pi
  {
    if pi > 0 then FinishedBefore(s, si, pi - 1) + (if Finished(s, si, pi - 1) then 1 else 0)
    else if si > 0 then FinishedBefore(s, si - 1, |s.personas|)
    else 0
  }

  // ---------------------------------------------------------------------------
  // Admission

  /**
   * The checks run in order and the first failing one decides: no user 401, no test
   * id 400, no API key 500, no profile 404, no configuration 404, another
   * organisation's test 403. Only a request passing all six gets the event stream.
   */
  lemma PostRejectsInOrder(req: Request, db: Database, ids: FreshValues, agents: Agents)
    ensures var resp := PostSpec(req, db, ids, agents);
      && (resp.Rejected? && resp.status == 401 <==> !Truthy(req.userId))
      && (resp.Rejected? && resp.status == 400 <==> Truthy(req.userId) && !Truthy(req.testId))
      && (resp.Rejected? && resp.status == 500 <==> Truthy(req.userId) && Truthy(req.testId) && !Truthy(req.apiKey))
      && (resp.Rejected? && resp.status == 404 <==>
            Truthy(req.userId) && Truthy(req.testId) && Truthy(req.apiKey)
            && (db.profileOf(req.userId.value).None? || db.configOf(req.testId.value).None?))
      && (resp.Rejected? && resp.status == 403 <==>
            Truthy(req.userId) && Truthy(req.testId) && Truthy(req.apiKey)
            && db.profileOf(req.userId.value).Some? && db.configOf(req.testId.value).Some?
            && db.configOf(req.testId.value).value.orgId != db.profileOf(req.userId.value).value.orgId)
      && (resp.Streaming? <==>
            Truthy(req.userId) && Truthy(req.testId) && Truthy(req.apiKey)
            && db.profileOf(req.userId.value).Some? && db.configOf(req.testId.value).Some?
            && db.configOf(req.testId.value).value.orgId == db.profileOf(req.userId.value).value.orgId)
  {
  }

  // ---------------------------------------------------------------------------
  // Run record and agent configuration

  /**
   * The run written before any pair runs: running, no chats, `total` and `chats`
   * both the number of scenarios times the number of selected personas, the other
   * counters zero; a mapping without a persona list selects none.
   */
  lemma InitialRunFields(a: Admitted, db: Database, ids: FreshValues, agents: Agents)
    ensures var run := InitialRun(a, SetupFor(a, db, ids, agents));
      var personas := db.personaIdsOf(a.testId);
      var total := |db.testCasesOf(a.testId)| * (if personas.Some? then |personas.value| else 0);
      && run.status == RunRunning
      && run.chats == []
      && run.metrics == Metrics(total, 0, 0, total, 0, 0, None)
      && run.id == ids.runId && run.name == a.config.name && run.timestamp == ids.runTimestamp
      && run.agentId == a.testId && run.createdBy == a.profile.id
      && (personas.None? ==> run.metrics.total == 0)
  {
  }

  /** One formatted rule per stored rule, in order: fresh id, same path, condition and value, description or "", valid. */
  lemma FormatRulesKeep(rules: seq<ConfigRule>, ruleId: nat -> string)
    ensures var formatted := FormatRules(rules, ruleId);
      && |formatted| == |rules|
      && forall i :: 0 <= i < |rules| ==>
           && formatted[i].id == ruleId(i)
           && formatted[i].path == rules[i].path
           && formatted[i].condition == rules[i].condition
           && formatted[i].value == rules[i].value
           && formatted[i].description == (if Truthy(rules[i].description) then rules[i].description.value else "")
           && formatted[i].isValid
  {
  }

  /**
   * The format normalisation keeps an object and turns an absent, boolean, number
   * or string value into `{}`; since `typeof null` and `typeof []` are both
   * "object", a null or an array is kept as well.
   */
  lemma NormalizeFormatCases(v: Option<Json>)
    ensures v.Some? && v.value.JObject? ==> NormalizeFormat(v) == v.value
    ensures v.Some? && (v.value.JNull? || v.value.JArray?) ==> NormalizeFormat(v) == v.value
    ensures v.None? || v.value.JBool? || v.value.JNumber? || v.value.JString? ==> NormalizeFormat(v) == JObject(map[])
    ensures NormalizeFormat(v).JObject? || NormalizeFormat(v).JNull? || NormalizeFormat(v).JArray?
  {
  }

  /** Every pair's agent gets the test's headers, endpoint, formats and rules, the header model, the server key and the pair's persona. */
  lemma PairConfigFields(a: Admitted, db: Database, ids: FreshValues, agents: Agents, pi: nat)
    requires pi < |SetupFor(a, db, ids, agents).personas|
    ensures var s := SetupFor(a, db, ids, agents);
      var c := PairConfig(s, pi);
      && c.headers == a.config.headers
      && c.endpointUrl == a.config.endpoint
      && c.modelId == Some(a.model)
      && c.userApiKey == Some(a.apiKey)
      && c.persona == Some(s.personas[pi])
      && c.apiConfig.inputFormat == NormalizeFormat(a.config.inputFormat)
      && c.apiConfig.outputFormat == NormalizeFormat(a.config.responseData)
      && c.apiConfig.rules == FormatRules(a.config.rules, ids.ruleId)
  {
  }

  // ---------------------------------------------------------------------------
  // One pair

  /**
   * A pair's group: every event its agent emitted, forwarded in order with the
   * persona, then one closing event, `chat_complete` with success true when the
   * conversation finished and the pair's error otherwise.
   */
  lemma PairGroup(s: Setup, si: nat, pi: nat)
    requires pi < |s.personas|
    ensures var out := s.outcome(si, pi);
      var g := PairEffects(s, si, pi);
      && |g| == |out.events| + 1
      && (forall k :: 0 <= k < |out.events| ==> g[k] == Emit(PairMessage(s.personas[pi], out.events[k])))
      && (out.error.None? ==> g[|g| - 1] == Emit(ChatComplete(s.ids.chatId(si, pi), true)))
      && (out.error.Some? ==> g[|g| - 1] == Emit(PairError(s.personas[pi], ErrorText(out.error.value))))
  {
  }

  /** A group holds only pair events, and exactly one closing event. */
  lemma PairTerminal(s: Setup, si: nat, pi: nat)
    requires pi < |s.personas|
    ensures AllPairEvents(PairEffects(s, si, pi))
    ensures CountWhere(PairEffects(s, si, pi), Closing) == 1
  {
    var fwd := Forwarded(s.personas[pi], s.outcome(si, pi).events);
    var last := PairClosing(s, si, pi);
    assert PairEffects(s, si, pi) == fwd + [last];
    CountWhereNone(fwd, Closing);
    CountWhereAppend(fwd, [last], Closing);
  }

  /** The chat of a finished pair is named after its scenario, belongs to its persona and stores its agent's events. */
  lemma PairChat(s: Setup, si: nat, pi: nat)
    requires si < |s.scenarios| && pi < |s.personas|
    ensures var out := s.outcome(si, pi);
      var chats := PairChats(s, si, pi);
      && (|chats| == 1 <==> out.error.None?)
      && (|chats| == 0 <==> out.error.Some?)
      && (out.error.None? ==>
            && chats[0].id == s.ids.chatId(si, pi)
            && chats[0].name == s.scenarios[si].scenario
            && chats[0].scenario == s.scenarios[si].scenario
            && chats[0].personaId == s.personas[pi]
            && |chats[0].messages| == |out.events|
            && (forall k :: 0 <= k < |out.events| ==> chats[0].messages[k].event == out.events[k]))
      && AllStored(chats)
  {
  }

  /** With a consistent outcome, a pair finishes exactly when every endpoint call of its conversation returned. */
  lemma PairSucceedsIffAnswered(s: Setup, si: nat, pi: nat)
    requires si < |s.scenarios| && pi < |s.personas| && Consistent(s)
    ensures var env := s.agents.env(si, pi);
      && (|PairChats(s, si, pi)| == 1 <==> forall t :: 0 <= t <= |env.plan| ==> env.endpoint(t).Returned?)
      && (PairEffects(s, si, pi)[|PairEffects(s, si, pi)| - 1] == Emit(ChatComplete(s.ids.chatId(si, pi), true))
          <==> forall t :: 0 <= t <= |env.plan| ==> env.endpoint(t).Returned?)
  {
    assert PairConsistent(s, si, pi);
    SucceedsIffAllAnswered(PairConfig(s, pi), s.agents.h, s.agents.env(si, pi));
    PairGroup(s, si, pi);
    PairChat(s, si, pi);
  }

  // ---------------------------------------------------------------------------
  // All pairs

  lemma AllPairEventsAppend(a: seq<Effect>, b: seq<Effect>)
    requires AllPairEvents(a) && AllPairEvents(b)
    ensures AllPairEvents(a + b)
  {
    forall i | 0 <= i < |a + b|
      ensures IsPairEvent((a + b)[i])
    {
      if i >= |a| {
        assert (a + b)[i] == b[i - |a|];
      }
    }
  }

  lemma AllStoredAppend(a: seq<Chat<StoredEvent>>, b: seq<Chat<StoredEvent>>)
    requires AllStored(a) && AllStored(b)
    ensures AllStored(a + b)
  {
    forall i | 0 <= i < |a + b|
      ensures StoredChat((a + b)[i])
    {
      if i >= |a| {
        assert (a + b)[i] == b[i - |a|];
      }
    }
  }

  /** Every event of the pairs before the cursor belongs to a pair. */
  lemma {:induction false} PairEventsBefore(s: Setup, si: nat, pi: nat)
    requires Cursor(s, si, pi)
    ensures AllPairEvents(EffectsBefore(s, si, pi))
    decreases si, pi
  {
    if pi > 0 {
      PairEventsBefore(s, si, pi - 1);
      PairTerminal(s, si, pi - 1);
      AllPairEventsAppend(EffectsBefore(s, si, pi - 1), PairEffects(s, si, pi - 1));
    } else if si > 0 {
      PairEventsBefore(s, si - 1, |s.personas|);
    }
  }

  /** The pairs before the cursor, si whole scenarios and pi more personas, close with one event each. */
  lemma {:induction false} ClosingsBefore(s: Setup, si: nat, pi: nat)
    requires Cursor(s, si, pi)
    ensures CountWhere(EffectsBefore(s, si, pi), Closing) == si * |s.personas| + pi
    decreases si, pi
  {
    if pi > 0 {
      ClosingsBefore(s, si, pi - 1);
      PairTerminal(s, si, pi - 1);
      CountWhereAppend(EffectsBefore(s, si, pi - 1), PairEffects(s, si, pi - 1), Closing);
    } else if si > 0 {
      ClosingsBefore(s, si - 1, |s.personas|);
      assert (si - 1) * |s.personas| + |s.personas| == si * |s.personas|;
    }
  }

  /** The pairs before the cursor add one chat per finished conversation, so at most one per pair, each stored as passed. */
  lemma {:induction false} ChatsBeforeCount(s: Setup, si: nat, pi: nat)
    requires Cursor(s, si, pi)
    ensures |ChatsBefore(s, si, pi)| == FinishedBefore(s, si, pi) <= si * |s.personas| + pi
    ensures AllStored(ChatsBefore(s, si, pi))
    decreases si, pi
  {
    if pi > 0 {
      ChatsBeforeCount(s, si, pi - 1);
      PairChat(s, si, pi - 1);
      AllStoredAppend(ChatsBefore(s, si, pi - 1), PairChats(s, si, pi - 1));
    } else if si > 0 {
      ChatsBeforeCount(s, si - 1, |s.personas|);
      assert (si - 1) * |s.personas| + |s.personas| == si * |s.personas|;
    }
  }

  /**
   * The run written at the end differs from the first only in its chats and its
   * status: one chat per finished pair, so at most `total`, each stored as passed;
   * the counters stay as they were, since the handler never updates `passed` or `failed`.
   */
  lemma FinalRunFields(a: Admitted, s: Setup)
    ensures var first := InitialRun(a, s);
      var last := FinalRun(a, s);
      && last == first.(chats := last.chats, status := RunCompleted)
      && |last.chats| == FinishedBefore(s, |s.scenarios|, 0)
      && |last.chats| <= last.metrics.total
      && AllStored(last.chats)
  {
    ChatsBeforeCount(s, |s.scenarios|, 0);
  }

  // ---------------------------------------------------------------------------
  // The whole stream

  /** The stream of an admitted request: the run record, `run_created`, the pair groups, the final record, `complete`. */
  lemma StreamFrame(a: Admitted, s: Setup)
    ensures var e := RunStream(a, s);
      var run := InitialRun(a, s);
      && |e| == |RunEffects(s)| + 4
      && e[0] == CreateRun(run)
      && e[1] == Emit(RunCreated(run.id, run.name, run.agentId, run.createdBy))
      && e[2..|e| - 2] == RunEffects(s)
      && e[|e| - 2] == UpdateRun(FinalRun(a, s))
      && e[|e| - 1] == Emit(Complete(a.testId))
  {
    var run := InitialRun(a, s);
    var head := [CreateRun(run), Emit(RunCreated(run.id, run.name, run.agentId, run.createdBy))];
    var pairs := RunEffects(s);
    var tail := [UpdateRun(FinalRun(a, s)), Emit(Complete(a.testId))];
    var e := RunStream(a, s);
    assert e == head + pairs + tail;
    assert e[2..|e| - 2] == pairs;
  }

  /** `run_created` and `complete` occur exactly once, first and last among the events; everything between belongs to a pair. */
  lemma StreamEndsOnce(a: Admitted, s: Setup)
    ensures var e := RunStream(a, s);
      && (forall k :: 0 <= k < |e| ==> (IsRunCreated(e[k]) <==> k == 1))
      && (forall k :: 0 <= k < |e| ==> (IsComplete(e[k]) <==> k == |e| - 1))
      && (forall k :: 2 <= k < |e| - 2 ==> IsPairEvent(e[k]))
  {
    StreamFrame(a, s);
    PairEventsBefore(s, |s.scenarios|, 0);
    var e := RunStream(a, s);
    var pairs := RunEffects(s);
    forall k | 2 <= k < |e| - 2
      ensures e[k] == pairs[k - 2]
    {
      assert e[k] == e[2..|e| - 2][k - 2];
    }
  }

  /** Every pair of the run, finished or failed, closes with exactly one `chat_complete` or error event. */
  lemma StreamCounts(a: Admitted, s: Setup)
    ensures CountWhere(RunStream(a, s), Closing) == InitialRun(a, s).metrics.total
  {
    ClosingsBefore(s, |s.scenarios|, 0);
    var run := InitialRun(a, s);
    var head := [CreateRun(run), Emit(RunCreated(run.id, run.name, run.agentId, run.createdBy))];
    var pairs := RunEffects(s);
    var tail := [UpdateRun(FinalRun(a, s)), Emit(Complete(a.testId))];
    assert RunStream(a, s) == head + pairs + tail;
    CountWhereNone(head, Closing);
    CountWhereNone(tail, Closing);
    CountWhereAppend(head, pairs, Closing);
    CountWhereAppend(head + pairs, tail, Closing);
  }

  /** The setup of an admitted request ties every pair's outcome to its agent's streaming conversation. */
  lemma AdmittedSetupConsistent(a: Admitted, db: Database, ids: FreshValues, agents: Agents)
    ensures Consistent(SetupFor(a, db, ids, agents))
  {
    OutcomesConsistent(SetupFor(a, db, ids, agents));
  }
}
