/**
 * The test execution hook of the browser, src/hooks/useTestExecution.ts: it starts
 * a run on the server's event stream, keeps a status, an error and a progress
 * counter, folds incoming messages into the selected run and finalises the run's
 * metrics when the stream says `complete`.
 *
 * Browser storage, the clock, random ids and the event-stream library are
 * parameters: each callback of the stream is a method the library would call.
 */
module TestExecution {
  import opened Common
  import opened Runs
  import opened TestRunsStore

  datatype ExecutionStatus = Idle | Connecting | Running | Completed | Failed

  /** `TestExecutionError`; the code never sets its optional `code` and `details`. */
  datatype ExecutionError = ExecutionError(message: string)

  datatype Progress = Progress(completed: nat, total: nat)

  /** One `message` callback of the stream: no data, data that is not a JSON object, or an object with its `type`. */
  datatype IncomingEvent = NoData | Malformed | Parsed(eventType: Option<string>)

  const MissingConfigMessage: string := "Anthropic API key or model is missing. Please configure them."
  const LiveUpdateErrorMessage: string := "An error occurred with the live update connection."
  const ConnectionErrorPrefix: string := "Connection error: "

  // ---------------------------------------------------------------------------
  // Folding a message into the selected run

  /** A message goes into the chat with its chat id, or else into the chat of its scenario. */
  predicate BelongsTo(c: Chat<Message>, m: Message)
  {
    c.id == m.chatId || m.scenario == Some(c.scenario)
  }

  function ChatIndexOf(chats: seq<Chat<Message>>, m: Message): int
  {
    FindIndex(chats, (c: Chat<Message>) => BelongsTo(c, m))
  }

  /** The chat opened for a message of a scenario that has none yet: running, holding only that message, no persona. */
  function NewChat(m: Message, freshId: string, now: string): Chat<Message>
    requires m.scenario.Some?
  {
    Chat(if m.chatId != "" then m.chatId else freshId, m.scenario.value, m.scenario.value, ChatRunning, [m],
      EmptyChatMetrics, now, "")
  }

  /** The run the effect writes for one message: None when the message has neither a chat nor a scenario. */
  function MergeMessage(run: TestRun<Message>, m: Message, freshId: string, now: string): Option<TestRun<Message>>
  {
    var index := ChatIndexOf(run.chats, m);
    if index != -1 then
      Some(run.(chats := run.chats[index := run.chats[index].(messages := run.chats[index].messages + [m])]))
    else if Truthy(m.scenario) then
      Some(run.(chats := run.chats + [NewChat(m, freshId, now)]))
    else None
  }

  /** What the effect writes: the latest message folded into the selected run, nothing without either. */
  function MergedRun(selected: Option<TestRun<Message>>, messages: seq<Message>, freshId: string, now: string)
    : Option<TestRun<Message>>
  {
    if |messages| > 0 && selected.Some? then MergeMessage(selected.value, messages[|messages| - 1], freshId, now)
    else None
  }

  /**
   * A message with a matching chat is appended to the first such chat; every other
   * chat, the number of chats and the rest of the run stay as they were.
   */
  lemma MergeMatched(run: TestRun<Message>, m: Message, freshId: string, now: string, k: nat)
    requires k < |run.chats| && BelongsTo(run.chats[k], m)
    requires forall i :: 0 <= i < k ==> !BelongsTo(run.chats[i], m)
    ensures var r := MergeMessage(run, m, freshId, now);
      && r.Some?
      && r.value == run.(chats := r.value.chats)
      && |r.value.chats| == |run.chats|
      && r.value.chats[k] == run.chats[k].(messages := run.chats[k].messages + [m])
      && forall i :: 0 <= i < |run.chats| && i != k ==> r.value.chats[i] == run.chats[i]
  {
    assert ChatIndexOf(run.chats, m) == k;
  }

  /**
   * A message with no matching chat but a scenario opens a new running chat at the
   * end, named after the scenario, holding only that message and with no persona;
   * its id is the message's chat id, or a fresh one when that is empty.
   */
  lemma MergeCreates(run: TestRun<Message>, m: Message, freshId: string, now: string)
    requires forall i :: 0 <= i < |run.chats| ==> !BelongsTo(run.chats[i], m)
    requires Truthy(m.scenario)
    ensures var r := MergeMessage(run, m, freshId, now);
      && r.Some?
      && r.value == run.(chats := r.value.chats)
      && |r.value.chats| == |run.chats| + 1
      && r.value.chats[..|run.chats|] == run.chats
      && var c := r.value.chats[|run.chats|];
         && c.status == ChatRunning && c.messages == [m] && c.personaId == ""
         && c.name == m.scenario.value && c.scenario == m.scenario.value
         && c.id == (if m.chatId != "" then m.chatId else freshId)
  {
    assert ChatIndexOf(run.chats, m) == -1;
    var r := MergeMessage(run, m, freshId, now).value;
    assert r.chats == run.chats + [NewChat(m, freshId, now)];
  }

  /** Nothing is written without messages, without a selected run, or for a message with neither a chat nor a scenario. */
  lemma MergeUnchanged(selected: Option<TestRun<Message>>, messages: seq<Message>, freshId: string, now: string)
    ensures |messages| == 0 || selected.None? ==> MergedRun(selected, messages, freshId, now).None?
    ensures |messages| > 0 && selected.Some? ==>
      (MergedRun(selected, messages, freshId, now).None? <==>
         && (forall i :: 0 <= i < |selected.value.chats| ==> !BelongsTo(selected.value.chats[i], messages[|messages| - 1]))
         && !Truthy(messages[|messages| - 1].scenario))
  {
    if |messages| > 0 && selected.Some? {
      var m := messages[|messages| - 1];
      if ChatIndexOf(selected.value.chats, m) != -1 {
        assert MergedRun(selected, messages, freshId, now).Some?;
      }
    }
  }

  /**
   * The merge does not recognise a message it has already folded in: applied to
   * its own result with the same message, it appends that message a second time
   * to the same chat.
   */
  lemma MergeRepeats(run: TestRun<Message>, m: Message, freshId: string, now: string, freshId2: string, now2: string)
    requires MergeMessage(run, m, freshId, now).Some?
    ensures var r := MergeMessage(run, m, freshId, now).value;
      var again := MergeMessage(r, m, freshId2, now2);
      var j := ChatIndexOf(r.chats, m);
      && 0 <= j < |r.chats|
      && again.Some?
      && |again.value.chats| == |r.chats|
      && again.value.chats[j].messages == r.chats[j].messages + [m]
      && multiset(again.value.chats[j].messages)[m] == multiset(r.chats[j].messages)[m] + 1
      && multiset(r.chats[j].messages)[m] >= 1
  {
    var r := MergeMessage(run, m, freshId, now).value;
    var index := ChatIndexOf(run.chats, m);
    if index != -1 {
      assert forall i :: 0 <= i < index ==> r.chats[i] == run.chats[i];
      assert BelongsTo(r.chats[index], m);
      assert ChatIndexOf(r.chats, m) == index;
      assert r.chats[index].messages[|r.chats[index].messages| - 1] == m;
    } else {
      var n := |run.chats|;
      assert r.chats == run.chats + [NewChat(m, freshId, now)];
      assert forall i :: 0 <= i < n ==> r.chats[i] == run.chats[i];
      assert BelongsTo(r.chats[n], m);
      assert ChatIndexOf(r.chats, m) == n;
      assert r.chats[n].messages == [m];
    }
    var j := ChatIndexOf(r.chats, m);
    var again := MergeMessage(r, m, freshId2, now2).value;
    assert again.chats[j].messages == r.chats[j].messages + [m];
    assert m in multiset(r.chats[j].messages);
  }

  // ---------------------------------------------------------------------------
  // Finalising on `complete`

  const IsPassed: Chat<Message> -> bool := (c: Chat<Message>) => c.status == ChatPassed
  const IsFailed: Chat<Message> -> bool := (c: Chat<Message>) => c.status == ChatFailed
  const IsRunning: Chat<Message> -> bool := (c: Chat<Message>) => c.status == ChatRunning

  /** The run written on `complete`: completed, `total` its number of chats, `passed` and `failed` counted from them. */
  function Finalize(run: TestRun<Message>): TestRun<Message>
  {
    run.(status := RunCompleted,
         metrics := run.metrics.(total := |run.chats|,
                                 passed := CountWhere(run.chats, IsPassed),
                                 failed := CountWhere(run.chats, IsFailed)))
  }

  /** Every chat is passed, failed or running, so the three counts add up to the number of chats. */
  lemma {:induction false} StatusCounts(chats: seq<Chat<Message>>)
    ensures CountWhere(chats, IsPassed) + CountWhere(chats, IsFailed) + CountWhere(chats, IsRunning) == |chats|
    decreases |chats|
  {
    if |chats| > 0 {
      StatusCounts(chats[..|chats| - 1]);
    }
  }

  /**
   * The finalised run is completed, counts its chats as `total`, and `passed`
   * plus `failed` never exceed it, the difference being the chats still
   * running; chats, ids, names and the other metric fields are kept.
   */
  lemma FinalizeFields(run: TestRun<Message>)
    ensures var f := Finalize(run);
      && f.status == RunCompleted
      && f.metrics.total == |run.chats|
      && f.metrics.passed + f.metrics.failed <= f.metrics.total
      && f.metrics.total - f.metrics.passed - f.metrics.failed == CountWhere(run.chats, IsRunning)
      && f.chats == run.chats && f.id == run.id && f.name == run.name && f.timestamp == run.timestamp
      && f.agentId == run.agentId && f.createdBy == run.createdBy
      && f.metrics.chats == run.metrics.chats && f.metrics.correct == run.metrics.correct
      && f.metrics.incorrect == run.metrics.incorrect && f.metrics.sentimentScores == run.metrics.sentimentScores
  {
    StatusCounts(run.chats);
  }

  /** A run whose chats all passed finalises with every chat passed and none failed. */
  lemma FinalizeAllPassed(run: TestRun<Message>)
    requires forall i :: 0 <= i < |run.chats| ==> run.chats[i].status == ChatPassed
    ensures Finalize(run).metrics.passed == Finalize(run).metrics.total
    ensures Finalize(run).metrics.failed == 0
  {
    CountWhereNone(run.chats, IsFailed);
    CountWhereNone(run.chats, IsRunning);
    StatusCounts(run.chats);
  }

  // ---------------------------------------------------------------------------
  // The hook

  /** The run `executeTest` creates: running, empty, with zero metrics, for the given test. */
  function NewRun(testId: string, runId: string, localTime: string, now: string): TestRun<Message>
  {
    TestRun(runId, "Run " + localTime, now, RunRunning, Metrics(0, 0, 0, 0, 0, 0, Some(Sentiment(0, 0, 0))), [],
      testId, "")
  }

  /** `localStorage.getItem(key) || ""`. */
  function StoredOrEmpty(v: Option<string>): string
  {
    if Truthy(v) then v.value else ""
  }

  class Execution {
    var store: RunsStore
    var status: ExecutionStatus
    var error: Option<ExecutionError>
    var progress: Progress
    var currentMessages: seq<Message>
    /**
     * The selected run as the stream's callbacks see it: they close over the
     * render that created `executeTest`, so this is the run selected before the
     * new one.
     */
    var streamRun: Option<TestRun<Message>>

    constructor()
      ensures fresh(store) && store.runs == [] && store.selectedRun == None
      ensures status == Idle && error == None && progress == Progress(0, 0)
      ensures currentMessages == [] && streamRun == None
    {
      store := new RunsStore();
      status := Idle;
      error := None;
      progress := Progress(0, 0);
      currentMessages := [];
      streamRun := None;
    }

    /** `isExecuting`. */
    predicate IsExecuting()
      reads this
    {
      status == Connecting || status == Running
    }

    /**
     * The effect on new messages: the merged run becomes the selected run and is
     * upserted into the list. The hook itself never hands the effect a message:
     * `currentMessages` is only ever reset to empty, and the stream's `message`
     * callback reacts to `complete` alone, so in the hook as written this effect
     * writes nothing.
     */
    method MergeEffect(freshId: string, now: string)
      modifies store
      ensures var merged := MergedRun(old(store.selectedRun), currentMessages, freshId, now);
        && (merged.None? ==> store.runs == old(store.runs) && store.selectedRun == old(store.selectedRun))
        && (merged.Some? ==> store.runs == Upsert(old(store.runs), merged.value) && store.selectedRun == merged)
    {
      if |currentMessages| > 0 && store.selectedRun.Some? {
        var latestMessage := currentMessages[|currentMessages| - 1];
        var run := store.selectedRun.value;
        var chatIndex := ChatIndexOf(run.chats, latestMessage);
        if chatIndex != -1 {
          var updatedChats := run.chats[chatIndex := run.chats[chatIndex].(messages := run.chats[chatIndex].messages + [latestMessage])];
          var updatedRun := run.(chats := updatedChats);
          store.SetSelectedRun(Some(updatedRun));
          store.UpdateRun(updatedRun);
        } else if Truthy(latestMessage.scenario) {
          var newChat := Chat(if latestMessage.chatId != "" then latestMessage.chatId else freshId,
            latestMessage.scenario.value, latestMessage.scenario.value, ChatRunning, [latestMessage],
            EmptyChatMetrics, now, "");
          var updatedRun := run.(chats := run.chats + [newChat]);
          store.SetSelectedRun(Some(updatedRun));
          store.UpdateRun(updatedRun);
        }
      }
    }

    /**
     * `executeTest`: without a stored API key and model it fails with the
     * configuration message before any run exists; otherwise it adds and selects a
     * new run and is running.
     */
    method ExecuteTest(testId: string, storedKey: Option<string>, storedModel: Option<string>,
                       runId: string, localTime: string, now: string)
      modifies this, store
      ensures store == old(store) && progress == old(progress) && currentMessages == []
      ensures IsExecuting() <==> Truthy(storedKey) && Truthy(storedModel)
      ensures !(Truthy(storedKey) && Truthy(storedModel)) ==>
        && status == Failed && error == Some(ExecutionError(MissingConfigMessage))
        && store.runs == old(store.runs) && store.selectedRun == old(store.selectedRun) && streamRun == old(streamRun)
      ensures Truthy(storedKey) && Truthy(storedModel) ==>
        && status == Running && error == None
        && store.runs == [NewRun(testId, runId, localTime, now)] + old(store.runs)
        && store.selectedRun == Some(NewRun(testId, runId, localTime, now))
        && streamRun == old(store.selectedRun)
    {
      status := Connecting;
      error := None;
      currentMessages := [];
      var userApiKey := StoredOrEmpty(storedKey);
      var userModel := StoredOrEmpty(storedModel);
      if userApiKey == "" || userModel == "" {
        status := Failed;
        error := Some(ExecutionError(MissingConfigMessage));
        return;
      }
      var newRun := NewRun(testId, runId, localTime, now);
      streamRun := store.selectedRun;
      store.AddRun(newRun);
      store.SetSelectedRun(Some(newRun));
      status := Running;
    }

    /** `onopen`: a response that is not ok fails the execution with its status code. */
    method OnOpen(ok: bool, httpStatus: nat)
      modifies this
      ensures store == old(store) && progress == old(progress) && currentMessages == old(currentMessages)
      ensures streamRun == old(streamRun)
      ensures ok ==> status == old(status) && error == old(error)
      ensures !ok ==> status == Failed && error == Some(ExecutionError(ConnectionErrorPrefix + NatToString(httpStatus)))
      ensures !ok ==> !IsExecuting()
    {
      if !ok {
        status := Failed;
        error := Some(ExecutionError(ConnectionErrorPrefix + NatToString(httpStatus)));
      }
    }

    /**
     * `onmessage`: a `complete` event finalises the run the callbacks see and
     * writes it as the selected run and into the list; every other event changes
     * nothing.
     */
    method OnMessage(event: IncomingEvent)
      modifies store
      ensures event == Parsed(Some("complete")) && streamRun.Some? ==>
        && store.selectedRun == Some(Finalize(streamRun.value))
        && store.runs == Upsert(old(store.runs), Finalize(streamRun.value))
      ensures !(event == Parsed(Some("complete")) && streamRun.Some?) ==>
        store.selectedRun == old(store.selectedRun) && store.runs == old(store.runs)
    {
      if event.Parsed? && event.eventType == Some("complete") {
        if streamRun.Some? {
          var finalRun := Finalize(streamRun.value);
          store.SetSelectedRun(Some(finalRun));
          store.UpdateRun(finalRun);
        }
      }
    }

    /** `onerror`: the execution fails with the live-update message. */
    method OnError()
      modifies this
      ensures status == Failed && error == Some(ExecutionError(LiveUpdateErrorMessage))
      ensures store == old(store) && progress == old(progress) && currentMessages == old(currentMessages)
      ensures streamRun == old(streamRun)
      ensures !IsExecuting()
    {
      error := Some(ExecutionError(LiveUpdateErrorMessage));
      status := Failed;
    }

    /** `onclose`: the server closed the stream, the execution is completed. */
    method OnClose()
      modifies this
      ensures status == Completed && error == old(error)
      ensures store == old(store) && progress == old(progress) && currentMessages == old(currentMessages)
      ensures streamRun == old(streamRun)
      ensures !IsExecuting()
    {
      status := Completed;
    }

    /** `resetState`: idle, no error, no progress. */
    method ResetState()
      modifies this
      ensures status == Idle && error == None && progress == Progress(0, 0)
      ensures store == old(store) && currentMessages == old(currentMessages) && streamRun == old(streamRun)
      ensures !IsExecuting()
    {
      status := Idle;
      error := None;
      progress := Progress(0, 0);
    }
  }
}
