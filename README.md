# Conversation test orchestration, modelled in Dafny

This project models the engine that tests a conversational HTTP endpoint. For every
pair of a test scenario and a simulated persona, it drives a multi-turn conversation
with the endpoint, judges the transcript, and streams what happens to the browser.
The browser keeps a list of test runs, starts a run, and when the stream reports
`complete` it finalises a run's metrics.

Four parts of the repository are modelled, one module each:

- `Agent` (`agent.dfy`, with lemmas in `agent_properties.dfy`) covers the agent of
  `src/services/agents/claude/qaAgent.ts`, which covers:
  - the constructor's key check;
  - `runTest` and `runTestStreaming`: the opening turn, one follow-up turn per planned
    step, and how errors surface (a follow-up timeout becomes the ten-second error);
  - the validation stage: format and rule checks on the last response, the judge on
    the rendered transcript, the verdict attached to the last message, and the
    judge's parse fallback.

  The outside world of a conversation is an `Environment` of oracles: the planner's
  utterances, the endpoint's outcome and latency per turn, fresh ids, the persona
  prompt and the judge's parsed answer.
- `Route` (`route.dfy`, with lemmas in `route_properties.dfy`) covers `POST` of
  `src/app/api/tools/test-runs/route.ts`:
  - the ordered admission checks;
  - the run record;
  - the scenario-outer, persona-inner loop that runs one streaming agent per pair;
  - the final record and the closing event.

  What the handler does is a log of `Effect`s: two database writes and the events
  sent down the stream. Each pair's outcome is a field of `Setup`, and
  `Route.Consistent` ties it to what the agent's model says the conversation does.
- `TestRunsStore` (`testrunsstore.dfy`) covers `src/hooks/useTestRuns.ts`. It is a
  class holding the runs list and the selected run: `addRun` prepends, `updateRun`
  upserts by id, and the selected run follows an update with its id.
- `TestExecution` (`testexecution.dfy`) covers `src/hooks/useTestExecution.ts`:
  - the effect that would fold the latest message into the selected run, which
    the hook never gives a message;
  - the finalisation on `complete`;
  - the `executeTest` status machine and its stream callbacks;
  - `resetState` and `isExecuting`.

`Common` holds an option and result type, a JSON value, JavaScript truthiness for
optional strings and JSON values, `findIndex` and counting. `Runs` holds the records of
`src/types/runs.ts`.

Behaviour of the code that a reader might not expect, all modelled as written:

- The route stores a chat only for a pair whose conversation finished, and always
  with status `passed`. It never updates the run's `passed` and `failed` counters.
- A stored chat holds the agent's event envelopes, each with the pair's chat id
  spread into it. These are not bare messages.
- `typeof null` and `typeof []` are `"object"`. So the format normalisation keeps a
  null or an array instead of replacing it with `{}`.
- The judge fallback's explanation is `"Validation failed"`, written exactly so.
- The `complete` callback of the browser closes over the render that created
  `executeTest`. It therefore finalises the run that was selected before the new
  one, and nothing when none was. `Execution.streamRun` holds that run.
- Streamed messages never reach the browser's run list. The hook has an effect
  that would fold the latest message into the selected run, but nothing ever gives
  it one. `currentMessages` is only reset to empty, its setter is not exported,
  and the stream's `message` callback ignores every event except `complete`.
  `Execution.MergeEffect` models the effect as written. Were it given messages, it
  would re-run whenever it changes the selected run, and it does not recognise a
  message it has already folded in. `MergeRepeats` shows it appends the same
  message again.

## Model

| member | source | states |
|---|---|---|
| Agent.NewQaAgent | src/services/agents/claude/qaAgent.ts:23-46 | construction fails exactly when the API key is absent or empty, with the key error; otherwise the agent keeps its configuration and uses the configured model, or Sonnet 3.5 when none is given |
| Agent.QaAgent.constructor | src/services/agents/claude/qaAgent.ts:23-46 | a constructed agent holds its configuration and the chosen model, and no persona prompt yet |
| Agent.QaAgent.RunTest | src/services/agents/claude/qaAgent.ts:48-228 | `runTest` resolves or rejects as `RunTestSpec` (the conversation stage, then validation); the prompt uses the persona's system prompt only when a persona is configured and has one |
| Agent.QaAgent.RunTestStreaming | src/services/agents/claude/qaAgent.ts:230-458 | `runTestStreaming` emits and rethrows as `StreamSpec`: message events as messages are appended, then an error event and the rethrown error, or a validation and a complete event |
| Agent.BatchConversation | src/services/agents/claude/qaAgent.ts:79-178 | the conversation loop of `runTest` ends as `Conversed`: the first failing call's surfaced error, or the transcript, last response and summed latency after the last planned turn |
| Agent.StreamedConversation | src/services/agents/claude/qaAgent.ts:262-393 | the streaming conversation loop ends as `Conversed` and has emitted exactly `ConversedEvents` |
| Agent.BatchOpening | src/services/agents/claude/qaAgent.ts:83-126 | an opening call that throws rejects with its error unchanged; otherwise the transcript holds the opening utterance and the reply, and the latency is recorded |
| Agent.StreamedOpening | src/services/agents/claude/qaAgent.ts:266-322 | the opening user message is emitted before the call; a throwing call rejects unchanged after that one event; otherwise both messages are emitted |
| Agent.BatchFollowUp | src/services/agents/claude/qaAgent.ts:130-176 | a follow-up turn adds the planned utterance and the reply with the turn's latency; an aborted call becomes the ten-second timeout error, any other error passes through |
| Agent.StreamedFollowUp | src/services/agents/claude/qaAgent.ts:326-391 | the user follow-up is emitted before its call, the reply after it; errors surface as in the batch turn |
| Agent.FirstFailure | src/services/agents/claude/qaAgent.ts:93-97 | the first thrown turn is found exactly when some call threw, and every earlier call returned |
| Agent.Transcript | src/services/agents/claude/qaAgent.ts:105-126 | k answered turns give 2k messages |
| AgentProperties.TranscriptTurn | src/services/agents/claude/qaAgent.ts:157-176 | turn t sits at positions 2t (user) and 2t + 1 (assistant) of every longer transcript |
| AgentProperties.TranscriptShape | src/services/agents/claude/qaAgent.ts:105-176 | roles alternate starting with the user; each message has the chat id, its own fresh id, and the utterance or the reply of its turn |
| AgentProperties.TranscriptIdsDistinct | src/services/agents/claude/qaAgent.ts:105-176 | distinct fresh ids give a transcript with pairwise distinct message ids |
| AgentProperties.ReplyPrefersTextField | src/services/agents/claude/qaAgent.ts:98 | a non-empty `response.text` string is the reply |
| AgentProperties.ReplyKeepsTruthyNonString | src/services/agents/claude/qaAgent.ts:98 | a truthy `response.text` that is not a string (a non-zero number, `true`, an array, an object) is the reply, as the text it renders as |
| AgentProperties.ReplyFallsBackToExtraction | src/services/agents/claude/qaAgent.ts:98 | when the field is missing or holds `null`, `false`, `0` or `""`, the rule-based extraction supplies the reply |
| AgentProperties.SucceedsIffAllAnswered | src/services/agents/claude/qaAgent.ts:93-153 | `runTest` resolves, and `runTestStreaming` ends without an error, exactly when every endpoint call returned |
| AgentProperties.OpeningErrorPassesThrough | src/services/agents/claude/qaAgent.ts:93-97 | an opening-call error of either kind is rethrown unchanged |
| AgentProperties.FollowUpAbortTimesOut | src/services/agents/claude/qaAgent.ts:148-151 | a follow-up `AbortError` surfaces as "API request timed out after 10 seconds" |
| AgentProperties.FollowUpOtherErrorRethrown | src/services/agents/claude/qaAgent.ts:148-153 | any other follow-up error is rethrown unchanged |
| AgentProperties.RenderSnoc | src/services/agents/claude/qaAgent.ts:184-186 | the rendered transcript gains one "Human: …" or "Assistant: …" line per message, separated by a blank line |
| AgentProperties.RenderSeesRolesAndContents | src/services/agents/claude/qaAgent.ts:184-186 | transcripts that agree on roles and contents render identically |
| AgentProperties.AnnotateKeeps | src/services/agents/claude/qaAgent.ts:195-203 | annotation keeps the length and every message's id, chat id, role, content and metrics |
| AgentProperties.AnnotateJudgesLast | src/services/agents/claude/qaAgent.ts:195-203 | with distinct ids, only the last message carries the verdict; earlier ones are marked correct without explanation |
| AgentProperties.UnparsedJudgeFailsTest | src/services/agents/claude/qaAgent.ts:479-487 | a judge answer that does not parse fails the test with "Validation failed", and nothing is thrown |
| AgentProperties.PassedTestIsConjunction | src/services/agents/claude/qaAgent.ts:181-222 | the checks look at the last response only; the test passes exactly when format, rules and judge all hold; the response time is the sum of the turns' latencies |
| AgentProperties.CompletedTranscript | src/services/agents/claude/qaAgent.ts:184-211 | a completed run reports 2(K + 1) messages for a plan of K steps, in order, with the last one judged |
| AgentProperties.StreamFailureEvents | src/services/agents/claude/qaAgent.ts:386-391 | when turn t is the first to throw: the earlier messages and turn t's user message are emitted, then one error event, and no validation or complete event |
| AgentProperties.StreamSuccessEvents | src/services/agents/claude/qaAgent.ts:421-447 | when all calls return: every message in order, then one validation event carrying the validation of the whole conversation, and one complete event carrying the annotated conversation |
| AgentProperties.TranscriptsAgree | src/services/agents/claude/qaAgent.ts:105-176 | batch and streamed transcripts differ only in the user messages' metrics: assistant messages are equal, user messages equal up to response time and validation score |
| AgentProperties.StreamAgreesWithBatch | src/services/agents/claude/qaAgent.ts:48-458 | both entry points fail with the same error, or reach the same verdict on the same rendered transcript with the same checks |
| Route.CheckRequest | src/app/api/tools/test-runs/route.ts:26-59 | the admission chain decides exactly as `Admit` |
| Route.Post | src/app/api/tools/test-runs/route.ts:24-221 | the response is `PostSpec`: the first failing check's error, or the stream of the run record, `run_created`, every pair, the final record and `complete` |
| Route.RunPair | src/app/api/tools/test-runs/route.ts:132-198 | one pair forwards every agent event, then `chat_complete` and its chat when the conversation finished, or the pair's error |
| Route.RunScenario | src/app/api/tools/test-runs/route.ts:131-199 | the persona loop appends the pairs of one scenario, in persona order, to the stream and the chats |
| Route.RunPairs | src/app/api/tools/test-runs/route.ts:130-200 | the scenario loop produces the events and chats of every pair, scenario-outer and persona-inner |
| Route.OutcomesConsistent | src/app/api/tools/test-runs/route.ts:138-165 | outcomes computed from the agent's model are consistent with it for every pair |
| RouteProperties.PostRejectsInOrder | src/app/api/tools/test-runs/route.ts:26-59 | 401 without a user, 400 without a test id, 500 without a key, 404 without a profile or configuration, 403 for another organisation's test; the stream exactly when all checks pass |
| RouteProperties.InitialRunFields | src/app/api/tools/test-runs/route.ts:61-86 | the first record is running with no chats; `total` and `chats` are scenarios times personas; other counters are zero; a missing persona list selects none |
| RouteProperties.FormatRulesKeep | src/app/api/tools/test-runs/route.ts:92-99 | one rule per stored rule, in order, with a fresh id, the same path, condition and value, the description or "", and marked valid |
| RouteProperties.NormalizeFormatCases | src/app/api/tools/test-runs/route.ts:100-102 | an object, null or array is kept; an absent, boolean, number or string value becomes `{}` |
| RouteProperties.PairConfigFields | src/app/api/tools/test-runs/route.ts:138-151 | each pair's agent gets the test's headers, endpoint, formats and rules, the header model, the server key and its persona |
| RouteProperties.PairGroup | src/app/api/tools/test-runs/route.ts:153-198 | a pair's events are the agent's events in order, then `chat_complete` (success true) when it finished, or its error text otherwise |
| RouteProperties.PairTerminal | src/app/api/tools/test-runs/route.ts:156-198 | a pair's events all belong to the pair, and exactly one of them closes it |
| RouteProperties.PairChat | src/app/api/tools/test-runs/route.ts:175-192 | a finished pair adds one chat and a failed one none; the chat is named after the scenario, belongs to the persona, is passed, and stores the agent's events stamped with its chat id |
| RouteProperties.PairSucceedsIffAnswered | src/app/api/tools/test-runs/route.ts:153-198 | a pair gets its chat and `chat_complete` exactly when every endpoint call of its conversation returned |
| RouteProperties.PairEventsBefore | src/app/api/tools/test-runs/route.ts:130-200 | everything the loops send between `run_created` and `complete` belongs to a pair |
| RouteProperties.ClosingsBefore | src/app/api/tools/test-runs/route.ts:130-200 | after si scenarios and pi more personas, exactly si times the persona count plus pi closing events were sent |
| RouteProperties.ChatsBeforeCount | src/app/api/tools/test-runs/route.ts:130-200 | the loops collect one chat per finished pair, so at most one per pair, each stored as passed |
| RouteProperties.FinalRunFields | src/app/api/tools/test-runs/route.ts:202-204 | the final record differs from the first only in its chats and status `completed`; it holds one chat per finished pair, at most `total` |
| RouteProperties.StreamFrame | src/app/api/tools/test-runs/route.ts:88-208 | the log is: create the run, `run_created`, the pairs' events, update the run, `complete` |
| RouteProperties.StreamEndsOnce | src/app/api/tools/test-runs/route.ts:120-208 | `run_created` occurs exactly once, second; `complete` exactly once, last; everything between belongs to a pair |
| RouteProperties.StreamCounts | src/app/api/tools/test-runs/route.ts:130-200 | the stream closes exactly `total` pairs, each with one `chat_complete` or error event |
| RouteProperties.AdmittedSetupConsistent | src/app/api/tools/test-runs/route.ts:138-165 | the setup of an admitted request runs every pair through the agent's model |
| TestRunsStore.UpsertAbsent | src/hooks/useTestRuns.ts:29-33 | an update whose id is not listed puts the run in front; the list grows by one and is otherwise unchanged |
| TestRunsStore.UpsertPresent | src/hooks/useTestRuns.ts:29-37 | an update whose id is listed replaces only the first entry with that id; the length and all other positions are kept |
| TestRunsStore.Upsert | src/hooks/useTestRuns.ts:27-38 | the updated run is in the list afterwards, and the list grows by at most one |
| TestRunsStore.UpsertIdempotent | src/hooks/useTestRuns.ts:27-38 | applying the same update twice equals applying it once |
| TestRunsStore.RunsStore.constructor | src/hooks/useTestRuns.ts:5-6 | the hook starts with no runs and nothing selected |
| TestRunsStore.RunsStore.LoadRuns | src/hooks/useTestRuns.ts:12-16 | the list becomes what the server returned, and the selection is untouched |
| TestRunsStore.RunsStore.SetSelectedRun | src/hooks/useTestRuns.ts:6 | the selected run becomes the given one, and the list is untouched |
| TestRunsStore.RunsStore.AddRun | src/hooks/useTestRuns.ts:18-25 | the new run goes in front and the others keep their order |
| TestRunsStore.RunsStore.UpdateRun | src/hooks/useTestRuns.ts:27-43 | the list is upserted by id; the selected run is replaced exactly when its id equals the updated run's id |
| TestExecution.MergeMatched | src/hooks/useTestExecution.ts:49-69 | a message with a matching chat (same id or same scenario) is appended to the first such chat; other chats, the chat count and the rest of the run are kept |
| TestExecution.MergeCreates | src/hooks/useTestExecution.ts:70-97 | with no matching chat but a scenario, a running chat holding only the message, with no persona, is appended; its id is the message's chat id, or a fresh one when that is empty |
| TestExecution.MergeUnchanged | src/hooks/useTestExecution.ts:44-98 | nothing is written without messages or a selected run; with both, nothing is written exactly when no chat matches and the message has no scenario |
| TestExecution.MergeRepeats | src/hooks/useTestExecution.ts:42-99 | merging the same message into the merged run appends it to the same chat once more |
| TestExecution.StatusCounts | src/hooks/useTestExecution.ts:169-171 | the passed, failed and running chats add up to all chats |
| TestExecution.FinalizeFields | src/hooks/useTestExecution.ts:161-176 | the finalised run is completed with `total` its chat count and passed + failed ≤ total, the difference being the running chats; chats, identity and the other metrics are kept |
| TestExecution.FinalizeAllPassed | src/hooks/useTestExecution.ts:164-173 | when every chat passed, `passed` equals `total` and `failed` is zero |
| TestExecution.Execution.constructor | src/hooks/useTestExecution.ts:15-21 | the hook starts idle, with no error, progress 0/0, no messages and an empty run list |
| TestExecution.Execution.MergeEffect | src/hooks/useTestExecution.ts:42-99 | the merged run, if any, becomes the selected run and is upserted into the list; otherwise nothing changes |
| TestExecution.Execution.ExecuteTest | src/hooks/useTestExecution.ts:101-199 | without a stored key or model: failed with the configuration message, and no run added; otherwise a new empty running run is added in front and selected, and the status is running; executing exactly in the second case |
| TestExecution.Execution.OnOpen | src/hooks/useTestExecution.ts:143-151 | a response that is not ok fails the execution with "Connection error: " and the status code |
| TestExecution.Execution.OnMessage | src/hooks/useTestExecution.ts:152-183 | a `complete` event writes the finalised run as the selected run and into the list; any other event changes nothing |
| TestExecution.Execution.OnError | src/hooks/useTestExecution.ts:184-190 | the execution fails with the live-update error message |
| TestExecution.Execution.OnClose | src/hooks/useTestExecution.ts:191-194 | the execution is completed |
| TestExecution.Execution.IsExecuting | src/hooks/useTestExecution.ts:213 | executing means connecting or running; `ExecuteTest`, `OnOpen`, `OnError`, `OnClose` and `ResetState` state how each step changes it |
| TestExecution.Execution.ResetState | src/hooks/useTestExecution.ts:201-213 | idle, no error, progress 0/0, so not executing |

## Left out

- I/O is not modelled: the database service, Clerk authentication, HTTP requests, `localStorage` and the console. Their results are parameters, such as `Database`, `Request`, `Environment` and the stored key and model.
- Time and randomness are parameters: clocks, latencies, `uuidv4` and `crypto.randomUUID`.
- The language model is not modelled. The prompts, the planner's output parsing (`extractTestMessage`, `extractConversationPlan`) and the judge call are oracles in `Environment`, whose `judge` gives the parsed answer or none.
- `ApiHandler.formatInput`, `ConversationHandler.extractChatResponse`, `ResponseValidator.validateResponseFormat` and `ResponseValidator.validateCondition` are not part of this model. They are fields of `Agent.Helpers`.
- A persona lookup that throws is treated like a missing persona, which is what its handler does. The lookup itself is the oracle `personaPrompt`.
- The conversation's fields `rawOutput` and `chatResponse` are the last response and its reply. A JSON serialisation of the error object in the error event is not modelled.
- `AgentProperties.SucceedsIffAllAnswered`: the calls to the planner and judge model (`chain.invoke`, `this.model.invoke`) are oracles that always answer, so their rejections are not modelled. A judge answer that parses to `null` is not modelled either. These make `runTest` reject, or the stream end with an error event, even when every endpoint call returned. The judge's answer is modelled as either a verdict with a boolean `isCorrect` or unparsable. An answer that parses to a non-object, or to an object whose `isCorrect` is missing or not a boolean, is not represented. In the code such an answer does not reject: `runTest` resolves with that value in place of the verdict, and `passedTest` is whatever `isCorrect` reads as.
- `RouteProperties.PairSucceedsIffAnswered`: for the same reason, a pair whose planner or judge call rejects is not modelled. In the code it gets the pair's error event and no chat, even when every endpoint call returned.
- `RouteProperties.PostRejectsInOrder`: a request body that is not valid JSON, or is `null`, is not modelled. In the code `request.json()` or `.testId` then throws after the 401 check, and the outer `catch` answers 500 instead of 400.
- `Agent.ReplyText`: a message's content is a string in this model. A truthy non-string `response.text` is stored as the text it renders as (`Helpers.show`), where the code stores the value itself. The rendered transcript is the same either way.
- `Route.Post`: the outer `catch` that answers 500 when a database call throws is left out, because database failures are not modelled. So are the SSE framing, the response headers and `controller.close()`. `Database` always holds the test's persona mapping and variations. In the code a missing mapping or missing variations throws when it is read, and is answered with 500. Only a missing `personaIds` inside the mapping is modelled, and it selects no persona.
- The run's `results` list is always empty in the code and is not modelled.
- The route does not handle a client that disconnects, and neither does the model.
- `GET` of the route, `page.tsx` and the persona and agent-config endpoints are outside the modelled core.
- `TestRunsStore.RunsStore.AddRun`: the list is updated at once. In the code the update waits for the `POST` request, so its order relative to `setSelectedRun` is not modelled.
- React's batching and re-rendering are not modelled. Each effect and callback is a method run to completion, and the repeated firing of the merge effect is stated by `MergeRepeats` rather than simulated.
- The event-stream library's behaviour is not modelled: retries, which callbacks it still calls after `controller.abort()`, and what it does with the error thrown from `onopen`.
- `TestExecution.Execution.ExecuteTest`: the transient `connecting` status is overwritten by `running` in the same call. Only the final status is stated.
- `savedAgentConfigs`, `isTyping`, `selectedChat` and their loader are display state, not part of the modelled core.
- Integer widths do not matter here. Counts and latencies are unbounded naturals. JSON numbers are modelled as integers, so a fractional or non-finite number cannot be expressed, such as a `response.text` of `0.5` or a fractional value in a format schema.
- `AgentProperties.PassedTestIsConjunction`: a follow-up turn reads the clock twice, once for the `turnResponseTime` stored on its messages and once for the amount added to `totalResponseTime`. The model uses one latency per turn for both, so the stated sum is an idealisation of the batch total.
