/** The records of src/types/runs.ts: a test run, its metrics, its chats and their messages. */
module Runs {
  import opened Common

  datatype Role = User | Assistant

  /** `TestMessage`; the optional `metrics` object is flattened into its two fields. */
  datatype Message = Message(
    id: string,
    chatId: string,
    role: Role,
    content: string,
    responseTime: nat,
    validationScore: Option<nat>,
    scenario: Option<string>,
    isCorrect: Option<bool>,
    explanation: Option<string>)

  datatype ChatStatus = ChatRunning | ChatPassed | ChatFailed

  datatype ChatMetrics = ChatMetrics(
    correct: nat,
    incorrect: nat,
    responseTime: seq<nat>,
    validationScores: seq<int>,
    contextRelevance: seq<int>)

  /** The metrics every new chat starts with, on the server and in the browser alike. */
  const EmptyChatMetrics := ChatMetrics(0, 0, [], [], [])

  /** `TestChat`, generic in what its `messages` list holds. */
  datatype Chat<M> = Chat(
    id: string,
    name: string,
    scenario: string,
    status: ChatStatus,
    messages: seq<M>,
    metrics: ChatMetrics,
    timestamp: string,
    personaId: string)

  datatype RunStatus = RunRunning | RunCompleted | RunFailed

  datatype Sentiment = Sentiment(positive: nat, neutral: nat, negative: nat)

  datatype Metrics = Metrics(
    total: nat,
    passed: nat,
    failed: nat,
    chats: nat,
    correct: nat,
    incorrect: nat,
    sentimentScores: Option<Sentiment>)

  /** `TestRun`; its `results` list is always empty in the code and is not modelled. */
  datatype TestRun<M> = TestRun(
    id: string,
    name: string,
    timestamp: string,
    status: RunStatus,
    metrics: Metrics,
    chats: seq<Chat<M>>,
    agentId: string,
    createdBy: string)
}
