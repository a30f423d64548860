/**
 * What the conversation orchestrator promises: the shape of the transcript, how
 * endpoint errors surface, how the judge's verdict is attached and combined, and
 * the order of the streamed events.
 */
module AgentProperties {
  import opened Common
  import opened Runs
  import opened Agent

  // ---------------------------------------------------------------------------
  // The transcript

  /** Turn t of a transcript of k turns: the user side at 2t, the assistant side at 2t + 1. */
  lemma {:induction false} TranscriptTurn(v: Variant, config: AgentConfig, h: Helpers, env: Environment, k: nat, t: nat)
    requires Answered(env, k) && t < k
    ensures env.endpoint(t).Returned?
    ensures Transcript(v, config, h, env, k)[2 * t] == UserMessage(v, env, t)
    ensures Transcript(v, config, h, env, k)[2 * t + 1] == AssistantMessage(config, h, env, t)
    decreases k
  {
    if t < k - 1 {
      TranscriptTurn(v, config, h, env, k - 1, t);
    }
  }

  /**
   * Message j of the transcript: roles alternate starting with the user, every
   * message carries the conversation's chat id and the j-th fresh id, and the
   * content is the turn's utterance (even j) or the reply to it (odd j).
   */
  lemma TranscriptShape(v: Variant, config: AgentConfig, h: Helpers, env: Environment, k: nat, j: nat)
    requires Answered(env, k) && j < 2 * k
    ensures j % 2 == 1 ==> env.endpoint(j / 2).Returned?
    ensures var m := Transcript(v, config, h, env, k)[j];
      && m.role == (if j % 2 == 0 then User else Assistant)
      && m.chatId == env.chatId
      && m.id == env.messageId(j)
      && m.content == (if j % 2 == 0 then Utterance(env, j / 2)
                       else ReplyText(h, config.apiConfig.rules, env.endpoint(j / 2).response))
  {
    TranscriptTurn(v, config, h, env, k, j / 2);
  }

  /** Fresh ids are pairwise distinct, so the transcript's message ids are too. */
  lemma TranscriptIdsDistinct(v: Variant, config: AgentConfig, h: Helpers, env: Environment, k: nat)
    requires Answered(env, k)
    requires forall a: nat, b: nat :: a != b ==> env.messageId(a) != env.messageId(b)
    ensures forall i, j :: 0 <= i < j < 2 * k ==>
      Transcript(v, config, h, env, k)[i].id != Transcript(v, config, h, env, k)[j].id
  {
    forall i, j | 0 <= i < j < 2 * k
      ensures Transcript(v, config, h, env, k)[i].id != Transcript(v, config, h, env, k)[j].id
    {
      TranscriptShape(v, config, h, env, k, i);
      TranscriptShape(v, config, h, env, k, j);
    }
  }

  /** The reply text is the endpoint's `response.text` when it is a non-empty string. */
  lemma ReplyPrefersTextField(h: Helpers, rules: seq<Rule>, response: Json, text: string)
    requires response.JObject? && "response" in response.fields
    requires response.fields["response"].JObject? && "text" in response.fields["response"].fields
    requires response.fields["response"].fields["text"] == JString(text) && text != ""
    ensures ReplyText(h, rules, response) == text
  {
  }

  /**
   * A truthy `response.text` that is not a string (a non-zero number, `true`, an
   * array or an object) is the reply too, as the text it renders as.
   */
  lemma ReplyKeepsTruthyNonString(h: Helpers, rules: seq<Rule>, response: Json, v: Json)
    requires response.JObject? && "response" in response.fields
    requires response.fields["response"].JObject? && "text" in response.fields["response"].fields
    requires response.fields["response"].fields["text"] == v
    requires (v.JNumber? && v.n != 0) || v == JBool(true) || v.JArray? || v.JObject?
    ensures ReplyText(h, rules, response) == h.show(v)
  {
  }

  /**
   * Otherwise, when the field is missing or holds a falsy value (`null`, `false`,
   * `0` or `""`), the rule-based extraction supplies the reply.
   */
  lemma ReplyFallsBackToExtraction(h: Helpers, rules: seq<Rule>, response: Json)
    requires !(response.JObject? && "response" in response.fields
               && response.fields["response"].JObject? && "text" in response.fields["response"].fields)
             || response.fields["response"].fields["text"] in {JNull, JBool(false), JNumber(0), JString("")}
    ensures ReplyText(h, rules, response) == h.extractChatResponse(response, rules)
  {
  }

  // ---------------------------------------------------------------------------
  // Success, failure and how errors surface

  /** `runTest` resolves exactly when every endpoint call returned, and so does `runTestStreaming`. */
  lemma SucceedsIffAllAnswered(config: AgentConfig, h: Helpers, env: Environment)
    ensures RunTestSpec(config, h, env).Success? <==> forall t :: 0 <= t <= |env.plan| ==> env.endpoint(t).Returned?
    ensures StreamSpec(config, h, env).error.None? <==> forall t :: 0 <= t <= |env.plan| ==> env.endpoint(t).Returned?
  {
    if Answered(env, |env.plan| + 1) {
      ConversedWhenAnswered(config, h, env);
    } else {
      var t := FirstFailure(env, |env.plan| + 1).value;
      ConversedWhenThrown(config, h, env, t);
    }
  }

  /** An error of the opening call is rethrown unchanged, whatever its kind. */
  lemma OpeningErrorPassesThrough(config: AgentConfig, h: Helpers, env: Environment, e: CallError)
    requires env.endpoint(0) == Threw(e)
    ensures RunTestSpec(config, h, env) == Failure(e)
    ensures StreamSpec(config, h, env).error == Some(e)
  {
    ConversedWhenThrown(config, h, env, 0);
  }

  /** A follow-up call that times out surfaces as the ten-second timeout error. */
  lemma FollowUpAbortTimesOut(config: AgentConfig, h: Helpers, env: Environment, t: nat, m: string)
    requires 0 < t <= |env.plan| && Answered(env, t) && env.endpoint(t) == Threw(AbortError(m))
    ensures RunTestSpec(config, h, env) == Failure(OtherError(TimeoutMessage))
    ensures StreamSpec(config, h, env).error == Some(OtherError(TimeoutMessage))
  {
    ConversedWhenThrown(config, h, env, t);
  }

  /** Any other follow-up error is rethrown unchanged. */
  lemma FollowUpOtherErrorRethrown(config: AgentConfig, h: Helpers, env: Environment, t: nat, m: string)
    requires 0 < t <= |env.plan| && Answered(env, t) && env.endpoint(t) == Threw(OtherError(m))
    ensures RunTestSpec(config, h, env) == Failure(OtherError(m))
    ensures StreamSpec(config, h, env).error == Some(OtherError(m))
  {
    ConversedWhenThrown(config, h, env, t);
  }

  // ---------------------------------------------------------------------------
  // Rendering for the judge

  lemma {:induction false} JoinSnoc(parts: seq<string>, sep: string, x: string)
    requires |parts| > 0
    ensures Join(parts + [x], sep) == Join(parts, sep) + sep + x
    decreases |parts|
  {
    if |parts| == 1 {
      assert parts + [x] == [parts[0], x];
    } else {
      assert (parts + [x])[1..] == parts[1..] + [x];
      JoinSnoc(parts[1..], sep, x);
    }
  }

  /** Rendering appends one "Human: c" / "Assistant: c" line per message, blank-line separated, in order. */
  lemma RenderSnoc(msgs: seq<Message>, m: Message)
    ensures Render(msgs + [m]) == if |msgs| == 0 then Speaker(m.role) + ": " + m.content
                                  else Render(msgs) + "\n\n" + Speaker(m.role) + ": " + m.content
  {
    assert Lines(msgs + [m]) == Lines(msgs) + [Line(m)];
    if |msgs| == 0 {
      assert Lines(msgs) + [Line(m)] == [Line(m)];
    } else {
      JoinSnoc(Lines(msgs), "\n\n", Line(m));
    }
  }

  /** The judge sees only roles and contents: transcripts that agree on them render alike. */
  lemma RenderSeesRolesAndContents(a: seq<Message>, b: seq<Message>)
    requires |a| == |b|
    requires forall i :: 0 <= i < |a| ==> a[i].role == b[i].role && a[i].content == b[i].content
    ensures Render(a) == Render(b)
  {
    assert Lines(a) == Lines(b);
  }

  // ---------------------------------------------------------------------------
  // The verdict

  /** Annotation keeps every message's identity, role, content and metrics, and the length. */
  lemma AnnotateKeeps(msgs: seq<Message>, v: Verdict)
    ensures |Annotate(msgs, v)| == |msgs|
    ensures forall i :: 0 <= i < |msgs| ==>
      var a := Annotate(msgs, v)[i];
      a.id == msgs[i].id && a.chatId == msgs[i].chatId && a.role == msgs[i].role && a.content == msgs[i].content
      && a.responseTime == msgs[i].responseTime && a.validationScore == msgs[i].validationScore
      && a.scenario == msgs[i].scenario
    ensures Render(Annotate(msgs, v)) == Render(msgs)
  {
    RenderSeesRolesAndContents(Annotate(msgs, v), msgs);
  }

  /** With distinct ids only the last message carries the verdict; every earlier one is marked correct without explanation. */
  lemma AnnotateJudgesLast(msgs: seq<Message>, v: Verdict)
    requires |msgs| > 0
    requires forall i, j :: 0 <= i < j < |msgs| ==> msgs[i].id != msgs[j].id
    ensures Annotate(msgs, v)[|msgs| - 1].isCorrect == Some(v.isCorrect)
    ensures Annotate(msgs, v)[|msgs| - 1].explanation == Some(v.explanation)
    ensures forall i :: 0 <= i < |msgs| - 1 ==>
      Annotate(msgs, v)[i].isCorrect == Some(true) && Annotate(msgs, v)[i].explanation == None
  {
  }

  /** A judge answer that does not parse fails the test with the fallback explanation, and no error is raised. */
  lemma UnparsedJudgeFailsTest(config: AgentConfig, h: Helpers, env: Environment)
    requires Answered(env, |env.plan| + 1)
    requires env.judge(Render(Transcript(Batch, config, h, env, |env.plan| + 1))) == None
    ensures RunTestSpec(config, h, env).Success?
    ensures !RunTestSpec(config, h, env).value.validation.passedTest
    ensures RunTestSpec(config, h, env).value.validation.explanation == JudgeFallbackExplanation
    ensures RunTestSpec(config, h, env).value.validation.conversationResult == Verdict(false, JudgeFallbackExplanation)
  {
    ConversedWhenAnswered(config, h, env);
  }

  /**
   * A completed `runTest`: the format and rule checks look only at the last
   * endpoint response, the test passes exactly when both hold and the judge
   * approves the rendered transcript, and the recorded response time is the sum
   * of the turns' latencies.
   */
  lemma PassedTestIsConjunction(config: AgentConfig, h: Helpers, env: Environment)
    requires Answered(env, |env.plan| + 1)
    ensures RunTestSpec(config, h, env).Success?
    ensures var r := RunTestSpec(config, h, env).value;
      var last := env.endpoint(|env.plan|).response;
      var verdict := JudgeVerdict(env.judge(Render(Transcript(Batch, config, h, env, |env.plan| + 1))));
      && r.validation.formatValid == h.validateResponseFormat(last, config.apiConfig.outputFormat)
      && r.validation.conditionMet == h.validateCondition(last, config.apiConfig.rules)
      && r.validation.conversationResult == verdict
      && (r.validation.passedTest <==> r.validation.formatValid && r.validation.conditionMet && verdict.isCorrect)
      && r.conversation.rawOutput == last
      && r.conversation.chatResponse == ReplyText(h, config.apiConfig.rules, last)
      && r.validation.responseTime == TotalLatency(env, |env.plan| + 1)
  {
    ConversedWhenAnswered(config, h, env);
  }

  /**
   * A completed `runTest` reports 2 (K + 1) messages for a plan of K steps, in
   * transcript order, the last one judged.
   */
  lemma CompletedTranscript(config: AgentConfig, h: Helpers, env: Environment)
    requires Answered(env, |env.plan| + 1)
    requires forall a: nat, b: nat :: a != b ==> env.messageId(a) != env.messageId(b)
    ensures RunTestSpec(config, h, env).Success?
    ensures var r := RunTestSpec(config, h, env).value;
      var msgs := Transcript(Batch, config, h, env, |env.plan| + 1);
      && |r.conversation.allMessages| == 2 * (|env.plan| + 1)
      && (forall i :: 0 <= i < |msgs| ==>
            r.conversation.allMessages[i].id == msgs[i].id && r.conversation.allMessages[i].content == msgs[i].content)
      && r.conversation.allMessages[|msgs| - 1].isCorrect == Some(r.validation.conversationResult.isCorrect)
      && (forall i :: 0 <= i < |msgs| - 1 ==> r.conversation.allMessages[i].isCorrect == Some(true))
  {
    ConversedWhenAnswered(config, h, env);
    var msgs := Transcript(Batch, config, h, env, |env.plan| + 1);
    var verdict := JudgeVerdict(env.judge(Render(msgs)));
    TranscriptIdsDistinct(Batch, config, h, env, |env.plan| + 1);
    AnnotateKeeps(msgs, verdict);
    AnnotateJudgesLast(msgs, verdict);
  }

  // ---------------------------------------------------------------------------
  // Streaming

  /** Message events followed by one more event: every earlier one is a message event, in order. */
  lemma MessagesThen(msgs: seq<Message>, last: AgentEvent)
    ensures var events := MessageEvents(msgs) + [last];
      && |events| == |msgs| + 1
      && (forall j :: 0 <= j < |msgs| ==> events[j] == MessageEvent(msgs[j]))
      && events[|msgs|] == last
  {
  }

  /**
   * A streamed conversation whose call in turn t is the first to throw: the
   * messages of turns before t, the user side of turn t (emitted before its call),
   * then the error event; no validation or completion event.
   */
  lemma StreamFailureEvents(config: AgentConfig, h: Helpers, env: Environment, t: nat)
    requires t <= |env.plan| && Answered(env, t) && env.endpoint(t).Threw?
    ensures var out := StreamSpec(config, h, env);
      && out.error.Some?
      && |out.events| == 2 * t + 2
      && (forall j :: 0 <= j < 2 * t + 1 ==> out.events[j].MessageEvent?)
      && out.events[2 * t] == MessageEvent(UserMessage(Streamed, env, t))
      && out.events[2 * t + 1] == ErrorEvent(out.error.value)
      && (forall j :: 0 <= j < |out.events| ==> !out.events[j].ValidationEvent? && !out.events[j].CompleteEvent?)
  {
    ConversedWhenThrown(config, h, env, t);
    var e := Surfaced(t, env.endpoint(t).error);
    var msgs := Transcript(Streamed, config, h, env, t) + [UserMessage(Streamed, env, t)];
    var out := StreamSpec(config, h, env);
    assert out == StreamOutcome(MessageEvents(msgs) + [ErrorEvent(e)], Some(e));
    assert |msgs| == 2 * t + 1;
    MessagesThen(msgs, ErrorEvent(e));
    forall j | 0 <= j < |out.events|
      ensures !out.events[j].ValidationEvent? && !out.events[j].CompleteEvent?
    {
      if j < |msgs| {
        assert out.events[j] == MessageEvent(msgs[j]);
      }
    }
  }

  /**
   * A streamed conversation whose calls all returned: every message in transcript
   * order, then exactly one validation event carrying the validation of the whole
   * conversation, then exactly one completion event carrying the annotated conversation.
   */
  lemma StreamSuccessEvents(config: AgentConfig, h: Helpers, env: Environment)
    requires Answered(env, |env.plan| + 1)
    ensures var out := StreamSpec(config, h, env);
      var msgs := Transcript(Streamed, config, h, env, |env.plan| + 1);
      && out.error.None?
      && |out.events| == |msgs| + 2
      && (forall j :: 0 <= j < |msgs| ==> out.events[j] == MessageEvent(msgs[j]))
      && var result := Validate(Streamed, config, h, env, Reached(Streamed, config, h, env, |env.plan|));
         && out.events[|msgs|] == ValidationEvent(result.validation)
         && out.events[|msgs| + 1] == CompleteEvent(result.conversation)
  {
    ConversedWhenAnswered(config, h, env);
  }

  /**
   * Batch and streamed transcripts differ only in the user messages' metrics: the
   * assistant messages are identical, and each user message is the same message
   * with the other variant's response time and validation score.
   */
  lemma TranscriptsAgree(config: AgentConfig, h: Helpers, env: Environment, k: nat)
    requires Answered(env, k)
    ensures var a := Transcript(Batch, config, h, env, k);
      var b := Transcript(Streamed, config, h, env, k);
      forall i :: 0 <= i < 2 * k ==>
        if i % 2 == 1 then a[i] == b[i]
        else a[i] == b[i].(responseTime := a[i].responseTime, validationScore := a[i].validationScore)
  {
    var a := Transcript(Batch, config, h, env, k);
    var b := Transcript(Streamed, config, h, env, k);
    forall i | 0 <= i < 2 * k
      ensures if i % 2 == 1 then a[i] == b[i]
              else a[i] == b[i].(responseTime := a[i].responseTime, validationScore := a[i].validationScore)
    {
      TranscriptTurn(Batch, config, h, env, k, i / 2);
      TranscriptTurn(Streamed, config, h, env, k, i / 2);
    }
  }

  /**
   * The two entry points agree: the same error, or the same verdict on the same
   * rendered transcript with the same format and rule checks.
   */
  lemma StreamAgreesWithBatch(config: AgentConfig, h: Helpers, env: Environment)
    ensures RunTestSpec(config, h, env).Failure? <==> StreamSpec(config, h, env).error.Some?
    ensures RunTestSpec(config, h, env).Failure? ==> StreamSpec(config, h, env).error == Some(RunTestSpec(config, h, env).error)
    ensures RunTestSpec(config, h, env).Success? ==>
      var batch := RunTestSpec(config, h, env).value.validation;
      var out := StreamSpec(config, h, env);
      && |out.events| >= 2
      && out.events[|out.events| - 2].ValidationEvent?
      && var streamed := out.events[|out.events| - 2].result;
      && streamed.passedTest == batch.passedTest
      && streamed.formatValid == batch.formatValid
      && streamed.conditionMet == batch.conditionMet
      && streamed.conversationResult == batch.conversationResult
  {
    if Answered(env, |env.plan| + 1) {
      ConversedWhenAnswered(config, h, env);
      TranscriptsAgree(config, h, env, |env.plan| + 1);
      RenderSeesRolesAndContents(Transcript(Batch, config, h, env, |env.plan| + 1),
                                 Transcript(Streamed, config, h, env, |env.plan| + 1));
    } else {
      var t := FirstFailure(env, |env.plan| + 1).value;
      ConversedWhenThrown(config, h, env, t);
    }
  }
}
