// What a pass of the step loop means: what the model is shown, when the turn ends and with what
// outcome, and what compaction leaves.
module TurnSteps {
  import opened Wrappers
  import opened Json
  import opened Text
  import opened Messages
  import opened Tools
  import opened Exchange
  import opened Context
  import opened Turn

  // ---------- The outcome of a turn ----------

  // The turn is over with this outcome, after these further events.
  predicate EndsWith(s: Session, s': Session, flow: Flow, more: seq<Event>, reason: EndReason,
                     failure: Option<Failure>, truncated: bool)
  {
    && flow == Halt(TurnOver(Outcome(reason, s.steps, failure, truncated)))
    && s'.finished && s'.messages == s.messages
    && s'.events == s.events + more + [TurnEnded(reason, failure, true)]
  }

  // A turn starts with the input's messages, a step counter of zero, and nothing else.
  lemma {:induction false} TurnBegins(cfg: Config)
    ensures var s := Started(cfg);
      && s.messages == cfg.input && s.events == [TurnStarted]
      && s.steps == 0 && s.retries == 0 && s.pending.None? && !s.finished
      && s.steerQueue == [] && s.requests == [] && s.trail == []
  {
  }

  // ---------- The request ----------

  // The messages that arrived as steers, as user messages in their order.
  predicate AreTexts(ms: seq<Message>, texts: seq<string>) {
    |ms| == |texts| && forall k :: 0 <= k < |texts| ==> ms[k] == UserText(texts[k])
  }

  lemma {:induction false} UserTextsMean(texts: seq<string>)
    ensures AreTexts(UserTexts(texts), texts)
  {
    if texts != [] { UserTextsMean(texts[1..]); }
  }

  // The request shows the history, or its window if one is set, after the repair.
  ghost predicate Shows(request: Request, cfg: Config, ms: seq<Message>) {
    && request.sent == Repair(request.assembled)
    && if cfg.window.Some? && cfg.window.value > 0 then IsProjection(request.assembled, ms, cfg.window.value)
       else request.assembled == ms
  }

  lemma {:induction false} StepRequestShows(cfg: Config, ms: seq<Message>)
    ensures Shows(StepRequest(cfg, ms), cfg, ms)
  {
    if cfg.window.Some? && cfg.window.value > 0 { ProjectedMeans(ms, cfg.window.value); }
  }

  predicate AtLimit(s: Session, cfg: Config) {
    cfg.maxSteps.Some? && cfg.maxSteps.value > 0 && s.steps >= cfg.maxSteps.value
  }

  // A step begins in `s'`: its number is the next one, the queue of steers is empty, and its request,
  // the last one recorded, shows the history.
  ghost predicate StepBegins(s: Session, s': Session, cfg: Config) {
    && s'.steps == s.steps + 1 && s'.steerQueue == []
    && s'.events != [] && s'.events[|s'.events| - 1] == StepStarted(s.steps + 1)
    && |s'.requests| == |s.requests| + 1 && s'.requests[..|s.requests|] == s.requests
    && Shows(s'.requests[|s.requests|], cfg, s'.messages)
  }

  // The state in which a pass asks the model.
  function Begun(s: Session, env: Env, cfg: Config): Session {
    BeginStep(MaybeCompact(DrainSteers(AskFlag(s), env), env, cfg), cfg)
  }

  // The history is `ms`, or what compaction leaves of it.
  ghost predicate IsOrCompacts(out: seq<Message>, ms: seq<Message>, env: Env) {
    out == ms || exists summary :: IsCompaction(out, ms, summary, env.estimate)
  }

  // Unless the turn is cancelled or at its step limit, a pass moves all steers that arrived into the
  // history, after those that waited, and begins the next step with a request that shows it.
  lemma {:induction false} PassBegins(s: Session, env: Env, cfg: Config)
    ensures StepBegins(s, Begun(s, env, cfg), cfg)
    ensures var arrived := UserTexts(env.steers(s.clock.looks));
      IsOrCompacts(Begun(s, env, cfg).messages, s.messages + s.steerQueue + arrived, env)
  {
    var drained := DrainSteers(AskFlag(s), env);
    var s1 := MaybeCompact(drained, env, cfg);
    MaybeCompactFrame(drained, env, cfg);
    StepRequestShows(cfg, s1.messages);
    Regroup(s.messages, s.steerQueue, UserTexts(env.steers(s.clock.looks)));
  }

  lemma {:induction false} MaybeCompactFrame(s: Session, env: Env, cfg: Config)
    ensures var s' := MaybeCompact(s, env, cfg);
      && s'.steps == s.steps && s'.steerQueue == s.steerQueue && s'.requests == s.requests
      && IsOrCompacts(s'.messages, s.messages, env)
  {
    if Compact(s, env).1 { CompactMeans(s, env); }
  }

  // It answers as the model does when it is given that request, and nothing else.
  lemma {:induction false} PassAnswers(s: Session, env: Env, cfg: Config, answering: Answering)
    requires !env.flag(s.clock.flags) && !AtLimit(s, cfg)
    ensures var begun := Begun(s, env, cfg);
      var n := begun.clock.llm;
      var heard := begun.(clock := begun.clock.(llm := n + 1));
      Iterate(s, env, cfg, answering) ==
        if env.llmCancelled(n) then HaltWith(Aborted(heard, heard.steps))
        else answering(heard, env.llm(n, begun.requests[|begun.requests| - 1].sent))
  {
  }

  // A pass that finds the cancel flag set ends the turn, and one at the step limit fails it, before
  // anything else.
  lemma {:induction false} PassStopped(s: Session, env: Env, cfg: Config, answering: Answering)
    requires env.flag(s.clock.flags) || AtLimit(s, cfg)
    ensures var (s', flow) := Iterate(s, env, cfg, answering);
      && (env.flag(s.clock.flags) ==> EndsWith(s, s', flow, [], TurnCancelled, None, false))
      && (!env.flag(s.clock.flags) ==> EndsWith(s, s', flow, [], TurnFailed, Some(MaxStepsExceeded), false))
      && s'.clock.llm == s.clock.llm
  {
    assert s.events + [] == s.events;
  }

  // ---------- The model's answer ----------

  // What was streamed is told in order.
  lemma {:induction false} DeltasMean(texts: seq<string>)
    ensures |Deltas(texts)| == |texts| && forall k :: 0 <= k < |texts| ==> Deltas(texts)[k] == StreamDelta(texts[k])
  {
    if texts != [] { DeltasMean(texts[1..]); }
  }

  lemma {:induction false} AnswerMeans(s: Session, env: Env, cfg: Config, policy: ToolCall -> Verdict,
                                       answer: LlmReply)
    requires answer.Reply?
    ensures var s1 := s.(events := s.events + Deltas(answer.deltas));
      StepAnswer(s, env, cfg, policy, answer) ==
        if answer.calls == [] then StepText(s1, env, cfg, answer.finish, answer.usage)
        else StepTools(s1, env, cfg, policy, answer.calls, answer.text, answer.usage)
  {
  }

  // A review is due after a step without calls that ended in the ordinary way, from the set step on.
  predicate ReviewDue(cfg: Config, s: Session, finish: FinishReason) {
    && cfg.review.Some? && s.steps >= cfg.review.value.minSteps
    && (finish.Completed? || finish.ToolCalls?)
  }

  // A step without calls: while a review is due or a steer is waiting the turn goes on; otherwise it is
  // over, and the way the model finished decides how.
  lemma {:induction false} TextMeans(s: Session, env: Env, cfg: Config, finish: FinishReason, usage: Usage)
    ensures var (s', flow) := StepText(s, env, cfg, finish, usage);
      var done := StepCompleted(s.steps, usage, finish);
      var queue := s.steerQueue + UserTexts(env.steers(s.clock.looks));
      && s'.retries == 0
      && if ReviewDue(cfg, s, finish) then
           var reminder := cfg.review.value.reminder;
           && flow.Again? && s'.messages == s.messages + [UserText(reminder)]
           && s'.events == s.events + [done, ReviewInjected(reminder)] && s'.steerQueue == s.steerQueue
         else if queue != [] then
           && flow.Again? && s'.messages == s.messages && s'.events == s.events + [done] && s'.steerQueue == queue
         else if finish.Length? || finish.Truncated? then
           EndsWith(s, s', flow, [done], TurnCompleted, None, true)
         else if finish.Filtered? || finish.ContentFilter? then
           EndsWith(s, s', flow, [done], TurnFailed, Some(ProviderFiltered), false)
         else EndsWith(s, s', flow, [done], TurnCompleted, None, false)
  {
  }

  // The message of a step with calls holds the model's text and all its calls, in order.
  lemma {:induction false} AskingMeans(calls: seq<ToolCall>, text: string)
    ensures var m := Asking(calls, text);
      && m.role.Assistant? && m.content == Str(text) && m.toolCalls.Some? && |m.toolCalls.value| == |calls|
      && forall k :: 0 <= k < |calls| ==>
           m.toolCalls.value[k] == CallRef(calls[k].id, calls[k].name, calls[k].args)
  {
    RefsMean(calls);
  }

  lemma {:induction false} RefsMean(calls: seq<ToolCall>)
    ensures |CallRefs(calls)| == |calls|
    ensures forall k :: 0 <= k < |calls| ==> CallRefs(calls)[k] == CallRef(calls[k].id, calls[k].name, calls[k].args)
  {
    if calls != [] { RefsMean(calls[1..]); }
  }

  // A finished batch completes its step; a stop completes the turn.
  lemma {:induction false} BatchDoneMeans(s: Session, stopped: bool, step: nat, usage: Usage)
    ensures var (s', flow) := AfterBatch(s, BatchDone(stopped), step, usage);
      if stopped then EndsWith(s, s', flow, [StepCompleted(step, usage, Completed)], TurnCompleted, None, false)
      else flow.Again? && s' == s.(events := s.events + [StepCompleted(step, usage, ToolCalls)])
  {
  }

  // ---------- Errors ----------

  // How often a step may be retried: the number that is set, ten if none is, but at least once.
  lemma {:induction false} AttemptsMean(cfg: Config)
    ensures cfg.maxRetries.None? ==> MaxAttempts(cfg) == 10
    ensures cfg.maxRetries == Some(0) ==> MaxAttempts(cfg) == 1
    ensures cfg.maxRetries.Some? && cfg.maxRetries.value > 0 ==> MaxAttempts(cfg) == cfg.maxRetries.value
  {
  }

  // An error that compaction does not recover from: while attempts are left a retryable one is
  // announced and retried; any other fails the turn with its message.
  lemma {:induction false} ErrorMeans(s: Session, env: Env, cfg: Config, message: string, overflow: bool,
                                      retryable: bool)
    requires !env.flag(s.clock.flags) && (overflow ==> cfg.maxContext.None?)
    ensures var (s', flow) := StepError(s, env, cfg, message, overflow, retryable);
      if retryable && s.retries < MaxAttempts(cfg) then
        var announced := StepRetrying(s.steps, s.retries + 1, MaxAttempts(cfg));
        if env.flag(s.clock.flags + 1) then EndsWith(s, s', flow, [announced], TurnCancelled, None, false)
        else flow.Again? && s'.retries == s.retries + 1 && s'.messages == s.messages
             && s'.events == s.events + [announced]
      else
        var interrupted := [StepInterrupted(s.steps, false)];
        && EndsWith(s, s', flow, interrupted, TurnFailed, Some(ProviderError(message, overflow)), false)
        && s'.retries == if retryable then 0 else s.retries
  {
  }

  // An error of overflow is answered by compaction if a context size is set: if that succeeds, the turn
  // goes on with it, and no retry is counted.
  lemma {:induction false} OverflowMeans(s: Session, env: Env, cfg: Config, message: string, retryable: bool)
    requires !env.flag(s.clock.flags) && cfg.maxContext.Some?
    ensures var (s1, compacted) := Compact(AskFlag(s), env);
      var r := StepError(s, env, cfg, message, true, retryable);
      && (compacted ==> r == (s1, Again) && s1.retries == s.retries)
      && (!compacted && !retryable ==>
            var interrupted := [StepInterrupted(s.steps, false)];
            EndsWith(s, r.0, r.1, interrupted, TurnFailed, Some(ProviderError(message, true)), false))
  {
  }

  // An error that finds the cancel flag set ends the turn.
  lemma {:induction false} ErrorCancelled(s: Session, env: Env, cfg: Config, message: string, overflow: bool,
                                          retryable: bool)
    requires env.flag(s.clock.flags)
    ensures var (s', flow) := StepError(s, env, cfg, message, overflow, retryable);
      EndsWith(s, s', flow, [], TurnCancelled, None, false)
  {
    assert s.events + [] == s.events;
  }

  // ---------- Compaction ----------

  // The summary is the trimmed text of one of the model's answers, which has some and was not cut off;
  // it was given the end of the history and asked for a summary.
  ghost predicate Summarizes(env: Env, n: nat, shown: seq<Message>, history: seq<Message>, summary: string) {
    && shown != [] && (exists k :: 0 <= k <= |history| && shown[..|shown| - 1] == history[k..])
    && shown[|shown| - 1] == UserText(COMPACTION_INSTRUCTION)
    && env.llm(n, shown).Reply? && env.llm(n, shown).finish != Length
    && summary != "" && IsTrimmed(summary, env.llm(n, shown).text)
  }

  lemma {:induction false} SummaryMeans(env: Env, n: nat, history: seq<Message>, attempts: nat)
    requires Summarize(env, n, history, attempts).1.Some?
    ensures exists m, shown :: Summarizes(env, m, shown, history, Summarize(env, n, history, attempts).1.value)
    decreases attempts
  {
    var answer := env.llm(n, history + [UserText(COMPACTION_INSTRUCTION)]);
    if Trim(answer.text) != "" && answer.finish != Length {
      UsableAnswer(env, n, history);
    } else {
      var summary := Summarize(env, n, history, attempts).1.value;
      SummaryMeans(env, n + 1, history[1..], attempts - 1);
      var m, shown :| Summarizes(env, m, shown, history[1..], summary);
      SummarizesMore(env, m, shown, history, summary);
    }
  }

  lemma {:induction false} UsableAnswer(env: Env, n: nat, history: seq<Message>)
    requires var answer := env.llm(n, history + [UserText(COMPACTION_INSTRUCTION)]);
      answer.Reply? && Trim(answer.text) != "" && answer.finish != Length
    ensures var shown := history + [UserText(COMPACTION_INSTRUCTION)];
      Summarizes(env, n, shown, history, Trim(env.llm(n, shown).text))
  {
    var shown := history + [UserText(COMPACTION_INSTRUCTION)];
    assert shown[..|shown| - 1] == history[0..];
    TrimMeans(env.llm(n, shown).text);
  }

  lemma {:induction false} SummarizesMore(env: Env, n: nat, shown: seq<Message>, history: seq<Message>,
                                          summary: string)
    requires history != [] && Summarizes(env, n, shown, history[1..], summary)
    ensures Summarizes(env, n, shown, history, summary)
  {
    var k :| 0 <= k <= |history[1..]| && shown[..|shown| - 1] == history[1..][k..];
    assert history[1..][k..] == history[k + 1..];
  }

  // The first usable answer is taken: without one after four attempts, or after an error, there is no
  // summary.
  lemma {:induction false} FirstAnswerTaken(env: Env, n: nat, history: seq<Message>, attempts: nat)
    requires attempts > 0
    ensures var answer := env.llm(n, history + [UserText(COMPACTION_INSTRUCTION)]);
      && (answer.LlmError? ==> Summarize(env, n, history, attempts) == (n + 1, None))
      && (answer.Reply? && Trim(answer.text) != "" && answer.finish != Length ==>
            Summarize(env, n, history, attempts) == (n + 1, Some(Trim(answer.text))))
      && (answer.Reply? && (Trim(answer.text) == "" || answer.finish == Length) && |history| > 1 ==>
            Summarize(env, n, history, attempts) == Summarize(env, n + 1, history[1..], attempts - 1))
  {
  }

  // It takes at most four answers.
  lemma {:induction false} CompactionAsks(s: Session, env: Env)
    ensures Compact(s, env).1 <==> Summarize(env, s.clock.llm, Repair(s.messages), 4).1.Some?
    ensures Compact(s, env).0.clock.llm == Summarize(env, s.clock.llm, Repair(s.messages), 4).0
  {
  }

  // A compaction that succeeds leaves the first system message, the recent user messages within the
  // budget, and the summary, and reports that summary with the sizes before and after.
  lemma {:induction false} CompactMeans(s: Session, env: Env)
    requires Compact(s, env).1
    ensures var s' := Compact(s, env).0;
      exists summary, n, shown ::
        && Summarizes(env, n, shown, Repair(s.messages), summary)
        && IsCompaction(s'.messages, s.messages, summary, env.estimate)
        && s'.lastCompacted == Some(Tokens(s'.messages, env.estimate))
        && s'.events == s.events + [ContextCompacted(summary, Tokens(s.messages, env.estimate),
                                                     Tokens(s'.messages, env.estimate), |s.messages|)]
  {
    var attempts := COMPACTION_MAX_SHRINK_ATTEMPTS + 1;
    var summary := Summarize(env, s.clock.llm, Repair(s.messages), attempts).1.value;
    SummaryMeans(env, s.clock.llm, Repair(s.messages), attempts);
    CompactedMeans(s.messages, summary, env.estimate);
  }

  // The history is compacted before a step exactly when its estimate, with the tools, has reached 85
  // per cent of the context and has grown since the last compaction.
  lemma {:induction false} CompactionTrigger(s: Session, env: Env, cfg: Config)
    ensures var estimated := Tokens(s.messages, env.estimate) + env.toolTokens;
      MaybeCompact(s, env, cfg) ==
        if cfg.maxContext.Some? && cfg.maxContext.value > 0 && 100 * estimated >= 85 * cfg.maxContext.value
           && (s.lastCompacted.None? || estimated > s.lastCompacted.value)
        then Compact(s, env).0 else s
  {
  }
}
