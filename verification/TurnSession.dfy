// The turn engine as it is written (engine.rs): one object whose methods change its fields in
// place. Every method is proved to do exactly what the functions of `Turn` say.
module TurnSessions {
  import opened Wrappers
  import opened Text
  import opened Messages
  import opened Tools
  import opened Context
  import opened Turn
  import E = Exchange
  import R = TurnRuns

  class TurnSession {
    const env: Env
    const cfg: Config
    const dedupe: D.DedupeState

    var messages: seq<Message>
    var steps: nat
    var retries: nat
    var pending: Option<Pending>
    var steerQueue: seq<Message>
    var lastCompacted: Option<nat>
    var finished: bool
    var events: seq<Event>
    var clock: Clock

    // These only record what happened.
    ghost var requests: seq<Request>
    ghost var trail: seq<Trace>
    ghost var ended: seq<string>
    ghost var answers: seq<Answer>

    ghost function State(): Session
      reads this, dedupe
    {
      Session(messages, steps, retries, pending, steerQueue, lastCompacted, dedupe.View(), finished, events, clock,
              requests, trail, ended, answers)
    }

    constructor (env: Env, cfg: Config)
      ensures State() == New() && this.env == env && this.cfg == cfg && fresh(dedupe)
    {
      this.env, this.cfg := env, cfg;
      dedupe := new D.DedupeState();
      messages, steps, retries, pending, steerQueue := [], 0, 0, None, [];
      lastCompacted, finished, events, clock := None, false, [], Clock(0, 0, 0, 0);
      requests, trail, ended, answers := [], [], [], [];
    }

    // ---------- Emitting, finishing ----------

    method EmitEvent(e: Event)
      modifies this
      ensures State() == Emit(old(State()), e)
    {
      events := events + [e];
    }

    method FinishTurn(reason: EndReason, failure: Option<Failure>, truncated: bool) returns (progress: Progress)
      modifies this
      ensures (State(), progress) == Finish(old(State()), reason, failure, truncated)
    {
      finished := true;
      progress := TurnOver(Outcome(reason, steps, failure, truncated));
      EmitEvent(TurnEnded(reason, failure, finished));
    }

    method AbortStep(step: nat) returns (progress: Progress)
      modifies this
      ensures (State(), progress) == Aborted(old(State()), step)
    {
      EmitEvent(StepInterrupted(step, true));
      progress := FinishTurn(TurnCancelled, None, false);
    }

    method IsCancelled() returns (cancelled: bool)
      modifies this
      ensures State() == AskFlag(old(State())) && cancelled == env.flag(old(clock.flags))
    {
      cancelled := env.flag(clock.flags);
      clock := clock.(flags := clock.flags + 1);
    }

    // ---------- One tool call ----------

    method ExecuteTool(call: ToolCall, batch: seq<ToolCall>) returns (result: Option<ToolResult>)
      modifies this
      ensures (State(), result) == RunTool(old(State()), env, call, batch)
    {
      var n := clock.runs;
      clock := clock.(runs := n + 1);
      match env.race(n) {
        case CancelledBefore => result := None;
        case CancelledDuring =>
          EmitEvent(ToolStarted(call));
          result := None;
        case Finishes =>
          EmitEvent(ToolStarted(call));
          var r := env.exec(n, call, batch);
          ReportProgress(call.id, r.updates);
          result := Some(r);
      }
    }

    method ReportProgress(callId: string, updates: seq<string>)
      modifies this
      ensures State() == old(State()).(events := old(events) + ProgressEvents(callId, updates))
    {
      ghost var before := events;
      for i := 0 to |updates|
        invariant State() == old(State()).(events := events)
        invariant events + ProgressEvents(callId, updates[i..]) == before + ProgressEvents(callId, updates)
      {
        assert updates[i..][1..] == updates[i + 1..];
        Regroup(events, [ToolProgress(callId, updates[i])], ProgressEvents(callId, updates[i + 1..]));
        EmitEvent(ToolProgress(callId, updates[i]));
      }
    }

    method SettleResult(r: ToolResult)
      modifies this
      ensures State() == Settle(old(State()), r)
    {
      EmitEvent(ToolResulted(r.callId, r.output, r.isError));
      messages := messages + [ResultMessage(r)];
    }

    method FinalizeAndSettle(callId: string, r: ToolResult) returns (final: ToolResult)
      modifies this, dedupe
      ensures (State(), final) == Finalize(old(State()), callId, r)
    {
      ghost var key := D.KeyInFlight(dedupe.View(), callId);
      final := dedupe.FinalizeResult(callId, r);
      answers := answers + [Answer(steps, key, final.output, true)];
      SettleResult(final);
    }

    method CheckCall(call: ToolCall) returns (duplicate: bool)
      modifies this, dedupe
      ensures (State(), duplicate) == Checked(old(State()), call)
    {
      duplicate := dedupe.Check(call);
      trail := trail + [Trace(KeyOf(call), false)];
    }

    method SettleDuplicate(call: ToolCall) returns (stop: bool)
      modifies this
      ensures State() == SettleShared(old(State()), call) && stop == Shared(old(dedupe.View()), call).stopTurn
    {
      var key := KeyOf(call);
      var shared := ErrorResult(call, RESULT_LOST);
      if key in dedupe.stepResults {
        shared := dedupe.stepResults[key];
      }
      shared := shared.(callId := call.id, toolName := call.name);
      answers := answers + [Answer(steps, Some(key), shared.output, key in dedupe.stepResults)];
      EmitEvent(ToolStarted(call));
      SettleResult(shared);
      stop := shared.stopTurn;
    }

    ghost method MarkResolved()
      modifies this
      ensures State() == Resolved(old(State()))
    {
      trail := if trail == [] then trail else trail[|trail| - 1 := trail[|trail| - 1].(resolved := true)];
    }

    method RunApproved(call: ToolCall, batch: seq<ToolCall>, step: nat) returns (end: CallEnd)
      modifies this, dedupe
      ensures (State(), end) == ApprovedCall(old(State()), env, call, batch, step)
    {
      MarkResolved();
      var result := ExecuteTool(call, batch);
      if result.None? {
        var progress := AbortStep(step);
        return Leaves(progress);
      }
      var final := FinalizeAndSettle(call.id, result.value);
      end := if final.stopTurn then Stops else Goes;
    }

    method RefuseDenied(call: ToolCall, reason: string) returns (end: CallEnd)
      modifies this, dedupe
      ensures (State(), end) == DeniedCall(old(State()), cfg, call, reason)
    {
      EmitEvent(ToolStarted(call));
      var _ := FinalizeAndSettle(call.id, ErrorResult(call, WorkerText(cfg, reason)));
      end := Goes;
    }

    method ExecuteCall(policy: ToolCall -> Verdict, p: Pending) returns (end: CallEnd)
      modifies this, dedupe
      ensures (State(), end) == OneCall(old(State()), env, cfg, policy, p)
    {
      var cancelled := IsCancelled();
      if cancelled {
        var progress := AbortStep(p.step);
        return Leaves(progress);
      }
      var duplicate := CheckCall(p.call);
      if duplicate {
        var stop := SettleDuplicate(p.call);
        return if stop then Stops else Goes;
      }
      match policy(p.call) {
        case Approve => end := RunApproved(p.call, p.batch, p.step);
        case Deny(reason) => end := RefuseDenied(p.call, reason);
        case Ask =>
          pending := Some(p);
          end := Leaves(NeedsApproval(p.call));
      }
    }

    // ---------- A batch ----------

    method SynthesizeSkippedSiblings(calls: seq<ToolCall>, after: nat)
      requires after <= |calls|
      modifies this
      ensures State() == SkipFrom(old(State()), calls, after)
    {
      for i := after to |calls|
        invariant SkipFrom(State(), calls, i) == SkipFrom(old(State()), calls, after)
      {
        EmitEvent(ToolStarted(calls[i]));
        SettleResult(ErrorResult(calls[i], TOOL_SKIPPED));
      }
    }

    method EndDedupeStep()
      modifies this, dedupe
      ensures State() == EndStep(old(State()))
    {
      ended := ended + dedupe.stepCalls;
      dedupe.EndStep();
    }

    method ExecuteBatch(policy: ToolCall -> Verdict, calls: seq<ToolCall>, start: nat, step: nat, usage: Usage)
        returns (end: BatchEnd)
      modifies this, dedupe
      ensures (State(), end) == BatchFrom(old(State()), CallWith(env, cfg, policy), calls, start, step, usage)
    {
      ghost var one := CallWith(env, cfg, policy);
      var i := start;
      while i < |calls|
        invariant BatchFrom(State(), one, calls, i, step, usage)
          == BatchFrom(old(State()), one, calls, start, step, usage)
      {
        var callEnd := ExecuteCall(policy, Pending(calls[i], calls, i, step, usage));
        match callEnd {
          case Goes => i := i + 1;
          case Stops =>
            SynthesizeSkippedSiblings(calls, i + 1);
            EndDedupeStep();
            return BatchDone(true);
          case Leaves(progress) => return BatchLeft(progress);
        }
      }
      EndDedupeStep();
      end := BatchDone(false);
    }

    method EndBatch(end: BatchEnd, step: nat, usage: Usage) returns (flow: Flow)
      modifies this
      ensures (State(), flow) == AfterBatch(old(State()), end, step, usage)
    {
      match end {
        case BatchLeft(progress) => flow := Halt(progress);
        case BatchDone(stopped) =>
          EmitEvent(StepCompleted(step, usage, if stopped then Completed else ToolCalls));
          if stopped {
            var progress := FinishTurn(TurnCompleted, None, false);
            flow := Halt(progress);
          } else {
            flow := Again;
          }
      }
    }

    // ---------- resume ----------

    method SettlePending(policy: ToolCall -> Verdict, p: Pending, r: ToolResult) returns (flow: Flow)
      modifies this, dedupe
      ensures (State(), flow) == ResumeSettled(old(State()), env, cfg, policy, p, r)
    {
      var final := FinalizeAndSettle(p.call.id, r);
      var end := FinishPending(policy, p, final);
      flow := EndBatch(end, p.step, p.usage);
    }

    method FinishPending(policy: ToolCall -> Verdict, p: Pending, final: ToolResult) returns (end: BatchEnd)
      modifies this, dedupe
      ensures (State(), end) == BatchRest(old(State()), final, CallWith(env, cfg, policy), p)
    {
      if final.stopTurn {
        if p.index + 1 <= |p.batch| {
          SynthesizeSkippedSiblings(p.batch, p.index + 1);
        }
        EndDedupeStep();
        end := BatchDone(true);
      } else {
        end := ExecuteBatch(policy, p.batch, p.index + 1, steps, p.usage);
      }
    }

    method CarryOutDecision(policy: ToolCall -> Verdict, p: Pending, decision: Decision) returns (flow: Flow)
      modifies this, dedupe
      ensures (State(), flow) == ResumeDecided(old(State()), env, cfg, policy, p, decision)
    {
      match decision {
        case Approved =>
          var result := ExecuteTool(p.call, p.batch);
          if result.None? {
            var progress := AbortStep(steps);
            return Halt(progress);
          }
          flow := SettlePending(policy, p, result.value);
        case Rejected(feedback) =>
          EmitEvent(ToolStarted(p.call));
          flow := SettlePending(policy, p, ErrorResult(p.call, WorkerText(cfg, RejectedText(p.call.name, feedback))));
        case DecisionCancelled =>
          EmitEvent(ToolStarted(p.call));
          flow := SettlePending(policy, p, ErrorResult(p.call, WorkerText(cfg, CancelledText(p.call.name))));
      }
    }

    method TakeDecision(policy: ToolCall -> Verdict, decision: Decision) returns (flow: Flow)
      modifies this, dedupe
      ensures (State(), flow) == ResumeStep(old(State()), env, cfg, policy, decision)
    {
      if pending.None? {
        finished := true;
        return Halt(TurnOver(Outcome(TurnFailed, steps, Some(NoPendingApproval), false)));
      }
      var p := pending.value;
      pending := None;
      var cancelled := IsCancelled();
      if cancelled {
        var progress := AbortStep(p.step);
        return Halt(progress);
      }
      MarkResolved();
      flow := CarryOutDecision(policy, p, decision);
    }

    // ---------- Compaction ----------

    method AskSummary(prompt: seq<Message>) returns (summary: Option<string>)
      modifies this
      ensures var (n, found) := Summarize(env, old(clock.llm), prompt, COMPACTION_MAX_SHRINK_ATTEMPTS + 1);
        State() == old(State()).(clock := old(clock).(llm := n)) && summary == found
    {
      var history := prompt;
      var attempts: nat := COMPACTION_MAX_SHRINK_ATTEMPTS + 1;
      while attempts > 0
        invariant Summarize(env, clock.llm, history, attempts)
          == Summarize(env, old(clock.llm), prompt, COMPACTION_MAX_SHRINK_ATTEMPTS + 1)
        invariant State() == old(State()).(clock := old(clock).(llm := clock.llm))
      {
        var reply := env.llm(clock.llm, history + [UserText(COMPACTION_INSTRUCTION)]);
        clock := clock.(llm := clock.llm + 1);
        if reply.LlmError? {
          return None;
        }
        if Trim(reply.text) != "" && reply.finish != Length {
          return Some(Trim(reply.text));
        }
        if |history| <= 1 {
          return None;
        }
        history := history[1..];
        attempts := attempts - 1;
      }
      summary := None;
    }

    method CompactHistory() returns (compacted: bool)
      modifies this
      ensures (State(), compacted) == Compact(old(State()), env)
    {
      var before := Tokens(messages, env.estimate);
      var history := E.CloseUnresolvedToolExchanges(messages);
      var summary := AskSummary(history);
      if summary.None? {
        return false;
      }
      var kept, after := CompactedShape(messages, summary.value, env.estimate);
      var count := |messages|;
      lastCompacted := Some(after);
      messages := kept;
      EmitEvent(ContextCompacted(summary.value, before, after, count));
      compacted := true;
    }

    method CompactIfNeeded()
      modifies this
      ensures State() == MaybeCompact(old(State()), env, cfg)
    {
      if cfg.maxContext.Some? && cfg.maxContext.value > 0 {
        var estimated := Tokens(messages, env.estimate) + env.toolTokens;
        var alreadyCompacted := lastCompacted.Some? && estimated <= lastCompacted.value;
        if ShouldCompact(estimated, cfg.maxContext.value) && !alreadyCompacted {
          var _ := CompactHistory();
        }
      }
    }

    // ---------- The step loop ----------

    method LookForSteers()
      modifies this
      ensures State() == LookAtSteers(old(State()), env)
    {
      steerQueue := steerQueue + UserTexts(env.steers(clock.looks));
      clock := clock.(looks := clock.looks + 1);
    }

    method DrainSteerQueue()
      modifies this
      ensures State() == DrainSteers(old(State()), env)
    {
      LookForSteers();
      messages := messages + steerQueue;
      steerQueue := [];
    }

    method AssembleRequest() returns (request: Request)
      ensures request == StepRequest(cfg, messages)
    {
      var assembled := messages;
      if cfg.window.Some? && cfg.window.value > 0 {
        assembled := ProjectWindow(messages, cfg.window.value);
      }
      var sent := E.CloseUnresolvedToolExchanges(assembled);
      request := Request(assembled, sent);
    }

    method StartStep() returns (request: seq<Message>)
      modifies this, dedupe
      ensures State() == BeginStep(old(State()), cfg) && request == StepRequest(cfg, old(messages)).sent
    {
      steps := steps + 1;
      dedupe.BeginStep();
      EmitEvent(StepStarted(steps));
      var assembled := AssembleRequest();
      requests := requests + [assembled];
      request := assembled.sent;
    }

    method GiveUp(message: string, overflow: bool) returns (flow: Flow)
      modifies this
      ensures (State(), flow) == FailStep(old(State()), message, overflow)
    {
      EmitEvent(StepInterrupted(steps, false));
      var progress := FinishTurn(TurnFailed, Some(ProviderError(message, overflow)), false);
      flow := Halt(progress);
    }

    method RetryOrGiveUp(message: string, overflow: bool) returns (flow: Flow)
      modifies this
      ensures (State(), flow) == RetryStep(old(State()), env, cfg, message, overflow)
    {
      var max := MaxAttempts(cfg);
      if retries < max {
        retries := retries + 1;
        EmitEvent(StepRetrying(steps, retries, max));
        var cancelled := IsCancelled();
        if cancelled {
          var progress := FinishTurn(TurnCancelled, None, false);
          return Halt(progress);
        }
        return Again;
      }
      retries := 0;
      flow := GiveUp(message, overflow);
    }

    method HandleError(message: string, overflow: bool, retryable: bool) returns (flow: Flow)
      modifies this
      ensures (State(), flow) == StepError(old(State()), env, cfg, message, overflow, retryable)
    {
      var cancelled := IsCancelled();
      if cancelled {
        var progress := FinishTurn(TurnCancelled, None, false);
        return Halt(progress);
      }
      var compacted := false;
      if overflow && cfg.maxContext.Some? {
        compacted := CompactHistory();
      }
      if compacted {
        flow := Again;
      } else if retryable {
        flow := RetryOrGiveUp(message, overflow);
      } else {
        flow := GiveUp(message, overflow);
      }
    }

    method EndTurn(finish: FinishReason) returns (progress: Progress)
      modifies this
      ensures (State(), progress) == EndedBy(old(State()), finish)
    {
      match finish {
        case Truncated => progress := FinishTurn(TurnCompleted, None, true);
        case Length => progress := FinishTurn(TurnCompleted, None, true);
        case Filtered => progress := FinishTurn(TurnFailed, Some(ProviderFiltered), false);
        case ContentFilter => progress := FinishTurn(TurnFailed, Some(ProviderFiltered), false);
        case _ => progress := FinishTurn(TurnCompleted, None, false);
      }
    }

    method CompleteTextStep(finish: FinishReason, usage: Usage) returns (flow: Flow)
      modifies this
      ensures (State(), flow) == StepText(old(State()), env, cfg, finish, usage)
    {
      retries := 0;
      if cfg.review.Some? && Reviewable(finish) && steps >= cfg.review.value.minSteps {
        InjectReview(cfg.review.value.reminder, finish, usage);
        return Again;
      }
      LookForSteers();
      if steerQueue != [] {
        EmitEvent(StepCompleted(steps, usage, finish));
        return Again;
      }
      flow := CompleteLastStep(finish, usage);
    }

    method InjectReview(reminder: string, finish: FinishReason, usage: Usage)
      modifies this
      ensures var s1 := CompleteStep(old(State()), old(steps), usage, finish);
        State() == Emit(s1.(messages := s1.messages + [UserText(reminder)]), ReviewInjected(reminder))
    {
      EmitEvent(StepCompleted(steps, usage, finish));
      messages := messages + [UserText(reminder)];
      EmitEvent(ReviewInjected(reminder));
    }

    method CompleteLastStep(finish: FinishReason, usage: Usage) returns (flow: Flow)
      modifies this
      ensures (State(), flow)
        == HaltWith(EndedBy(CompleteStep(old(State()).(finished := true), old(steps), usage, finish), finish))
    {
      finished := true;
      EmitEvent(StepCompleted(steps, usage, finish));
      var progress := EndTurn(finish);
      flow := Halt(progress);
    }

    method RunToolStep(policy: ToolCall -> Verdict, calls: seq<ToolCall>, text: string,
                       usage: Usage) returns (flow: Flow)
      modifies this, dedupe
      ensures (State(), flow) == StepTools(old(State()), env, cfg, policy, calls, text, usage)
    {
      messages := messages + [Asking(calls, text)];
      var step := steps;
      var end := ExecuteBatch(policy, calls, 0, step, usage);
      flow := EndToolStep(end, step, usage);
    }

    method EndToolStep(end: BatchEnd, step: nat, usage: Usage) returns (flow: Flow)
      modifies this
      ensures (State(), flow)
        == AfterBatch(if end.BatchDone? then old(State()).(retries := 0) else old(State()), end, step, usage)
    {
      if end.BatchDone? {
        retries := 0;
      }
      flow := EndBatch(end, step, usage);
    }

    method StreamDeltas(texts: seq<string>)
      modifies this
      ensures State() == old(State()).(events := old(events) + Deltas(texts))
    {
      ghost var before := events;
      for i := 0 to |texts|
        invariant State() == old(State()).(events := events)
        invariant events + Deltas(texts[i..]) == before + Deltas(texts)
      {
        assert texts[i..][1..] == texts[i + 1..];
        Regroup(events, [StreamDelta(texts[i])], Deltas(texts[i + 1..]));
        EmitEvent(StreamDelta(texts[i]));
      }
    }

    method HandleAnswer(policy: ToolCall -> Verdict, answer: LlmReply) returns (flow: Flow)
      modifies this, dedupe
      ensures (State(), flow) == AnswerWith(env, cfg, policy)(old(State()), answer)
    {
      match answer {
        case LlmError(message, overflow, retryable) => flow := HandleError(message, overflow, retryable);
        case Reply(deltas, text, calls, finish, usage) =>
          StreamDeltas(deltas);
          if calls == [] {
            flow := CompleteTextStep(finish, usage);
          } else {
            flow := RunToolStep(policy, calls, text, usage);
          }
      }
    }

    method AskModel(policy: ToolCall -> Verdict, request: seq<Message>) returns (flow: Flow)
      modifies this, dedupe
      ensures (State(), flow) == StepReply(old(State()), env, request, AnswerWith(env, cfg, policy))
    {
      var n := clock.llm;
      CountModelCall();
      if env.llmCancelled(n) {
        var progress := AbortStep(steps);
        return Halt(progress);
      }
      flow := HandleAnswer(policy, env.llm(n, request));
    }

    method CountModelCall()
      modifies this
      ensures State() == old(State()).(clock := old(clock).(llm := old(clock.llm) + 1))
    {
      clock := clock.(llm := clock.llm + 1);
    }

    method OneStep(policy: ToolCall -> Verdict) returns (flow: Flow)
      modifies this, dedupe
      ensures (State(), flow) == Pass(env, cfg, policy)(old(State()))
    {
      var cancelled := IsCancelled();
      if cancelled {
        var progress := FinishTurn(TurnCancelled, None, false);
        return Halt(progress);
      }
      if cfg.maxSteps.Some? && cfg.maxSteps.value > 0 && steps >= cfg.maxSteps.value {
        var progress := FinishTurn(TurnFailed, Some(MaxStepsExceeded), false);
        return Halt(progress);
      }
      DrainSteerQueue();
      CompactIfNeeded();
      var request := StartStep();
      flow := AskModel(policy, request);
    }

    // The loop, watched for at most `fuel` passes.
    method RunLoop(policy: ToolCall -> Verdict, fuel: nat) returns (flow: Flow)
      modifies this, dedupe
      ensures (State(), flow) == Loop(old(State()), Pass(env, cfg, policy), fuel)
    {
      flow := WatchLoop(policy, fuel, Pass(env, cfg, policy));
    }

    // What passes of the loop do, each of them written `pass`.
    static ghost predicate Does(pass: Session -> (Session, Flow), env: Env, cfg: Config, policy: ToolCall -> Verdict) {
      forall s {:trigger Pass(env, cfg, policy)(s)} :: pass(s) == Pass(env, cfg, policy)(s)
    }

    method WatchLoop(policy: ToolCall -> Verdict, fuel: nat, ghost pass: Session -> (Session, Flow))
      returns (flow: Flow)
      requires Does(pass, env, cfg, policy)
      modifies this, dedupe
      ensures (State(), flow) == Loop(old(State()), pass, fuel)
    {
      ghost var goal := Loop(State(), pass, fuel);
      var left := fuel;
      flow := Again;
      while left > 0
        invariant flow == Again && Loop(State(), pass, left) == goal
      {
        ghost var s := State();
        flow := OnePass(policy, pass);
        LoopStep(s, State(), flow, pass, left, goal);
        left := left - 1;
        if flow.Halt? {
          return;
        }
      }
    }

    method OnePass(policy: ToolCall -> Verdict, ghost pass: Session -> (Session, Flow)) returns (flow: Flow)
      requires Does(pass, env, cfg, policy)
      modifies this, dedupe
      ensures (State(), flow) == pass(old(State()))
    {
      flow := OneStep(policy);
    }

    // One pass more of a loop that has `n` left to reach its goal.
    static lemma {:induction false} LoopStep(s: Session, s': Session, flow: Flow, pass: Session -> (Session, Flow),
                                             n: nat, goal: (Session, Flow))
      requires n > 0 && (s', flow) == pass(s) && Loop(s, pass, n) == goal
      ensures goal == if flow.Again? then Loop(s', pass, n - 1) else (s', flow)
    {
    }

    method RunTurn(policy: ToolCall -> Verdict, fuel: nat) returns (flow: Flow)
      modifies this, dedupe
      ensures var start := Emit(old(State()).(messages := cfg.input), TurnStarted);
        (State(), flow) == Loop(start, Pass(env, cfg, policy), fuel)
      ensures old(State()) == New() ==> (State(), flow) == Run(env, cfg, policy, fuel)
    {
      messages := cfg.input;
      EmitEvent(TurnStarted);
      flow := RunLoop(policy, fuel);
    }

    method ResumeTurn(policy: ToolCall -> Verdict, decision: Decision, fuel: nat) returns (flow: Flow)
      modifies this, dedupe
      ensures (State(), flow) == Resume(old(State()), env, cfg, policy, decision, fuel)
    {
      flow := TakeDecision(policy, decision);
      if flow.Again? {
        flow := RunLoop(policy, fuel);
      }
    }

    // A whole turn: `run`, then one `resume` after each request for approval.
    method PlayTurn(policy: ToolCall -> Verdict, fuel: nat, resumes: seq<R.Call>) returns (flow: Flow)
      requires State() == New()
      modifies this, dedupe
      ensures (State(), flow) == R.Play(env, cfg, policy, fuel, resumes)
      ensures R.Reliable(State(), flow, env, cfg)
    {
      flow := RunTurn(policy, fuel);
      assert resumes[..0] == [];
      for i := 0 to |resumes|
        invariant (State(), flow) == R.Play(env, cfg, policy, fuel, resumes[..i])
      {
        assert resumes[..i + 1][..i] == resumes[..i];
        if flow.Halt? && flow.progress.NeedsApproval? {
          flow := ResumeTurn(resumes[i].policy, resumes[i].decision, resumes[i].fuel);
        }
      }
      assert resumes[..|resumes|] == resumes;
      R.PlayReliable(env, cfg, policy, fuel, resumes);
    }
  }
}
