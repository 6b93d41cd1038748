// Every run of the executor stands in the trail: the calls marked as run or decided, which the limit of
// twelve speaks of, are at least as many as the executor was asked for.
module TurnRunCount {
  import opened Wrappers
  import opened Messages
  import opened Tools
  import opened Turn
  import opened TurnBooks
  import opened TurnRuns

  function Marked(trail: seq<Trace>): nat {
    CountResolved(trail, 0, |trail|)
  }

  predicate Paid(s: Session) {
    s.clock.runs <= Marked(s.trail)
  }

  // One call is in flight: checked, and not yet marked.
  predicate Unmarked(s: Session) {
    s.trail != [] && !s.trail[|s.trail| - 1].resolved && Paid(s)
  }

  predicate PaidFlow(s: Session, flow: Flow) {
    Paid(s) && (flow.Halt? && flow.progress.NeedsApproval? ==> Unmarked(s))
  }

  lemma {:induction false} CountPrefix(trail: seq<Trace>, longer: seq<Trace>, b: nat)
    requires b <= |trail| && b <= |longer| && trail[..b] == longer[..b]
    ensures CountResolved(trail, 0, b) == CountResolved(longer, 0, b)
    decreases b
  {
    if b > 0 {
      assert trail[b - 1] == trail[..b][b - 1] && longer[b - 1] == longer[..b][b - 1];
      assert trail[..b - 1] == trail[..b][..b - 1] && longer[..b - 1] == longer[..b][..b - 1];
      CountPrefix(trail, longer, b - 1);
    }
  }

  lemma {:induction false} MarkedSnoc(trail: seq<Trace>, t: Trace)
    ensures Marked(trail + [t]) == Marked(trail) + if t.resolved then 1 else 0
  {
    assert (trail + [t])[..|trail|] == trail && trail[..|trail|] == trail;
    CountPrefix(trail, trail + [t], |trail|);
  }

  // Marking the call in flight pays for one run.
  lemma {:induction false} ResolvedPays(s: Session)
    requires Unmarked(s)
    ensures Marked(Resolved(s).trail) == Marked(s.trail) + 1
  {
    var n := |s.trail| - 1;
    var before, last := s.trail[..n], s.trail[n];
    assert s.trail == before + [last] && Resolved(s).trail == before + [last.(resolved := true)];
    MarkedSnoc(before, last);
    MarkedSnoc(before, last.(resolved := true));
  }

  // ---------- One call ----------

  predicate SameCount(s: Session, s': Session) {
    s'.trail == s.trail && s'.clock.runs == s.clock.runs
  }

  lemma {:induction false} FinalizeSame(s: Session, callId: string, r: ToolResult)
    ensures SameCount(s, Finalize(s, callId, r).0)
  {
  }

  lemma {:induction false} RunToolCosts(s: Session, env: Env, call: ToolCall, batch: seq<ToolCall>)
    ensures var s' := RunTool(s, env, call, batch).0; s'.trail == s.trail && s'.clock.runs == s.clock.runs + 1
  {
  }

  lemma {:induction false} ApprovedPaid(s: Session, env: Env, call: ToolCall, batch: seq<ToolCall>, step: nat)
    requires Unmarked(s)
    ensures Paid(ApprovedCall(s, env, call, batch, step).0)
  {
    var (s1, result) := RunTool(Resolved(s), env, call, batch);
    ResolvedPays(s);
    RunToolCosts(Resolved(s), env, call, batch);
    if result.Some? { FinalizeSame(s1, call.id, result.value); }
  }

  predicate CallPaid(s': Session, end: CallEnd) {
    Paid(s') && (end.Leaves? && end.progress.NeedsApproval? ==> Unmarked(s'))
  }

  lemma {:induction false} CheckedUnmarked(s: Session, call: ToolCall)
    requires Paid(s)
    ensures Unmarked(Checked(AskFlag(s), call).0)
  {
    MarkedSnoc(s.trail, Trace(KeyOf(call), false));
  }

  lemma {:induction false} OneCallPaid(s: Session, env: Env, cfg: Config, policy: ToolCall -> Verdict, p: Pending)
    requires Paid(s)
    ensures var (s', end) := OneCall(s, env, cfg, policy, p); CallPaid(s', end)
  {
    var (s1, duplicate) := Checked(AskFlag(s), p.call);
    CheckedUnmarked(s, p.call);
    if !env.flag(s.clock.flags) && !duplicate {
      match policy(p.call)
      case Approve => ApprovedPaid(s1, env, p.call, p.batch, p.step);
      case Deny(reason) =>
        FinalizeSame(Emit(s1, ToolStarted(p.call)), p.call.id, ErrorResult(p.call, WorkerText(cfg, reason)));
      case Ask =>
    }
  }

  ghost predicate PaysCalls(one: Calling) {
    forall s, p :: Paid(s) ==> CallPaid(one(s, p).0, one(s, p).1)
  }

  lemma {:induction false} CallsPaid(env: Env, cfg: Config, policy: ToolCall -> Verdict)
    ensures PaysCalls(CallWith(env, cfg, policy))
  {
    forall s, p | Paid(s)
      ensures CallPaid(OneCall(s, env, cfg, policy, p).0, OneCall(s, env, cfg, policy, p).1)
    {
      OneCallPaid(s, env, cfg, policy, p);
    }
  }

  // ---------- A batch, a step ----------

  lemma {:induction false} SkipSame(s: Session, calls: seq<ToolCall>, i: nat)
    ensures SameCount(s, SkipFrom(s, calls, i))
    decreases |calls| - i
  {
    if i < |calls| { SkipSame(SettleNow(s, calls[i], ErrorResult(calls[i], TOOL_SKIPPED)), calls, i + 1); }
  }

  predicate BatchPaid(s: Session, end: BatchEnd) {
    Paid(s) && (end.BatchLeft? && end.progress.NeedsApproval? ==> Unmarked(s))
  }

  lemma {:induction false} BatchFromPaid(s: Session, one: Calling, calls: seq<ToolCall>, i: nat, step: nat,
                                         usage: Usage)
    requires PaysCalls(one) && Paid(s)
    ensures var (s', end) := BatchFrom(s, one, calls, i, step, usage); BatchPaid(s', end)
    decreases |calls| - i
  {
    if i < |calls| {
      var p := Pending(calls[i], calls, i, step, usage);
      var (s1, end) := one(s, p);
      assert CallPaid(s1, end);
      if end.Goes? {
        BatchFromPaid(s1, one, calls, i + 1, step, usage);
      } else if end.Stops? {
        SkipSame(s1, calls, i + 1);
      }
    }
  }

  lemma {:induction false} AfterBatchPaid(s: Session, end: BatchEnd, step: nat, usage: Usage)
    requires BatchPaid(s, end)
    ensures var (s', flow) := AfterBatch(s, end, step, usage); PaidFlow(s', flow)
  {
  }

  lemma {:induction false} ToolsPaid(s: Session, env: Env, cfg: Config, policy: ToolCall -> Verdict,
                                     calls: seq<ToolCall>, text: string, usage: Usage)
    requires Paid(s)
    ensures var (s', flow) := StepTools(s, env, cfg, policy, calls, text, usage); PaidFlow(s', flow)
  {
    var s0 := s.(messages := s.messages + [Asking(calls, text)]);
    CallsPaid(env, cfg, policy);
    BatchFromPaid(s0, CallWith(env, cfg, policy), calls, 0, s.steps, usage);
    var (s1, end) := BatchFrom(s0, CallWith(env, cfg, policy), calls, 0, s.steps, usage);
    AfterBatchPaid(if end.BatchDone? then s1.(retries := 0) else s1, end, s.steps, usage);
  }

  // Whatever neither checks nor runs a call.
  predicate Leaves(s: Session, s': Session, flow: Flow) {
    SameCount(s, s') && !(flow.Halt? && flow.progress.NeedsApproval?)
  }

  lemma {:induction false} CompactSame(s: Session, env: Env)
    ensures SameCount(s, Compact(s, env).0)
  {
  }

  lemma {:induction false} RetryLeaves(s: Session, env: Env, cfg: Config, message: string, overflow: bool)
    ensures var (s', flow) := RetryStep(s, env, cfg, message, overflow); Leaves(s, s', flow)
  {
  }

  lemma {:induction false} ErrorLeaves(s: Session, env: Env, cfg: Config, message: string, overflow: bool,
                                       retryable: bool)
    ensures var (s', flow) := StepError(s, env, cfg, message, overflow, retryable); Leaves(s, s', flow)
  {
    var s0 := AskFlag(s);
    CompactSame(s0, env);
    RetryLeaves(if overflow && cfg.maxContext.Some? then Compact(s0, env).0 else s0, env, cfg, message, overflow);
  }

  lemma {:induction false} TextLeaves(s: Session, env: Env, cfg: Config, finish: FinishReason, usage: Usage)
    ensures var (s', flow) := StepText(s, env, cfg, finish, usage); Leaves(s, s', flow)
  {
  }

  lemma {:induction false} AnswerPaid(s: Session, env: Env, cfg: Config, policy: ToolCall -> Verdict,
                                      answer: LlmReply)
    requires Paid(s)
    ensures var (s', flow) := StepAnswer(s, env, cfg, policy, answer); PaidFlow(s', flow)
  {
    match answer
    case LlmError(message, overflow, retryable) => ErrorLeaves(s, env, cfg, message, overflow, retryable);
    case Reply(deltas, text, calls, finish, usage) =>
      var s1 := s.(events := s.events + Deltas(deltas));
      if calls == [] {
        TextLeaves(s1, env, cfg, finish, usage);
      } else {
        ToolsPaid(s1, env, cfg, policy, calls, text, usage);
      }
  }

  // ---------- A run ----------

  ghost predicate PaysAnswers(answering: Answering) {
    forall s, answer :: Paid(s) ==> PaidFlow(answering(s, answer).0, answering(s, answer).1)
  }

  lemma {:induction false} OpeningSame(s: Session, env: Env, cfg: Config)
    ensures SameCount(s, BeginStep(MaybeCompact(DrainSteers(AskFlag(s), env), env, cfg), cfg))
  {
    CompactSame(DrainSteers(AskFlag(s), env), env);
  }

  lemma {:induction false} ReplyPaid(s: Session, env: Env, request: seq<Message>, answering: Answering)
    requires PaysAnswers(answering) && Paid(s)
    ensures var (s', flow) := StepReply(s, env, request, answering); PaidFlow(s', flow)
  {
    assert Paid(s.(clock := s.clock.(llm := s.clock.llm + 1)));
  }

  lemma {:induction false} IteratePaid(s: Session, env: Env, cfg: Config, answering: Answering)
    requires PaysAnswers(answering) && Paid(s)
    ensures var (s', flow) := Iterate(s, env, cfg, answering); PaidFlow(s', flow)
  {
    var s1 := MaybeCompact(DrainSteers(AskFlag(s), env), env, cfg);
    OpeningSame(s, env, cfg);
    ReplyPaid(BeginStep(s1, cfg), env, StepRequest(cfg, s1.messages).sent, answering);
  }

  lemma {:induction false} LoopPaid(s: Session, env: Env, cfg: Config, policy: ToolCall -> Verdict, fuel: nat)
    requires Paid(s)
    ensures var (s', flow) := Loop(s, Pass(env, cfg, policy), fuel); PaidFlow(s', flow)
  {
    var answering := AnswerWith(env, cfg, policy);
    var keeps := (s1: Session, flow: Flow) => PaidFlow(s1, flow);
    forall s1, answer | Paid(s1)
      ensures PaidFlow(StepAnswer(s1, env, cfg, policy, answer).0, StepAnswer(s1, env, cfg, policy, answer).1)
    {
      AnswerPaid(s1, env, cfg, policy, answer);
    }
    forall s1 | keeps(s1, Again)
      ensures keeps(Iterate(s1, env, cfg, answering).0, Iterate(s1, env, cfg, answering).1)
    {
      IteratePaid(s1, env, cfg, answering);
    }
    LoopKeeps(s, Pass(env, cfg, policy), fuel, keeps);
  }

  lemma {:induction false} SettledPaid(s: Session, env: Env, cfg: Config, policy: ToolCall -> Verdict, p: Pending,
                                       r: ToolResult)
    requires Paid(s)
    ensures var (s', flow) := ResumeSettled(s, env, cfg, policy, p, r); PaidFlow(s', flow)
  {
    var (s1, final) := Finalize(s, p.call.id, r);
    var (s2, end) := BatchRest(s1, final, CallWith(env, cfg, policy), p);
    FinalizeSame(s, p.call.id, r);
    CallsPaid(env, cfg, policy);
    RestPaid(s1, final, CallWith(env, cfg, policy), p);
    AfterBatchPaid(s2, end, p.step, p.usage);
  }

  lemma {:induction false} RestPaid(s: Session, final: ToolResult, one: Calling, p: Pending)
    requires PaysCalls(one) && Paid(s)
    ensures var (s', end) := BatchRest(s, final, one, p); BatchPaid(s', end)
  {
    if final.stopTurn {
      SkipSame(s, p.batch, p.index + 1);
    } else {
      BatchFromPaid(s, one, p.batch, p.index + 1, s.steps, p.usage);
    }
  }

  // `s` has the pending call marked already, and not run yet.
  lemma {:induction false} DecidedPaid(s: Session, env: Env, cfg: Config, policy: ToolCall -> Verdict, p: Pending,
                                       decision: Decision)
    requires s.clock.runs + 1 <= Marked(s.trail)
    ensures var (s', flow) := ResumeDecided(s, env, cfg, policy, p, decision); PaidFlow(s', flow)
  {
    match decision
    case Approved =>
      var (s1, result) := RunTool(s, env, p.call, p.batch);
      RunToolCosts(s, env, p.call, p.batch);
      if result.Some? { SettledPaid(s1, env, cfg, policy, p, result.value); }
    case Rejected(feedback) =>
      SettledPaid(Emit(s, ToolStarted(p.call)), env, cfg, policy, p,
                  ErrorResult(p.call, WorkerText(cfg, RejectedText(p.call.name, feedback))));
    case DecisionCancelled =>
      SettledPaid(Emit(s, ToolStarted(p.call)), env, cfg, policy, p,
                  ErrorResult(p.call, WorkerText(cfg, CancelledText(p.call.name))));
  }

  lemma {:induction false} ResumedPaid(s: Session, env: Env, cfg: Config, policy: ToolCall -> Verdict,
                                       decision: Decision)
    requires Unmarked(s)
    ensures var (s', flow) := ResumeStep(s, env, cfg, policy, decision); PaidFlow(s', flow)
  {
    if s.pending.Some? && !env.flag(s.clock.flags) {
      var s0 := AskFlag(s.(pending := None));
      ResolvedPays(s0);
      DecidedPaid(Resolved(s0), env, cfg, policy, s.pending.value, decision);
    }
  }

  // In every run the executor was asked at most as often as calls are marked as run or decided: so the
  // limit on those is one on what is executed.
  lemma {:induction false} RunsAreMarked(env: Env, cfg: Config, policy: ToolCall -> Verdict, fuel: nat,
                                         resumes: seq<Call>)
    ensures var (s, flow) := Play(env, cfg, policy, fuel, resumes);
      PaidFlow(s, flow) && s.clock.runs <= CountResolved(s.trail, 0, |s.trail|)
    decreases |resumes|
  {
    if resumes == [] {
      LoopPaid(Started(cfg), env, cfg, policy, fuel);
    } else {
      var earlier, next := resumes[..|resumes| - 1], resumes[|resumes| - 1];
      RunsAreMarked(env, cfg, policy, fuel, earlier);
      var (s, flow) := Play(env, cfg, policy, fuel, earlier);
      if flow.Halt? && flow.progress.NeedsApproval? {
        ResumedPaid(s, env, cfg, next.policy, next.decision);
        var (s1, flow1) := ResumeStep(s, env, cfg, next.policy, next.decision);
        if flow1.Again? { LoopPaid(s1, env, cfg, next.policy, next.fuel); }
      }
    }
  }
}
