// Only what was approved is run: what the executor would do with any other call makes no difference,
// to no part of a turn.
module TurnIsolation {
  import opened Wrappers
  import opened Messages
  import opened Tools
  import opened Exchange
  import opened Turn
  import opened TurnRuns

  // Two environments that differ only in what the executor does with calls that are not `approved`.
  ghost predicate Differ(env: Env, other: Env, approved: ToolCall -> bool) {
    other == env.(exec := other.exec) && forall call :: approved(call) ==> SameFor(env, other, call)
  }

  function ApprovedBy(policy: ToolCall -> Verdict): ToolCall -> bool {
    (call: ToolCall) => policy(call).Approve?
  }

  // ---------- One call ----------

  // They do not differ for this call.
  ghost predicate SameFor(env: Env, other: Env, call: ToolCall) {
    forall n, batch :: other.exec(n, call, batch) == env.exec(n, call, batch)
  }

  lemma {:induction false} RunToolSame(s: Session, env: Env, other: Env, call: ToolCall, batch: seq<ToolCall>)
    requires other == env.(exec := other.exec) && SameFor(env, other, call)
    ensures RunTool(s, other, call, batch) == RunTool(s, env, call, batch)
  {
    assert other.exec(s.clock.runs, call, batch) == env.exec(s.clock.runs, call, batch);
  }

  // Denied and asked calls and duplicates are the same for every executor.
  lemma {:induction false} OneCallSame(s: Session, env: Env, other: Env, cfg: Config, policy: ToolCall -> Verdict,
                                       p: Pending)
    requires Differ(env, other, ApprovedBy(policy))
    ensures OneCall(s, other, cfg, policy, p) == OneCall(s, env, cfg, policy, p)
  {
    var (s1, duplicate) := Checked(AskFlag(s), p.call);
    if policy(p.call).Approve? {
      assert ApprovedBy(policy)(p.call);
      RunToolSame(Resolved(s1), env, other, p.call, p.batch);
    }
  }

  // Nor is any of them run: the executor is not even asked, nor is there a race to lose.
  lemma {:induction false} UnapprovedIsNotRun(s: Session, env: Env, other: Env, cfg: Config,
                                              policy: ToolCall -> Verdict, p: Pending)
    requires !policy(p.call).Approve? && other == env.(exec := other.exec, race := other.race)
    ensures OneCall(s, env, cfg, policy, p).0.clock.runs == s.clock.runs
    ensures OneCall(s, other, cfg, policy, p) == OneCall(s, env, cfg, policy, p)
  {
  }

  // ---------- A batch ----------

  ghost predicate SameCalls(x: Calling, y: Calling) {
    forall s, p :: x(s, p) == y(s, p)
  }

  lemma {:induction false} CallsSame(env: Env, other: Env, cfg: Config, policy: ToolCall -> Verdict)
    requires Differ(env, other, ApprovedBy(policy))
    ensures SameCalls(CallWith(other, cfg, policy), CallWith(env, cfg, policy))
  {
    forall s, p
      ensures OneCall(s, other, cfg, policy, p) == OneCall(s, env, cfg, policy, p)
    {
      OneCallSame(s, env, other, cfg, policy, p);
    }
  }

  lemma {:induction false} BatchSame(s: Session, x: Calling, y: Calling, calls: seq<ToolCall>, i: nat, step: nat,
                                     usage: Usage)
    requires SameCalls(x, y)
    ensures BatchFrom(s, x, calls, i, step, usage) == BatchFrom(s, y, calls, i, step, usage)
    decreases |calls| - i
  {
    if i < |calls| {
      var (s1, end) := y(s, Pending(calls[i], calls, i, step, usage));
      if end.Goes? { BatchSame(s1, x, y, calls, i + 1, step, usage); }
    }
  }

  // ---------- A step ----------

  lemma {:induction false} SummarizeSame(env: Env, other: Env, n: nat, history: seq<Message>, attempts: nat)
    requires other == env.(exec := other.exec)
    ensures Summarize(other, n, history, attempts) == Summarize(env, n, history, attempts)
    decreases attempts
  {
    if attempts > 0 && |history| > 1 { SummarizeSame(env, other, n + 1, history[1..], attempts - 1); }
  }

  lemma {:induction false} CompactSame(s: Session, env: Env, other: Env)
    requires other == env.(exec := other.exec)
    ensures Compact(s, other) == Compact(s, env)
  {
    SummarizeSame(env, other, s.clock.llm, Repair(s.messages), COMPACTION_MAX_SHRINK_ATTEMPTS + 1);
  }

  lemma {:induction false} ToolsSame(s: Session, env: Env, other: Env, cfg: Config, policy: ToolCall -> Verdict,
                                     calls: seq<ToolCall>, text: string, usage: Usage)
    requires Differ(env, other, ApprovedBy(policy))
    ensures StepTools(s, other, cfg, policy, calls, text, usage) == StepTools(s, env, cfg, policy, calls, text, usage)
  {
    var s0 := s.(messages := s.messages + [Asking(calls, text)]);
    CallsSame(env, other, cfg, policy);
    BatchSame(s0, CallWith(other, cfg, policy), CallWith(env, cfg, policy), calls, 0, s.steps, usage);
  }

  lemma {:induction false} ErrorSame(s: Session, env: Env, other: Env, cfg: Config, message: string, overflow: bool,
                                     retryable: bool)
    requires other == env.(exec := other.exec)
    ensures StepError(s, other, cfg, message, overflow, retryable)
      == StepError(s, env, cfg, message, overflow, retryable)
  {
    CompactSame(AskFlag(s), env, other);
  }

  lemma {:induction false} AnswerSame(s: Session, env: Env, other: Env, cfg: Config, policy: ToolCall -> Verdict,
                                      answer: LlmReply)
    requires Differ(env, other, ApprovedBy(policy))
    ensures StepAnswer(s, other, cfg, policy, answer) == StepAnswer(s, env, cfg, policy, answer)
  {
    match answer
    case LlmError(message, overflow, retryable) => ErrorSame(s, env, other, cfg, message, overflow, retryable);
    case Reply(deltas, text, calls, finish, usage) =>
      if calls != [] {
        ToolsSame(s.(events := s.events + Deltas(deltas)), env, other, cfg, policy, calls, text, usage);
      }
  }

  lemma {:induction false} OpeningSame(s: Session, env: Env, other: Env, cfg: Config)
    requires other == env.(exec := other.exec)
    ensures MaybeCompact(DrainSteers(s, other), other, cfg) == MaybeCompact(DrainSteers(s, env), env, cfg)
  {
    CompactSame(DrainSteers(s, env), env, other);
  }

  lemma {:induction false} PassSame(s: Session, env: Env, other: Env, cfg: Config, v: Answering, w: Answering)
    requires other == env.(exec := other.exec) && forall s1, answer :: v(s1, answer) == w(s1, answer)
    ensures Iterate(s, other, cfg, v) == Iterate(s, env, cfg, w)
  {
    OpeningSame(AskFlag(s), env, other, cfg);
  }

  // ---------- A run ----------

  lemma {:induction false} LoopSame(s: Session, f: Session -> (Session, Flow), g: Session -> (Session, Flow), fuel: nat)
    requires forall s1 :: f(s1) == g(s1)
    ensures Loop(s, f, fuel) == Loop(s, g, fuel)
    decreases fuel
  {
    if fuel > 0 { LoopSame(g(s).0, f, g, fuel - 1); }
  }

  lemma {:induction false} PassesSame(s: Session, env: Env, other: Env, cfg: Config, policy: ToolCall -> Verdict,
                                      fuel: nat)
    requires Differ(env, other, ApprovedBy(policy))
    ensures Loop(s, Pass(other, cfg, policy), fuel) == Loop(s, Pass(env, cfg, policy), fuel)
  {
    var v, w := AnswerWith(other, cfg, policy), AnswerWith(env, cfg, policy);
    forall s1, answer
      ensures StepAnswer(s1, other, cfg, policy, answer) == StepAnswer(s1, env, cfg, policy, answer)
    {
      AnswerSame(s1, env, other, cfg, policy, answer);
    }
    forall s1
      ensures Iterate(s1, other, cfg, v) == Iterate(s1, env, cfg, w)
    {
      PassSame(s1, env, other, cfg, v, w);
    }
    LoopSame(s, Pass(other, cfg, policy), Pass(env, cfg, policy), fuel);
  }

  lemma {:induction false} ResumeSettledSame(s: Session, env: Env, other: Env, cfg: Config,
                                             policy: ToolCall -> Verdict, p: Pending, r: ToolResult)
    requires Differ(env, other, ApprovedBy(policy))
    ensures ResumeSettled(s, other, cfg, policy, p, r) == ResumeSettled(s, env, cfg, policy, p, r)
  {
    var (s1, final) := Finalize(s, p.call.id, r);
    CallsSame(env, other, cfg, policy);
    RestSame(s1, final, CallWith(other, cfg, policy), CallWith(env, cfg, policy), p);
  }

  lemma {:induction false} RestSame(s: Session, final: ToolResult, x: Calling, y: Calling, p: Pending)
    requires SameCalls(x, y)
    ensures BatchRest(s, final, x, p) == BatchRest(s, final, y, p)
  {
    BatchSame(s, x, y, p.batch, p.index + 1, s.steps, p.usage);
  }

  // The decision approves the call that is waiting for it.
  predicate Decides(s: Session, decision: Decision, call: ToolCall) {
    decision.Approved? && s.pending.Some? && s.pending.value.call == call
  }

  // A call the user rejected, or did not decide about, is the same for every executor.
  lemma {:induction false} ResumeStepSame(s: Session, env: Env, other: Env, cfg: Config, policy: ToolCall -> Verdict,
                                          decision: Decision)
    requires Differ(env, other, ApprovedBy(policy))
    requires forall call :: Decides(s, decision, call) ==> SameFor(env, other, call)
    ensures ResumeStep(s, other, cfg, policy, decision) == ResumeStep(s, env, cfg, policy, decision)
  {
    if s.pending.Some? && !env.flag(s.clock.flags) {
      var p := s.pending.value;
      var s0 := Resolved(AskFlag(s.(pending := None)));
      match decision
      case Approved =>
        var (s1, result) := RunTool(s0, env, p.call, p.batch);
        assert Decides(s, decision, p.call);
        RunToolSame(s0, env, other, p.call, p.batch);
        if result.Some? { ResumeSettledSame(s1, env, other, cfg, policy, p, result.value); }
      case Rejected(feedback) =>
        ResumeSettledSame(Emit(s0, ToolStarted(p.call)), env, other, cfg, policy, p,
                          ErrorResult(p.call, WorkerText(cfg, RejectedText(p.call.name, feedback))));
      case DecisionCancelled =>
        ResumeSettledSame(Emit(s0, ToolStarted(p.call)), env, other, cfg, policy, p,
                          ErrorResult(p.call, WorkerText(cfg, CancelledText(p.call.name))));
    }
  }

  // In the course of the run some policy in force approved the call, or the user did when asked.
  ghost predicate WasApproved(env: Env, cfg: Config, policy: ToolCall -> Verdict, fuel: nat, resumes: seq<Call>,
                              call: ToolCall)
    decreases |resumes|
  {
    if resumes == [] then policy(call).Approve?
    else
      var earlier, next := resumes[..|resumes| - 1], resumes[|resumes| - 1];
      || WasApproved(env, cfg, policy, fuel, earlier, call)
      || next.policy(call).Approve?
      || Decides(Play(env, cfg, policy, fuel, earlier).0, next.decision, call)
  }

  ghost predicate DifferInPlay(env: Env, other: Env, cfg: Config, policy: ToolCall -> Verdict, fuel: nat,
                               resumes: seq<Call>)
  {
    && other == env.(exec := other.exec)
    && forall call :: WasApproved(env, cfg, policy, fuel, resumes, call) ==> SameFor(env, other, call)
  }

  // Whatever the executor would have done with calls that neither a policy in force nor the user
  // approved, every run with any pauses and decisions is the same: no such call is ever executed.
  lemma {:induction false} OnlyApprovedCallsRun(env: Env, other: Env, cfg: Config, policy: ToolCall -> Verdict,
                                                fuel: nat, resumes: seq<Call>)
    requires DifferInPlay(env, other, cfg, policy, fuel, resumes)
    ensures Play(other, cfg, policy, fuel, resumes) == Play(env, cfg, policy, fuel, resumes)
    decreases |resumes|
  {
    if resumes == [] {
      PassesSame(Started(cfg), env, other, cfg, policy, fuel);
    } else {
      var earlier, next := resumes[..|resumes| - 1], resumes[|resumes| - 1];
      OnlyApprovedCallsRun(env, other, cfg, policy, fuel, earlier);
      var s := Play(env, cfg, policy, fuel, earlier).0;
      ResumedSame(s, env, other, cfg, next);
    }
  }

  lemma {:induction false} ResumedSame(s: Session, env: Env, other: Env, cfg: Config, next: Call)
    requires Differ(env, other, ApprovedBy(next.policy))
    requires forall call :: Decides(s, next.decision, call) ==> SameFor(env, other, call)
    ensures Resume(s, other, cfg, next.policy, next.decision, next.fuel)
      == Resume(s, env, cfg, next.policy, next.decision, next.fuel)
  {
    ResumeStepSame(s, env, other, cfg, next.policy, next.decision);
    PassesSame(ResumeStep(s, env, cfg, next.policy, next.decision).0, env, other, cfg, next.policy, next.fuel);
  }
}
