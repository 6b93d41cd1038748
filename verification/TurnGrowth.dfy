// The event stream only grows: what was emitted stays where it is.
module TurnGrowth {
  import opened Messages
  import opened Tools
  import opened Turn
  import opened Wrappers

  predicate Extends(a: seq<Event>, b: seq<Event>) {
    |a| <= |b| && forall k :: 0 <= k < |a| ==> b[k] == a[k]
  }

  predicate Grows(s: Session, s': Session) {
    Extends(s.events, s'.events)
  }

  // ---------- A batch ----------

  lemma {:induction false} FinalizeGrows(s: Session, callId: string, r: ToolResult)
    ensures Grows(s, Finalize(s, callId, r).0)
  {
  }

  lemma {:induction false} ApprovedGrows(s: Session, env: Env, call: ToolCall, batch: seq<ToolCall>, step: nat)
    ensures Grows(s, ApprovedCall(s, env, call, batch, step).0)
  {
    var (s1, result) := RunTool(Resolved(s), env, call, batch);
    if result.Some? { FinalizeGrows(s1, call.id, result.value); }
  }

  lemma {:induction false} OneCallGrows(s: Session, env: Env, cfg: Config, policy: ToolCall -> Verdict, p: Pending)
    ensures Grows(s, OneCall(s, env, cfg, policy, p).0)
  {
    var (s1, duplicate) := Checked(AskFlag(s), p.call);
    if !env.flag(s.clock.flags) && !duplicate {
      match policy(p.call)
      case Approve => ApprovedGrows(s1, env, p.call, p.batch, p.step);
      case Deny(reason) =>
        FinalizeGrows(Emit(s1, ToolStarted(p.call)), p.call.id, ErrorResult(p.call, WorkerText(cfg, reason)));
      case Ask =>
    }
  }

  ghost predicate CallsGrow(one: Calling) {
    forall s, p :: Grows(s, one(s, p).0)
  }

  lemma {:induction false} EveryCallGrows(env: Env, cfg: Config, policy: ToolCall -> Verdict)
    ensures CallsGrow(CallWith(env, cfg, policy))
  {
    forall s, p
      ensures Grows(s, OneCall(s, env, cfg, policy, p).0)
    {
      OneCallGrows(s, env, cfg, policy, p);
    }
  }

  lemma {:induction false} SkipGrows(s: Session, calls: seq<ToolCall>, i: nat)
    ensures Grows(s, SkipFrom(s, calls, i))
    decreases |calls| - i
  {
    if i < |calls| { SkipGrows(SettleNow(s, calls[i], ErrorResult(calls[i], TOOL_SKIPPED)), calls, i + 1); }
  }

  lemma {:induction false} BatchGrows(s: Session, one: Calling, calls: seq<ToolCall>, i: nat, step: nat, usage: Usage)
    requires CallsGrow(one)
    ensures Grows(s, BatchFrom(s, one, calls, i, step, usage).0)
    decreases |calls| - i
  {
    if i < |calls| {
      var (s1, end) := one(s, Pending(calls[i], calls, i, step, usage));
      assert Grows(s, s1);
      if end.Goes? {
        BatchGrows(s1, one, calls, i + 1, step, usage);
      } else if end.Stops? {
        SkipGrows(s1, calls, i + 1);
      }
    }
  }

  lemma {:induction false} AfterBatchGrows(s: Session, end: BatchEnd, step: nat, usage: Usage)
    ensures Grows(s, AfterBatch(s, end, step, usage).0)
  {
  }

  // ---------- resume ----------

  lemma {:induction false} SettledGrows(s: Session, env: Env, cfg: Config, policy: ToolCall -> Verdict, p: Pending,
                                        r: ToolResult)
    ensures Grows(s, ResumeSettled(s, env, cfg, policy, p, r).0)
  {
    var (s1, final) := Finalize(s, p.call.id, r);
    FinalizeGrows(s, p.call.id, r);
    if final.stopTurn {
      SkipGrows(s1, p.batch, p.index + 1);
      AfterBatchGrows(EndStep(SkipFrom(s1, p.batch, p.index + 1)), BatchDone(true), p.step, p.usage);
    } else {
      var one := CallWith(env, cfg, policy);
      var (s2, end) := BatchFrom(s1, one, p.batch, p.index + 1, s1.steps, p.usage);
      EveryCallGrows(env, cfg, policy);
      BatchGrows(s1, one, p.batch, p.index + 1, s1.steps, p.usage);
      AfterBatchGrows(s2, end, p.step, p.usage);
    }
  }

  lemma {:induction false} DecidedGrows(s: Session, env: Env, cfg: Config, policy: ToolCall -> Verdict, p: Pending,
                                        d: Decision)
    ensures Grows(s, ResumeDecided(s, env, cfg, policy, p, d).0)
  {
    match d
    case Approved =>
      var (s1, result) := RunTool(s, env, p.call, p.batch);
      assert Grows(s, s1);
      if result.Some? { SettledGrows(s1, env, cfg, policy, p, result.value); }
    case Rejected(feedback) =>
      var output := WorkerText(cfg, RejectedText(p.call.name, feedback));
      SettledGrows(Emit(s, ToolStarted(p.call)), env, cfg, policy, p, ErrorResult(p.call, output));
    case DecisionCancelled =>
      var output := WorkerText(cfg, CancelledText(p.call.name));
      SettledGrows(Emit(s, ToolStarted(p.call)), env, cfg, policy, p, ErrorResult(p.call, output));
  }

  lemma {:induction false} ResumeStepGrows(s: Session, env: Env, cfg: Config, policy: ToolCall -> Verdict, d: Decision)
    ensures Grows(s, ResumeStep(s, env, cfg, policy, d).0)
  {
    if s.pending.Some? && !env.flag(s.clock.flags) {
      DecidedGrows(Resolved(AskFlag(s.(pending := None))), env, cfg, policy, s.pending.value, d);
    }
  }

  // ---------- A pass of the loop ----------

  lemma {:induction false} CompactGrows(s: Session, env: Env)
    ensures Grows(s, Compact(s, env).0)
  {
  }

  lemma {:induction false} TextGrows(s: Session, env: Env, cfg: Config, finish: FinishReason, usage: Usage)
    ensures Grows(s, StepText(s, env, cfg, finish, usage).0)
  {
  }

  lemma {:induction false} RetryGrows(s: Session, env: Env, cfg: Config, message: string, overflow: bool)
    ensures Grows(s, RetryStep(s, env, cfg, message, overflow).0)
  {
  }

  lemma {:induction false} ErrorGrows(s: Session, env: Env, cfg: Config, message: string, overflow: bool,
                                      retryable: bool)
    ensures Grows(s, StepError(s, env, cfg, message, overflow, retryable).0)
  {
    var s0 := AskFlag(s);
    CompactGrows(s0, env);
    var (s1, compacted) := if overflow && cfg.maxContext.Some? then Compact(s0, env) else (s0, false);
    if !compacted && retryable { RetryGrows(s1, env, cfg, message, overflow); }
  }

  lemma {:induction false} ToolsGrow(s: Session, env: Env, cfg: Config, policy: ToolCall -> Verdict,
                                     calls: seq<ToolCall>, text: string, usage: Usage)
    ensures Grows(s, StepTools(s, env, cfg, policy, calls, text, usage).0)
  {
    var one := CallWith(env, cfg, policy);
    var s0 := s.(messages := s.messages + [Asking(calls, text)]);
    EveryCallGrows(env, cfg, policy);
    BatchGrows(s0, one, calls, 0, s.steps, usage);
    var (s1, end) := BatchFrom(s0, one, calls, 0, s.steps, usage);
    AfterBatchGrows(if end.BatchDone? then s1.(retries := 0) else s1, end, s.steps, usage);
  }

  ghost predicate AnswersGrow(answering: Answering) {
    forall s, answer :: Grows(s, answering(s, answer).0)
  }

  lemma {:induction false} EveryAnswerGrows(env: Env, cfg: Config, policy: ToolCall -> Verdict)
    ensures AnswersGrow(AnswerWith(env, cfg, policy))
  {
    forall s, answer
      ensures Grows(s, StepAnswer(s, env, cfg, policy, answer).0)
    {
      match answer
      case LlmError(message, overflow, retryable) => ErrorGrows(s, env, cfg, message, overflow, retryable);
      case Reply(deltas, text, calls, finish, usage) =>
        var s1 := s.(events := s.events + Deltas(deltas));
        if calls == [] {
          TextGrows(s1, env, cfg, finish, usage);
        } else {
          ToolsGrow(s1, env, cfg, policy, calls, text, usage);
        }
    }
  }

  lemma {:induction false} OpeningGrows(s: Session, env: Env, cfg: Config)
    ensures Grows(s, BeginStep(MaybeCompact(DrainSteers(s, env), env, cfg), cfg))
  {
    CompactGrows(DrainSteers(s, env), env);
  }

  lemma {:induction false} ReplyGrows(s: Session, env: Env, request: seq<Message>, answering: Answering)
    requires AnswersGrow(answering)
    ensures Grows(s, StepReply(s, env, request, answering).0)
  {
  }

  lemma {:induction false} IterateGrows(s: Session, env: Env, cfg: Config, answering: Answering)
    requires AnswersGrow(answering)
    ensures Grows(s, Iterate(s, env, cfg, answering).0)
  {
    var s1 := MaybeCompact(DrainSteers(AskFlag(s), env), env, cfg);
    OpeningGrows(AskFlag(s), env, cfg);
    ReplyGrows(BeginStep(s1, cfg), env, StepRequest(cfg, s1.messages).sent, answering);
  }

  ghost predicate PassesGrow(pass: Session -> (Session, Flow)) {
    forall s :: Grows(s, pass(s).0)
  }

  lemma {:induction false} EveryPassGrows(env: Env, cfg: Config, policy: ToolCall -> Verdict)
    ensures PassesGrow(Pass(env, cfg, policy))
  {
    EveryAnswerGrows(env, cfg, policy);
    forall s
      ensures Grows(s, Iterate(s, env, cfg, AnswerWith(env, cfg, policy)).0)
    {
      IterateGrows(s, env, cfg, AnswerWith(env, cfg, policy));
    }
  }

  lemma {:induction false} LoopGrows(s: Session, pass: Session -> (Session, Flow), fuel: nat)
    requires PassesGrow(pass)
    ensures Grows(s, Loop(s, pass, fuel).0)
    decreases fuel
  {
    if fuel > 0 {
      assert Grows(s, pass(s).0);
      if pass(s).1.Again? { LoopGrows(pass(s).0, pass, fuel - 1); }
    }
  }

  lemma {:induction false} ResumeGrows(s: Session, env: Env, cfg: Config, policy: ToolCall -> Verdict, d: Decision,
                                       fuel: nat)
    ensures Grows(s, Resume(s, env, cfg, policy, d, fuel).0)
  {
    ResumeStepGrows(s, env, cfg, policy, d);
    EveryPassGrows(env, cfg, policy);
    LoopGrows(ResumeStep(s, env, cfg, policy, d).0, Pass(env, cfg, policy), fuel);
  }
}
