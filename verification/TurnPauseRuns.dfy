// Approval pauses over whole turns: the run that pauses and the one that does not agree in all but
// the retry counter for as long as no retryable error is answered while their counters differ; and
// from such an error on they differ visibly.
module TurnPauseRuns {
  import opened Tools
  import opened Turn
  import opened TurnPause
  import opened Wrappers

  // ---------- Where the counter matters ----------

  // One run may still retry, and the other counts differently.
  predicate AttemptsApart(s: Session, t: Session, cfg: Config) {
    s.retries != t.retries && (s.retries < MaxAttempts(cfg) || t.retries < MaxAttempts(cfg))
  }

  // The error is recovered from by compaction.
  predicate Recovers(s: Session, env: Env, cfg: Config, overflow: bool) {
    overflow && cfg.maxContext.Some? && Compact(AskFlag(s), env).1
  }

  function AfterRecovery(s: Session, env: Env, cfg: Config, overflow: bool): Session {
    if overflow && cfg.maxContext.Some? then Compact(AskFlag(s), env).0 else AskFlag(s)
  }

  // The answer sends both runs into the retry branch, where they part.
  predicate Strikes(s: Session, t: Session, env: Env, cfg: Config, answer: LlmReply) {
    && answer.LlmError? && answer.retryable && !Recovers(s, env, cfg, answer.overflow)
    && AttemptsApart(s, t, cfg)
  }

  // ---------- Errors and texts ----------

  lemma {:induction false} CompactNear(counter: bool, s: Session, t: Session, env: Env)
    requires Near(counter, s, t)
    ensures Near(counter, Compact(s, env).0, Compact(t, env).0) && Compact(s, env).1 == Compact(t, env).1
    ensures Compact(s, env).0.pending == s.pending
    ensures Compact(s, env).0.retries == s.retries && Compact(t, env).0.retries == t.retries
  {
  }

  lemma {:induction false} RetryNear(counter: bool, s: Session, t: Session, env: Env, cfg: Config, message: string,
                                     overflow: bool)
    requires NeverFlagged(env) && Near(counter, s, t) && s.pending.None? && !AttemptsApart(s, t, cfg)
    ensures NearFlow(counter, RetryStep(s, env, cfg, message, overflow), RetryStep(t, env, cfg, message, overflow))
    ensures var (s', flow) := RetryStep(s, env, cfg, message, overflow); s'.pending.None? && !Waits(flow)
  {
  }

  lemma {:induction false} FailNear(counter: bool, s: Session, t: Session, message: string, overflow: bool)
    requires Near(counter, s, t) && s.pending.None?
    ensures NearFlow(counter, FailStep(s, message, overflow), FailStep(t, message, overflow))
    ensures var (s', flow) := FailStep(s, message, overflow); s'.pending.None? && !Waits(flow)
  {
  }

  lemma {:induction false} ErrorNear(counter: bool, s: Session, t: Session, env: Env, cfg: Config, message: string,
                                     overflow: bool, retryable: bool)
    requires NeverFlagged(env) && Near(counter, s, t) && s.pending.None?
    requires !Strikes(s, t, env, cfg, LlmError(message, overflow, retryable))
    ensures NearFlow(counter, StepError(s, env, cfg, message, overflow, retryable),
                     StepError(t, env, cfg, message, overflow, retryable))
    ensures var (s', flow) := StepError(s, env, cfg, message, overflow, retryable);
      s'.pending.None? && !Waits(flow)
  {
    var s0, t0 := AskFlag(s), AskFlag(t);
    CompactNear(counter, s0, t0, env);
    var (s1, compacted) := if overflow && cfg.maxContext.Some? then Compact(s0, env) else (s0, false);
    var t1 := if overflow && cfg.maxContext.Some? then Compact(t0, env).0 else t0;
    if !compacted {
      if retryable {
        RetryNear(counter, s1, t1, env, cfg, message, overflow);
      } else {
        FailNear(counter, s1, t1, message, overflow);
      }
    }
  }

  lemma {:induction false} TextNear(counter: bool, s: Session, t: Session, env: Env, cfg: Config, finish: FinishReason,
                                    usage: Usage)
    requires Near(counter, s, t) && s.pending.None?
    ensures NearFlow(counter, StepText(s, env, cfg, finish, usage), StepText(t, env, cfg, finish, usage))
    ensures var (s', flow) := StepText(s, env, cfg, finish, usage); s'.pending.None? && !Waits(flow)
  {
    var s1, t1 := LookAtSteers(s.(retries := 0), env), LookAtSteers(t.(retries := 0), env);
    if !Reviews(cfg, s, finish) && s1.steerQueue == [] {
      EndedNear(counter, CompleteStep(s1.(finished := true), s.steps, usage, finish),
                CompleteStep(t1.(finished := true), s.steps, usage, finish), finish);
    }
  }

  lemma {:induction false} EndedNear(counter: bool, s: Session, t: Session, finish: FinishReason)
    requires Near(counter, s, t) && s.pending.None?
    ensures NearFlow(counter, HaltWith(EndedBy(s, finish)), HaltWith(EndedBy(t, finish)))
    ensures EndedBy(s, finish).0.pending.None? && !Waits(Halt(EndedBy(s, finish).1))
  {
  }

  // ---------- A pass of the loop ----------

  // One run waits in the middle of a pass, and the other's pass ends as the wait will if it is
  // ended by approvals; or neither waits, and both end alike.
  predicate PassTwins(counter: bool, a: (Session, Flow), b: (Session, Flow), env: Env, y: Calling) {
    && FlowTwins(a, b, env, y)
    && (if Waits(a.1) then counter ==> (a.0.retries == 0 ==> b.0.retries == 0) else Near(counter, a.0, b.0))
  }

  lemma {:induction false} ToolsPass(counter: bool, s: Session, t: Session, env: Env, cfg: Config,
                                     policy: ToolCall -> Verdict, outright: ToolCall -> Verdict, calls: seq<ToolCall>,
                                     text: string, usage: Usage)
    requires NeverFlagged(env) && Anticipates(outright, policy) && Near(counter, s, t) && s.pending.None?
    ensures PassTwins(counter, StepTools(s, env, cfg, policy, calls, text, usage),
                      StepTools(t, env, cfg, outright, calls, text, usage), env, CallWith(env, cfg, outright))
  {
    ToolsTwins(counter, s, t, env, cfg, policy, outright, calls, text, usage);
  }

  lemma {:induction false} TextPass(counter: bool, s: Session, t: Session, env: Env, cfg: Config, y: Calling,
                                    finish: FinishReason, usage: Usage)
    requires Near(counter, s, t) && s.pending.None?
    ensures PassTwins(counter, StepText(s, env, cfg, finish, usage), StepText(t, env, cfg, finish, usage), env, y)
  {
    TextNear(counter, s, t, env, cfg, finish, usage);
  }

  lemma {:induction false} ErrorPass(counter: bool, s: Session, t: Session, env: Env, cfg: Config, y: Calling,
                                     answer: LlmReply)
    requires NeverFlagged(env) && Near(counter, s, t) && s.pending.None?
    requires answer.LlmError? && !Strikes(s, t, env, cfg, answer)
    ensures PassTwins(counter, StepError(s, env, cfg, answer.message, answer.overflow, answer.retryable),
                      StepError(t, env, cfg, answer.message, answer.overflow, answer.retryable), env, y)
  {
    ErrorNear(counter, s, t, env, cfg, answer.message, answer.overflow, answer.retryable);
  }

  lemma {:induction false} AnswerTwins(counter: bool, s: Session, t: Session, env: Env, cfg: Config,
                                       policy: ToolCall -> Verdict, outright: ToolCall -> Verdict, answer: LlmReply)
    requires NeverFlagged(env) && Anticipates(outright, policy) && Near(counter, s, t) && s.pending.None?
    requires !Strikes(s, t, env, cfg, answer)
    ensures PassTwins(counter, StepAnswer(s, env, cfg, policy, answer), StepAnswer(t, env, cfg, outright, answer),
                      env, CallWith(env, cfg, outright))
  {
    match answer
    case LlmError(message, overflow, retryable) =>
      ErrorPass(counter, s, t, env, cfg, CallWith(env, cfg, outright), answer);
    case Reply(deltas, text, calls, finish, usage) =>
      var s1, t1 := s.(events := s.events + Deltas(deltas)), t.(events := t.events + Deltas(deltas));
      if calls == [] {
        TextPass(counter, s1, t1, env, cfg, CallWith(env, cfg, outright), finish, usage);
      } else {
        ToolsPass(counter, s1, t1, env, cfg, policy, outright, calls, text, usage);
      }
  }

  // Two ways of answering that differ only by pauses.
  ghost predicate AnswerAlike(counter: bool, v: Answering, w: Answering, env: Env, cfg: Config, y: Calling) {
    forall s, t, answer :: Near(counter, s, t) && s.pending.None? && !Strikes(s, t, env, cfg, answer) ==>
      PassTwins(counter, v(s, answer), w(t, answer), env, y)
  }

  lemma {:induction false} AnswersAlike(counter: bool, env: Env, cfg: Config, policy: ToolCall -> Verdict,
                                        outright: ToolCall -> Verdict)
    requires NeverFlagged(env) && Anticipates(outright, policy)
    ensures AnswerAlike(counter, AnswerWith(env, cfg, policy), AnswerWith(env, cfg, outright), env, cfg,
                        CallWith(env, cfg, outright))
  {
    forall s, t, answer | Near(counter, s, t) && s.pending.None? && !Strikes(s, t, env, cfg, answer)
      ensures PassTwins(counter, StepAnswer(s, env, cfg, policy, answer), StepAnswer(t, env, cfg, outright, answer),
                        env, CallWith(env, cfg, outright))
    {
      AnswerTwins(counter, s, t, env, cfg, policy, outright, answer);
    }
  }

  // The state in which a pass asks the model.
  function StepBegun(s: Session, env: Env, cfg: Config): Session {
    BeginStep(MaybeCompact(DrainSteers(AskFlag(s), env), env, cfg), cfg)
  }

  // The step limit lets the pass go on to the model, and the model is not cancelled.
  predicate Asked(s: Session, env: Env, cfg: Config) {
    && !(cfg.maxSteps.Some? && cfg.maxSteps.value > 0 && s.steps >= cfg.maxSteps.value)
    && !env.llmCancelled(StepBegun(s, env, cfg).clock.llm)
  }

  function Heard(s: Session): Session {
    s.(clock := s.clock.(llm := s.clock.llm + 1))
  }

  function ModelAnswer(s: Session, env: Env, cfg: Config): LlmReply {
    env.llm(StepBegun(s, env, cfg).clock.llm, StepRequest(cfg, StepBegun(s, env, cfg).messages).sent)
  }

  // The pass is answered by an error that both runs would retry, and they count differently.
  predicate PassStrikes(s: Session, t: Session, env: Env, cfg: Config) {
    Asked(s, env, cfg) && Strikes(Heard(StepBegun(s, env, cfg)), Heard(StepBegun(t, env, cfg)), env, cfg,
                                  ModelAnswer(s, env, cfg))
  }

  lemma {:induction false} DrainNear(counter: bool, s: Session, t: Session, env: Env, cfg: Config)
    requires Near(counter, s, t)
    ensures var s1, t1 := MaybeCompact(DrainSteers(s, env), env, cfg), MaybeCompact(DrainSteers(t, env), env, cfg);
      Near(counter, s1, t1) && s1.pending == s.pending && s1.retries == s.retries && t1.retries == t.retries
  {
    CompactNear(counter, DrainSteers(s, env), DrainSteers(t, env), env);
  }

  lemma {:induction false} BeginNear(counter: bool, s: Session, t: Session, cfg: Config)
    requires Near(counter, s, t)
    ensures var s1, t1 := BeginStep(s, cfg), BeginStep(t, cfg);
      Near(counter, s1, t1) && s1.pending == s.pending && s1.retries == s.retries && t1.retries == t.retries
  {
  }

  lemma {:induction false} OpeningNear(counter: bool, s: Session, t: Session, env: Env, cfg: Config)
    requires Near(counter, s, t)
    ensures var s1, t1 := StepBegun(s, env, cfg), StepBegun(t, env, cfg);
      Near(counter, s1, t1) && s1.pending == s.pending && s1.retries == s.retries && t1.retries == t.retries
  {
    var s0, t0 := AskFlag(s), AskFlag(t);
    DrainNear(counter, s0, t0, env, cfg);
    BeginNear(counter, MaybeCompact(DrainSteers(s0, env), env, cfg), MaybeCompact(DrainSteers(t0, env), env, cfg), cfg);
  }

  // A pass that gets to the model does what its answer asks for.
  lemma {:induction false} PassIsAnswer(s: Session, env: Env, cfg: Config, v: Answering)
    requires NeverFlagged(env) && Asked(s, env, cfg)
    ensures Iterate(s, env, cfg, v) == v(Heard(StepBegun(s, env, cfg)), ModelAnswer(s, env, cfg))
  {
  }

  lemma {:induction false} IterateTwins(counter: bool, s: Session, t: Session, env: Env, cfg: Config, v: Answering,
                                        w: Answering, y: Calling)
    requires NeverFlagged(env) && AnswerAlike(counter, v, w, env, cfg, y) && Near(counter, s, t) && s.pending.None?
    requires !PassStrikes(s, t, env, cfg)
    ensures PassTwins(counter, Iterate(s, env, cfg, v), Iterate(t, env, cfg, w), env, y)
  {
    OpeningNear(counter, s, t, env, cfg);
    if Asked(s, env, cfg) {
      PassIsAnswer(s, env, cfg, v);
      PassIsAnswer(t, env, cfg, w);
    } else {
      UnaskedTwins(counter, s, t, env, cfg, v, w, y);
    }
  }

  lemma {:induction false} UnaskedTwins(counter: bool, s: Session, t: Session, env: Env, cfg: Config, v: Answering,
                                        w: Answering, y: Calling)
    requires NeverFlagged(env) && Near(counter, s, t) && s.pending.None? && !Asked(s, env, cfg)
    ensures PassTwins(counter, Iterate(s, env, cfg, v), Iterate(t, env, cfg, w), env, y)
  {
    if cfg.maxSteps.Some? && cfg.maxSteps.value > 0 && s.steps >= cfg.maxSteps.value {
      FinishTwins(counter, AskFlag(s), AskFlag(t), TurnFailed, Some(MaxStepsExceeded), env, y);
    } else {
      OpeningNear(counter, s, t, env, cfg);
      var s1, t1 := StepBegun(s, env, cfg), StepBegun(t, env, cfg);
      AbortTwins(counter, Heard(s1), Heard(t1), env, y);
      PassIsAborted(s, env, cfg, v);
      PassIsAborted(t, env, cfg, w);
    }
  }

  lemma {:induction false} FinishTwins(counter: bool, s: Session, t: Session, reason: EndReason,
                                       failure: Option<Failure>, env: Env, y: Calling)
    requires Near(counter, s, t) && s.pending.None?
    ensures PassTwins(counter, HaltWith(Finish(s, reason, failure, false)), HaltWith(Finish(t, reason, failure, false)),
                      env, y)
  {
  }

  lemma {:induction false} AbortTwins(counter: bool, s: Session, t: Session, env: Env, y: Calling)
    requires Near(counter, s, t) && s.pending.None?
    ensures PassTwins(counter, HaltWith(Aborted(s, s.steps)), HaltWith(Aborted(t, t.steps)), env, y)
  {
  }

  // A pass whose request is cancelled is aborted.
  lemma {:induction false} PassIsAborted(s: Session, env: Env, cfg: Config, v: Answering)
    requires NeverFlagged(env) && !Asked(s, env, cfg)
    requires !(cfg.maxSteps.Some? && cfg.maxSteps.value > 0 && s.steps >= cfg.maxSteps.value)
    ensures var s1 := Heard(StepBegun(s, env, cfg)); Iterate(s, env, cfg, v) == HaltWith(Aborted(s1, s1.steps))
  {
  }

  type Passing = Session -> (Session, Flow)

  type Parting = (Session, Session) -> bool

  // Two passes of the loop that differ only by pauses, but where they part.
  ghost predicate PassAlike(counter: bool, f: Passing, g: Passing, parts: Parting, env: Env, y: Calling) {
    forall s, t :: Near(counter, s, t) && s.pending.None? && !parts(s, t) ==> PassTwins(counter, f(s), g(t), env, y)
  }

  function StrikesWith(env: Env, cfg: Config): Parting {
    (s, t) => PassStrikes(s, t, env, cfg)
  }

  lemma {:induction false} PassesAlike(counter: bool, env: Env, cfg: Config, policy: ToolCall -> Verdict,
                                       outright: ToolCall -> Verdict)
    requires NeverFlagged(env) && Anticipates(outright, policy)
    ensures PassAlike(counter, Pass(env, cfg, policy), Pass(env, cfg, outright), StrikesWith(env, cfg), env,
                      CallWith(env, cfg, outright))
  {
    var v, w, y := AnswerWith(env, cfg, policy), AnswerWith(env, cfg, outright), CallWith(env, cfg, outright);
    AnswersAlike(counter, env, cfg, policy, outright);
    forall s, t | Near(counter, s, t) && s.pending.None? && !PassStrikes(s, t, env, cfg)
      ensures PassTwins(counter, Iterate(s, env, cfg, v), Iterate(t, env, cfg, w), env, y)
    {
      IterateTwins(counter, s, t, env, cfg, v, w, y);
    }
  }
}
