// The retry counter of a run that never pauses can be read off its events: it counts the retries since
// the last completed step. After an approved pause it may be more, a count left over.
module TurnRetries {
  import opened Tools
  import opened Turn
  import opened TurnPause
  import opened TurnPauseRuns

  // The retries announced since the last completed step.
  function Retried(events: seq<Event>): nat {
    if events == [] then 0
    else
      var before := Retried(events[..|events| - 1]);
      match events[|events| - 1]
      case StepCompleted(_, _, _) => 0
      case StepRetrying(_, _, _) => before + 1
      case _ => before
  }

  predicate Counted(s: Session) {
    s.retries == Retried(s.events)
  }

  lemma {:induction false} RetriedOne(events: seq<Event>, e: Event)
    ensures Retried(events + [e]) ==
      if e.StepCompleted? then 0 else Retried(events) + if e.StepRetrying? then 1 else 0
  {
    assert (events + [e])[..|events|] == events;
  }

  lemma {:induction false} CompactCounted(s: Session, env: Env)
    requires Counted(s)
    ensures Counted(Compact(s, env).0)
  {
    var s' := Compact(s, env).0;
    if s'.events != s.events { RetriedOne(s.events, s'.events[|s.events|]); }
  }

  lemma {:induction false} BegunCounted(s: Session, env: Env, cfg: Config)
    requires Counted(s)
    ensures Counted(StepBegun(s, env, cfg))
  {
    var s1 := DrainSteers(AskFlag(s), env);
    CompactCounted(s1, env);
    var s2 := MaybeCompact(s1, env, cfg);
    RetriedOne(s2.events, StepStarted(s2.steps + 1));
  }

  lemma {:induction false} RetryCounted(s: Session, env: Env, cfg: Config, message: string, overflow: bool)
    requires Counted(s) && RetryStep(s, env, cfg, message, overflow).1.Again?
    ensures Counted(RetryStep(s, env, cfg, message, overflow).0)
  {
    RetryAnnounced(s, env, cfg, message, overflow);
    RetriedOne(s.events, StepRetrying(s.steps, s.retries + 1, MaxAttempts(cfg)));
  }

  lemma {:induction false} RetryAnnounced(s: Session, env: Env, cfg: Config, message: string, overflow: bool)
    requires RetryStep(s, env, cfg, message, overflow).1.Again?
    ensures var s' := RetryStep(s, env, cfg, message, overflow).0;
      && s'.retries == s.retries + 1
      && s'.events == s.events + [StepRetrying(s.steps, s.retries + 1, MaxAttempts(cfg))]
  {
  }

  lemma {:induction false} ErrorCounted(s: Session, env: Env, cfg: Config, message: string, overflow: bool,
                                        retryable: bool)
    requires Counted(s) && StepError(s, env, cfg, message, overflow, retryable).1.Again?
    ensures Counted(StepError(s, env, cfg, message, overflow, retryable).0)
  {
    var s0 := AskFlag(s);
    CompactCounted(s0, env);
    var (s1, compacted) := if overflow && cfg.maxContext.Some? then Compact(s0, env) else (s0, false);
    if !compacted && retryable { RetryCounted(s1, env, cfg, message, overflow); }
  }

  lemma {:induction false} CompletedCounted(s: Session, step: nat, usage: Usage, finish: FinishReason)
    requires s.retries == 0
    ensures Counted(CompleteStep(s, step, usage, finish))
  {
    RetriedOne(s.events, StepCompleted(step, usage, finish));
  }

  lemma {:induction false} TextCounted(s: Session, env: Env, cfg: Config, finish: FinishReason, usage: Usage)
    requires StepText(s, env, cfg, finish, usage).1.Again?
    ensures Counted(StepText(s, env, cfg, finish, usage).0)
  {
    var s0 := s.(retries := 0);
    if Reviews(cfg, s, finish) {
      CompletedCounted(s0, s.steps, usage, finish);
      RetriedOne(CompleteStep(s0, s.steps, usage, finish).events, ReviewInjected(cfg.review.value.reminder));
    } else {
      CompletedCounted(LookAtSteers(s0, env), s.steps, usage, finish);
    }
  }

  lemma {:induction false} ToolsCounted(s: Session, env: Env, cfg: Config, policy: ToolCall -> Verdict,
                                        calls: seq<ToolCall>, text: string, usage: Usage)
    requires StepTools(s, env, cfg, policy, calls, text, usage).1.Again?
    ensures Counted(StepTools(s, env, cfg, policy, calls, text, usage).0)
  {
    var s0 := s.(messages := s.messages + [Asking(calls, text)]);
    var s1 := BatchFrom(s0, CallWith(env, cfg, policy), calls, 0, s.steps, usage).0;
    CompletedCounted(s1.(retries := 0), s.steps, usage, ToolCalls);
  }

  lemma {:induction false} AnswerCounted(s: Session, env: Env, cfg: Config, policy: ToolCall -> Verdict,
                                         answer: LlmReply)
    requires Counted(s) && StepAnswer(s, env, cfg, policy, answer).1.Again?
    ensures Counted(StepAnswer(s, env, cfg, policy, answer).0)
  {
    match answer
    case LlmError(message, overflow, retryable) => ErrorCounted(s, env, cfg, message, overflow, retryable);
    case Reply(deltas, text, calls, finish, usage) =>
      var s1 := s.(events := s.events + Deltas(deltas));
      if calls == [] {
        TextCounted(s1, env, cfg, finish, usage);
      } else {
        ToolsCounted(s1, env, cfg, policy, calls, text, usage);
      }
  }

  lemma {:induction false} PassCounted(s: Session, env: Env, cfg: Config, policy: ToolCall -> Verdict)
    requires NeverFlagged(env) && Counted(s) && Pass(env, cfg, policy)(s).1.Again?
    ensures Counted(Pass(env, cfg, policy)(s).0)
  {
    var v := AnswerWith(env, cfg, policy);
    BegunCounted(s, env, cfg);
    if Asked(s, env, cfg) {
      PassIsAnswer(s, env, cfg, v);
      AnswerCounted(Heard(StepBegun(s, env, cfg)), env, cfg, policy, ModelAnswer(s, env, cfg));
    } else if !(cfg.maxSteps.Some? && cfg.maxSteps.value > 0 && s.steps >= cfg.maxSteps.value) {
      PassIsAborted(s, env, cfg, v);
    }
  }

  lemma {:induction false} LoopCounted(s: Session, pass: Passing, n: nat)
    requires forall t :: Counted(t) && pass(t).1.Again? ==> Counted(pass(t).0)
    requires Counted(s) && Loop(s, pass, n).1.Again?
    ensures Counted(Loop(s, pass, n).0)
    decreases n
  {
    if n > 0 { LoopCounted(pass(s).0, pass, n - 1); }
  }

  // As long as a run has not paused, its counter counts the retries since the last completed step.
  lemma {:induction false} RunCounted(env: Env, cfg: Config, policy: ToolCall -> Verdict, n: nat)
    requires NeverFlagged(env) && Run(env, cfg, policy, n).1.Again?
    ensures Counted(Run(env, cfg, policy, n).0)
  {
    RetriedOne([], TurnStarted);
    assert [] + [TurnStarted] == [TurnStarted];
    forall t | Counted(t) && Pass(env, cfg, policy)(t).1.Again?
      ensures Counted(Pass(env, cfg, policy)(t).0)
    {
      PassCounted(t, env, cfg, policy);
    }
    LoopCounted(Started(cfg), Pass(env, cfg, policy), n);
  }

  // The next pass is answered by a retryable error that no compaction recovers from, while the counter
  // is not what the retries since the last completed step make it, and at least one of the two counts
  // leaves a retry.
  predicate Stale(s: Session, env: Env, cfg: Config) {
    && Asked(s, env, cfg)
    && var answer, count := ModelAnswer(s, env, cfg), Retried(s.events);
       && answer.LlmError? && answer.retryable && !Recovers(Heard(StepBegun(s, env, cfg)), env, cfg, answer.overflow)
       && s.retries != count && (s.retries < MaxAttempts(cfg) || count < MaxAttempts(cfg))
  }

  // So it is where the run parts from one like it whose counter does count them.
  lemma {:induction false} StrikesIfStale(s: Session, t: Session, env: Env, cfg: Config)
    requires Like(s, t) && Counted(t)
    ensures PassStrikes(s, t, env, cfg) <==> Stale(s, env, cfg)
  {
    OpeningNear(false, s, t, env, cfg);
  }
}
