// Approval pauses are invisible: the theorems about whole turns.
module TurnPauseTheorems {
  import opened Tools
  import opened Turn
  import opened TurnGrowth
  import opened TurnPause
  import opened TurnPauseRuns
  import opened TurnPauseTurns
  import opened TurnRetries
  import opened Wrappers

  function RunWith(env: Env, cfg: Config, policy: ToolCall -> Verdict): Starting {
    (fuel: nat) => Run(env, cfg, policy, fuel)
  }

  function ApproveWith(env: Env, cfg: Config, policy: ToolCall -> Verdict): Resuming {
    (s, fuel: nat) => Resume(s, env, cfg, policy, Approved, fuel)
  }

  // `run`, then an approval at each pause.
  function ApprovedRun(env: Env, cfg: Config, policy: ToolCall -> Verdict, fuels: seq<nat>): (Session, Flow)
    requires fuels != []
  {
    Runs(RunWith(env, cfg, policy), ApproveWith(env, cfg, policy), fuels)
  }

  // The turn whose policy is `outright` keeps up with the run, or has parted from it.
  ghost function CaughtBy(counter: bool, env: Env, cfg: Config, outright: ToolCall -> Verdict): Judgement {
    a => Catches(counter, a, Started(cfg), Pass(env, cfg, outright), env, CallWith(env, cfg, outright))
  }

  ghost function ApartFrom(counter: bool, env: Env, cfg: Config, outright: ToolCall -> Verdict): Judgement {
    a => Parted(counter, a, Started(cfg), Pass(env, cfg, outright), StrikesWith(env, cfg))
  }

  // Somewhere in the run so far a retryable error was answered while the retry counters of the two
  // runs differed and one of them could still retry.
  ghost predicate Apart(counter: bool, env: Env, cfg: Config, policy: ToolCall -> Verdict,
                        outright: ToolCall -> Verdict, fuels: seq<nat>)
  {
    Somewhere(RunWith(env, cfg, policy), ApproveWith(env, cfg, policy), fuels, ApartFrom(counter, env, cfg, outright))
  }

  function NoRetries(counter: bool): Session -> bool {
    (s: Session) => counter ==> s.retries == 0
  }

  // No retries were outstanding when the run paused.
  predicate PausedFresh(env: Env, cfg: Config, policy: ToolCall -> Verdict, fuels: seq<nat>) {
    CalmPauses(RunWith(env, cfg, policy), ApproveWith(env, cfg, policy), fuels, NoRetries(true))
  }

  lemma {:induction false} StartCaught(counter: bool, env: Env, cfg: Config, policy: ToolCall -> Verdict,
                                       outright: ToolCall -> Verdict)
    requires NeverFlagged(env) && Anticipates(outright, policy)
    ensures StartsWell(RunWith(env, cfg, policy), CaughtBy(counter, env, cfg, outright),
                       ApartFrom(counter, env, cfg, outright))
  {
    var f, g, y := Pass(env, cfg, policy), Pass(env, cfg, outright), CallWith(env, cfg, outright);
    var start, parts := Started(cfg), StrikesWith(env, cfg);
    PassesAlike(counter, env, cfg, policy, outright);
    forall fuel: nat
      ensures Catches(counter, Loop(start, f, fuel), start, g, env, y)
        || PartsWithin(counter, start, start, f, g, parts, fuel)
    {
      LoopTwins(counter, start, start, f, g, parts, env, y, fuel);
    }
    StartedWell(counter, start, RunWith(env, cfg, policy), f, g, parts, env, y,
                CaughtBy(counter, env, cfg, outright), ApartFrom(counter, env, cfg, outright));
  }

  lemma {:induction false} StartedWell(counter: bool, start: Session, first: Starting, f: Passing, g: Passing,
                                       parts: Parting, env: Env, y: Calling, caught: Judgement, apart: Judgement)
    requires forall fuel: nat :: first(fuel) == Loop(start, f, fuel)
    requires forall a :: caught(a) <==> Catches(counter, a, start, g, env, y)
    requires forall a :: apart(a) <==> Parted(counter, a, start, g, parts)
    requires forall fuel: nat ::
      Catches(counter, Loop(start, f, fuel), start, g, env, y) || PartsWithin(counter, start, start, f, g, parts, fuel)
    ensures StartsWell(first, caught, apart)
  {
    forall fuel: nat
      ensures caught(first(fuel)) || StartsApart(first, fuel, apart)
    {
      if PartsWithin(counter, start, start, f, g, parts, fuel) {
        var m :| 0 <= m < fuel && Parted(counter, Loop(start, f, m), start, g, parts);
        assert apart(first(m));
      }
    }
  }

  // The run waits, the other one being at `b`, just before the pass in which this happened.
  predicate WaitsInStep(counter: bool, s: Session, flow: Flow, b: (Session, Flow), g: Passing, env: Env, y: Calling) {
    Waits(flow) && (counter ==> s.retries == 0) && AsFar(counter, (s, flow), b, g, env, y)
  }

  lemma {:induction false} ResumeCaught(counter: bool, env: Env, cfg: Config, policy: ToolCall -> Verdict,
                                        outright: ToolCall -> Verdict)
    requires NeverFlagged(env) && Anticipates(outright, policy)
    ensures ResumesWell(ApproveWith(env, cfg, policy), NoRetries(counter), CaughtBy(counter, env, cfg, outright),
                        ApartFrom(counter, env, cfg, outright))
  {
    var f, g, y := Pass(env, cfg, policy), Pass(env, cfg, outright), CallWith(env, cfg, outright);
    var start, parts := Started(cfg), StrikesWith(env, cfg);
    PassesAlike(counter, env, cfg, policy, outright);
    CallsAlike(env, cfg, policy, outright);
    forall s, flow, n: nat | WaitsInStep(counter, s, flow, Loop(start, g, n), g, env, y)
      ensures PassTwins(counter, ResumeStep(s, env, cfg, policy, Approved), g(Loop(start, g, n).0), env, y)
    {
      ResumedOn(s, g(Loop(start, g, n).0), env, cfg, policy, y);
    }
    ResumedWell(counter, start, Approval(env, cfg, policy), ApproveWith(env, cfg, policy), f, g, parts, env, y,
                NoRetries(counter), CaughtBy(counter, env, cfg, outright), ApartFrom(counter, env, cfg, outright));
  }

  lemma {:induction false} ResumedWell(counter: bool, start: Session, approve: Passing, resume: Resuming, f: Passing,
                                       g: Passing, parts: Parting, env: Env, y: Calling, calm: Session -> bool,
                                       caught: Judgement, apart: Judgement)
    requires PassAlike(counter, f, g, parts, env, y)
    requires forall s, fuel: nat :: resume(s, fuel) == Continued(approve(s), f, fuel)
    requires forall s :: calm(s) <==> (counter ==> s.retries == 0)
    requires forall a :: caught(a) <==> Catches(counter, a, start, g, env, y)
    requires forall a :: apart(a) <==> Parted(counter, a, start, g, parts)
    requires forall s, flow, n: nat :: WaitsInStep(counter, s, flow, Loop(start, g, n), g, env, y) ==>
      PassTwins(counter, approve(s), g(Loop(start, g, n).0), env, y)
    ensures ResumesWell(resume, calm, caught, apart)
  {
    forall s, flow, fuel: nat | Waits(flow) && calm(s) && caught((s, flow))
      ensures caught(resume(s, fuel)) || ResumesApart(resume, s, fuel, apart)
    {
      var a := approve(s);
      var n := WhereCaught(counter, s, flow, start, g, env, y);
      ContinuedCatches(counter, a, start, n, f, g, parts, env, y, fuel);
      if !Catches(counter, Continued(a, f, fuel), start, g, env, y) {
        var m := WhereParted(counter, a, f, start, g, parts, fuel);
        assert apart(resume(s, m));
      }
    }
  }

  ghost function WhereCaught(counter: bool, s: Session, flow: Flow, start: Session, g: Passing, env: Env,
                             y: Calling): (n: nat)
    requires Waits(flow) && (counter ==> s.retries == 0) && Catches(counter, (s, flow), start, g, env, y)
    ensures WaitsInStep(counter, s, flow, Loop(start, g, n), g, env, y)
  {
    var n: nat :| AsFar(counter, (s, flow), Loop(start, g, n), g, env, y);
    n
  }

  ghost function WhereParted(counter: bool, a: (Session, Flow), f: Passing, start: Session, g: Passing, parts: Parting,
                             fuel: nat): (m: nat)
    requires PartsOn(counter, a, f, start, g, parts, fuel)
    ensures m < fuel && Parted(counter, Continued(a, f, m), start, g, parts)
  {
    var m: nat :| m < fuel && Parted(counter, Continued(a, f, m), start, g, parts);
    m
  }

  // However often a run pauses and is approved, it is in step with one run that never pauses: in all
  // but the retry counter, unless a retryable error was answered while the counters differed; and in
  // the counter too, if no retries were outstanding at any pause.
  lemma {:induction false} PausesAreInvisible(counter: bool, env: Env, cfg: Config, policy: ToolCall -> Verdict,
                                              outright: ToolCall -> Verdict, fuels: seq<nat>)
    requires NeverFlagged(env) && Anticipates(outright, policy)
    requires fuels != [] && (counter ==> PausedFresh(env, cfg, policy, fuels))
    ensures CaughtBy(counter, env, cfg, outright)(ApprovedRun(env, cfg, policy, fuels))
      || Apart(counter, env, cfg, policy, outright, fuels)
  {
    StartCaught(counter, env, cfg, policy, outright);
    ResumeCaught(counter, env, cfg, policy, outright);
    AllCalm(counter, env, cfg, policy, fuels);
    RunsCaught(RunWith(env, cfg, policy), ApproveWith(env, cfg, policy), fuels, NoRetries(counter),
               CaughtBy(counter, env, cfg, outright), ApartFrom(counter, env, cfg, outright));
  }

  lemma {:induction false} AllCalm(counter: bool, env: Env, cfg: Config, policy: ToolCall -> Verdict, fuels: seq<nat>)
    requires counter ==> PausedFresh(env, cfg, policy, fuels)
    ensures CalmPauses(RunWith(env, cfg, policy), ApproveWith(env, cfg, policy), fuels, NoRetries(counter))
  {
  }

  // ---------- The exact condition ----------

  // Where the counter matters: having spent its retries before the pause, the paused run gives up at
  // the next retryable error, which the other run retries.
  lemma {:induction false} PauseCostsRetries(paused: Session, other: Session, env: Env, cfg: Config, message: string)
    requires NeverFlagged(env) && Like(paused, other) && paused.retries == MaxAttempts(cfg) && other.retries == 0
    ensures var (s, flow) := StepError(paused, env, cfg, message, false, true);
      flow == Halt(TurnOver(Outcome(TurnFailed, paused.steps, Some(ProviderError(message, false)), false)))
    ensures StepError(other, env, cfg, message, false, true).1 == Again
  {
  }

  lemma {:induction false} RetryDiverges(s: Session, t: Session, env: Env, cfg: Config, message: string, overflow: bool)
    requires Like(s, t) && AttemptsApart(s, t, cfg) && NeverFlagged(env)
    ensures Diverged(RetryStep(s, env, cfg, message, overflow).0, RetryStep(t, env, cfg, message, overflow).0)
  {
    var a, b := RetryStep(s, env, cfg, message, overflow).0, RetryStep(t, env, cfg, message, overflow).0;
    var i := |s.events|;
    assert a.events[i] != b.events[i];
  }

  // A retryable error that is not recovered from goes to the retry branch.
  lemma {:induction false} ErrorRetries(s: Session, env: Env, cfg: Config, message: string, overflow: bool)
    requires NeverFlagged(env) && !Recovers(s, env, cfg, overflow)
    ensures StepError(s, env, cfg, message, overflow, true)
      == RetryStep(AfterRecovery(s, env, cfg, overflow), env, cfg, message, overflow)
  {
  }

  lemma {:induction false} ErrorDiverges(s: Session, t: Session, env: Env, cfg: Config, message: string, overflow: bool)
    requires Like(s, t) && AttemptsApart(s, t, cfg) && NeverFlagged(env) && !Recovers(s, env, cfg, overflow)
    ensures Diverged(StepError(s, env, cfg, message, overflow, true).0,
                     StepError(t, env, cfg, message, overflow, true).0)
  {
    CompactNear(false, AskFlag(s), AskFlag(t), env);
    ErrorRetries(s, env, cfg, message, overflow);
    ErrorRetries(t, env, cfg, message, overflow);
    RetryDiverges(AfterRecovery(s, env, cfg, overflow), AfterRecovery(t, env, cfg, overflow), env, cfg, message,
                  overflow);
  }

  // Where the counters matter the event streams part.
  lemma {:induction false} StrikeDiverges(s: Session, t: Session, env: Env, cfg: Config, policy: ToolCall -> Verdict,
                                          outright: ToolCall -> Verdict)
    requires Like(s, t) && PassStrikes(s, t, env, cfg) && NeverFlagged(env)
    ensures Diverged(Pass(env, cfg, policy)(s).0, Pass(env, cfg, outright)(t).0)
  {
    OpeningNear(false, s, t, env, cfg);
    PassIsAnswer(s, env, cfg, AnswerWith(env, cfg, policy));
    PassIsAnswer(t, env, cfg, AnswerWith(env, cfg, outright));
    var answer := ModelAnswer(s, env, cfg);
    ErrorDiverges(Heard(StepBegun(s, env, cfg)), Heard(StepBegun(t, env, cfg)), env, cfg, answer.message,
                  answer.overflow);
  }

  lemma {:induction false} ApprovalsGrow(env: Env, cfg: Config, policy: ToolCall -> Verdict)
    ensures ResumesGrow(ApproveWith(env, cfg, policy))
  {
    forall s, fuel: nat
      ensures Grows(s, Resume(s, env, cfg, policy, Approved, fuel).0)
    {
      ResumeGrows(s, env, cfg, policy, Approved, fuel);
    }
  }

  lemma {:induction false} ApartForGood(env: Env, cfg: Config, policy: ToolCall -> Verdict,
                                        outright: ToolCall -> Verdict,
                                        fuels: seq<nat>, k: nat, m: nat, n: nat, j: nat)
    requires k < |fuels| && m < fuels[k] && !ApprovedRun(env, cfg, policy, fuels).1.Again?
    requires var a := ApprovedRun(env, cfg, policy, fuels[..k] + [m]);
      var b := Loop(Started(cfg), Pass(env, cfg, outright), n);
      && a.1.Again? && b.1.Again?
      && Diverged(Pass(env, cfg, policy)(a.0).0, Pass(env, cfg, outright)(b.0).0)
    ensures !LikeFlow(ApprovedRun(env, cfg, policy, fuels), Loop(Started(cfg), Pass(env, cfg, outright), j))
  {
    EveryPassGrows(env, cfg, policy);
    EveryPassGrows(env, cfg, outright);
    ApprovalsGrow(env, cfg, policy);
    NeverAlike(Started(cfg), RunWith(env, cfg, policy), Approval(env, cfg, policy), ApproveWith(env, cfg, policy),
               Pass(env, cfg, policy), Pass(env, cfg, outright), fuels, k, m, n, j);
  }

  // Some turn without pauses ends like this one: with the same outcome, history, events, steps and
  // dedupe state.
  ghost predicate EndsLikeOutright(env: Env, cfg: Config, policy: ToolCall -> Verdict, outright: ToolCall -> Verdict,
                                   fuels: seq<nat>)
    requires fuels != []
  {
    exists n :: LikeFlow(ApprovedRun(env, cfg, policy, fuels), Loop(Started(cfg), Pass(env, cfg, outright), n))
  }

  // Somewhere in the paused run a retryable error meets a count left over from a pause.
  ghost predicate GoesStale(env: Env, cfg: Config, policy: ToolCall -> Verdict, fuels: seq<nat>) {
    Somewhere(RunWith(env, cfg, policy), ApproveWith(env, cfg, policy), fuels, StaleIn(env, cfg))
  }

  ghost function StaleIn(env: Env, cfg: Config): Judgement {
    (a: (Session, Flow)) => a.1.Again? && Stale(a.0, env, cfg)
  }

  lemma {:induction false} ApartGoesStale(env: Env, cfg: Config, outright: ToolCall -> Verdict, a: (Session, Flow))
    requires NeverFlagged(env) && ApartFrom(false, env, cfg, outright)(a)
    ensures StaleIn(env, cfg)(a)
  {
    var g := Pass(env, cfg, outright);
    var n: nat :| PartsAt(false, a, Loop(Started(cfg), g, n), StrikesWith(env, cfg));
    RunCounted(env, cfg, outright, n);
    StrikesIfStale(a.0, Loop(Started(cfg), g, n).0, env, cfg);
  }

  lemma {:induction false} StaleCaught(env: Env, cfg: Config, outright: ToolCall -> Verdict, a: (Session, Flow))
    requires NeverFlagged(env) && StaleIn(env, cfg)(a) && CaughtBy(false, env, cfg, outright)(a)
    ensures ApartFrom(false, env, cfg, outright)(a)
  {
    var g, y := Pass(env, cfg, outright), CallWith(env, cfg, outright);
    var n: nat :| AsFar(false, a, Loop(Started(cfg), g, n), g, env, y);
    RunCounted(env, cfg, outright, n);
    StrikesIfStale(a.0, Loop(Started(cfg), g, n).0, env, cfg);
    assert PartsAt(false, a, Loop(Started(cfg), g, n), StrikesWith(env, cfg));
  }

  // That a run parts from the outright one can be told from the run itself.
  lemma {:induction false} ApartIffStale(env: Env, cfg: Config, policy: ToolCall -> Verdict,
                                         outright: ToolCall -> Verdict, fuels: seq<nat>)
    requires NeverFlagged(env) && Anticipates(outright, policy)
    ensures Apart(false, env, cfg, policy, outright, fuels) <==> GoesStale(env, cfg, policy, fuels)
  {
    var first, resume := RunWith(env, cfg, policy), ApproveWith(env, cfg, policy);
    var apart, stale := ApartFrom(false, env, cfg, outright), StaleIn(env, cfg);
    if Apart(false, env, cfg, policy, outright, fuels) {
      forall a | apart(a)
        ensures stale(a)
      {
        ApartGoesStale(env, cfg, outright, a);
      }
    }
    if GoesStale(env, cfg, policy, fuels) {
      var k, m :| 0 <= k < |fuels| && 0 <= m < fuels[k] && stale(Runs(first, resume, fuels[..k] + [m]));
      StalePart(env, cfg, policy, outright, fuels, k, m);
    }
  }

  lemma {:induction false} StalePart(env: Env, cfg: Config, policy: ToolCall -> Verdict, outright: ToolCall -> Verdict,
                                     fuels: seq<nat>, k: nat, m: nat)
    requires NeverFlagged(env) && Anticipates(outright, policy) && k < |fuels| && m < fuels[k]
    requires StaleIn(env, cfg)(ApprovedRun(env, cfg, policy, fuels[..k] + [m]))
    ensures Apart(false, env, cfg, policy, outright, fuels)
  {
    var part := fuels[..k] + [m];
    PausesAreInvisible(false, env, cfg, policy, outright, part);
    if Apart(false, env, cfg, policy, outright, part) {
      SomewhereEarlier(RunWith(env, cfg, policy), ApproveWith(env, cfg, policy), fuels, k, m,
                       ApartFrom(false, env, cfg, outright));
    } else {
      StaleCaught(env, cfg, outright, ApprovedRun(env, cfg, policy, part));
    }
  }

  // Exactly then is a turn with approved pauses, once it is over, like one that never paused: if no
  // retryable error met a count left over from a pause.
  lemma {:induction false} ApprovedTurnIsLikeIff(env: Env, cfg: Config, policy: ToolCall -> Verdict,
                                                 outright: ToolCall -> Verdict, fuels: seq<nat>)
    requires NeverFlagged(env) && Anticipates(outright, policy) && fuels != []
    requires var flow := ApprovedRun(env, cfg, policy, fuels).1; flow.Halt? && flow.progress.TurnOver?
    ensures EndsLikeOutright(env, cfg, policy, outright, fuels) <==> !GoesStale(env, cfg, policy, fuels)
  {
    ApartIffStale(env, cfg, policy, outright, fuels);
    if Apart(false, env, cfg, policy, outright, fuels) {
      ApartNotLike(env, cfg, policy, outright, fuels);
    } else {
      PausesAreInvisible(false, env, cfg, policy, outright, fuels);
      CaughtEndsLike(false, env, cfg, outright, ApprovedRun(env, cfg, policy, fuels));
    }
  }

  // A point at which the run parts from the other, with their event streams parting in the next pass.
  ghost predicate PartsVisibly(env: Env, cfg: Config, policy: ToolCall -> Verdict, outright: ToolCall -> Verdict,
                               a: (Session, Flow), n: nat)
  {
    var b := Loop(Started(cfg), Pass(env, cfg, outright), n);
    && a.1.Again? && b.1.Again?
    && Diverged(Pass(env, cfg, policy)(a.0).0, Pass(env, cfg, outright)(b.0).0)
  }

  lemma {:induction false} ApartIsVisible(env: Env, cfg: Config, policy: ToolCall -> Verdict,
                                          outright: ToolCall -> Verdict, a: (Session, Flow))
    requires NeverFlagged(env) && ApartFrom(false, env, cfg, outright)(a)
    ensures exists n :: PartsVisibly(env, cfg, policy, outright, a, n)
  {
    var g := Pass(env, cfg, outright);
    var n: nat :| PartsAt(false, a, Loop(Started(cfg), g, n), StrikesWith(env, cfg));
    StrikeDiverges(a.0, Loop(Started(cfg), g, n).0, env, cfg, policy, outright);
    assert PartsVisibly(env, cfg, policy, outright, a, n);
  }

  lemma {:induction false} ApartNotLike(env: Env, cfg: Config, policy: ToolCall -> Verdict,
                                        outright: ToolCall -> Verdict, fuels: seq<nat>)
    requires NeverFlagged(env) && fuels != [] && !ApprovedRun(env, cfg, policy, fuels).1.Again?
    requires Apart(false, env, cfg, policy, outright, fuels)
    ensures !EndsLikeOutright(env, cfg, policy, outright, fuels)
  {
    var at := ApartFrom(false, env, cfg, outright);
    var k, m :| 0 <= k < |fuels| && 0 <= m < fuels[k]
      && at(Runs(RunWith(env, cfg, policy), ApproveWith(env, cfg, policy), fuels[..k] + [m]));
    var a := ApprovedRun(env, cfg, policy, fuels[..k] + [m]);
    ApartIsVisible(env, cfg, policy, outright, a);
    var n: nat :| PartsVisibly(env, cfg, policy, outright, a, n);
    forall j: nat
      ensures !LikeFlow(ApprovedRun(env, cfg, policy, fuels), Loop(Started(cfg), Pass(env, cfg, outright), j))
    {
      ApartForGood(env, cfg, policy, outright, fuels, k, m, n, j);
    }
  }

  lemma {:induction false} CaughtEndsLike(counter: bool, env: Env, cfg: Config, outright: ToolCall -> Verdict,
                                          a: (Session, Flow))
    requires CaughtBy(counter, env, cfg, outright)(a) && !Waits(a.1)
    ensures exists n :: NearFlow(counter, a, Loop(Started(cfg), Pass(env, cfg, outright), n))
  {
    var g, y := Pass(env, cfg, outright), CallWith(env, cfg, outright);
    var n :| AsFar(counter, a, Loop(Started(cfg), g, n), g, env, y);
    assert NearFlow(counter, a, Loop(Started(cfg), g, n));
  }

  // Counters that agree never matter.
  lemma {:induction false} NeverApart(env: Env, cfg: Config, policy: ToolCall -> Verdict, outright: ToolCall -> Verdict,
                                      fuels: seq<nat>)
    ensures !Apart(true, env, cfg, policy, outright, fuels)
  {
    forall a: (Session, Flow)
      ensures !ApartFrom(true, env, cfg, outright)(a)
    {
      forall b: (Session, Flow)
        ensures !PartsAt(true, a, b, StrikesWith(env, cfg))
      {
        if Near(true, a.0, b.0) { CountersStayEqual(a.0, b.0, env, cfg); }
      }
    }
  }

  lemma {:induction false} CountersStayEqual(s: Session, t: Session, env: Env, cfg: Config)
    requires Near(true, s, t)
    ensures !PassStrikes(s, t, env, cfg)
  {
    OpeningNear(true, s, t, env, cfg);
  }

  // If no retries were outstanding at any pause, the turn ends as one that never paused, the retry
  // counter included.
  lemma {:induction false} ApprovedTurnIsSame(env: Env, cfg: Config, policy: ToolCall -> Verdict,
                                              outright: ToolCall -> Verdict, fuels: seq<nat>)
    requires NeverFlagged(env) && Anticipates(outright, policy)
    requires fuels != [] && PausedFresh(env, cfg, policy, fuels)
    requires var flow := ApprovedRun(env, cfg, policy, fuels).1; flow.Halt? && flow.progress.TurnOver?
    ensures exists n :: SameFlow(ApprovedRun(env, cfg, policy, fuels), Loop(Started(cfg), Pass(env, cfg, outright), n))
  {
    var a, g := ApprovedRun(env, cfg, policy, fuels), Pass(env, cfg, outright);
    PausesAreInvisible(true, env, cfg, policy, outright, fuels);
    NeverApart(env, cfg, policy, outright, fuels);
    CaughtEndsLike(true, env, cfg, outright, a);
    var n: nat :| NearFlow(true, a, Loop(Started(cfg), g, n));
    assert SameFlow(a, Loop(Started(cfg), g, n));
  }

  // A model that never answers with a retryable error gives the counters no occasion to matter.
  lemma {:induction false} CalmModelNeverParts(counter: bool, env: Env, cfg: Config, policy: ToolCall -> Verdict,
                                               outright: ToolCall -> Verdict, fuels: seq<nat>)
    requires forall n, h :: env.llm(n, h).LlmError? ==> !env.llm(n, h).retryable
    ensures !Apart(counter, env, cfg, policy, outright, fuels) && !GoesStale(env, cfg, policy, fuels)
  {
    forall a: (Session, Flow), b: (Session, Flow)
      ensures !PartsAt(counter, a, b, StrikesWith(env, cfg))
    {
    }
    forall a: (Session, Flow)
      ensures !StaleIn(env, cfg)(a)
    {
    }
  }
}
