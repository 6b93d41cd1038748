// What holds at every moment of every run of a turn, whatever the model, the tools, the user and
// the cancel signal do.
module TurnRuns {
  import opened Wrappers
  import opened Messages
  import opened Tools
  import opened Exchange
  import opened ExchangeTheorems
  import opened Context
  import opened Turn
  import opened TurnHistory
  import opened TurnProtocol
  import opened TurnBooks

  // ---------- The invariants ----------

  // The model never repeats a call id inside one batch.
  ghost predicate DistinctBatches(env: Env) {
    forall n, h :: env.llm(n, h).Reply? ==> Distinct(CallIds(env.llm(n, h).calls))
  }

  // How much is claimed of a run: of any run, what concerns its counters and the books of its calls;
  // if executors answer the call they are given, also the order of its events; if moreover all calls
  // of the turn's input have their results, also its history; and if ids are distinct within each
  // message, that the repair has nothing to do.
  datatype Care = Counts | Order | Kept | Exact

  predicate Ordered(care: Care) {
    !care.Counts?
  }

  predicate Keeping(care: Care) {
    care.Kept? || care.Exact?
  }

  // What is asked of the environment and of the turn's input.
  ghost predicate Warrants(env: Env, cfg: Config, care: Care) {
    && (Ordered(care) ==> AnswersItsCall(env))
    && (care.Exact? ==> DistinctBatches(env))
    && Hist(cfg.input, care)
  }

  ghost predicate Hist(ms: seq<Message>, care: Care) {
    (Keeping(care) ==> Answered(ms)) && (care.Exact? ==> DistinctCalls(ms))
  }

  ghost predicate InPhase(s: Session, phase: Phase, care: Care) {
    Ordered(care) ==> Watched(s).phase == phase
  }

  // Every request sent so far was repaired, and that closed it; with distinct ids the repair had
  // nothing to do for it.
  ghost predicate RequestsMade(s: Session, care: Care) {
    forall k :: 0 <= k < |s.requests| ==> RequestMade(s.requests[k], care)
  }

  ghost predicate RequestMade(request: Request, care: Care) {
    && request.sent == Repair(request.assembled)
    && (Keeping(care) ==> Closed(request.sent))
    && (care.Exact? ==> request.sent == request.assembled)
  }

  predicate Bounded(cfg: Config) {
    cfg.maxSteps.Some? && cfg.maxSteps.value > 0
  }

  predicate UsersOnly(ms: seq<Message>) {
    forall k :: 0 <= k < |ms| ==> ms[k].role.User?
  }

  // At most `cost` model calls were made, and no more steps than allowed.
  ghost predicate Common(s: Session, cfg: Config, care: Care, cost: nat) {
    && RequestsMade(s, care)
    && s.clock.llm <= cost
    && (Bounded(cfg) ==> s.steps <= cfg.maxSteps.value)
    && UsersOnly(s.steerQueue)
  }

  ghost predicate Orderly(s: Session) {
    && s.pending.None? && !s.finished
    && IdleBooks(s) && Limited(s.trail, |s.trail|)
  }

  // Between two steps.
  ghost predicate Idle(s: Session, cfg: Config, care: Care, cost: nat) {
    && Common(s, cfg, care, cost) && Orderly(s)
    && Hist(s.messages, care)
    && InPhase(s, Between(s.steps), care)
  }

  // In a step, before any of its calls.
  ghost predicate Stepping(s: Session, cfg: Config, care: Care, cost: nat) {
    && Common(s, cfg, care, cost) && Orderly(s)
    && Hist(s.messages, care)
    && InPhase(s, InStep(s.steps), care)
    && s.dedupe.stepCalls == [] && D.Settled(s.dedupe)
  }

  // The history ends in a batch of which the first `n` calls have their results.
  ghost predicate OpenBatch(ms: seq<Message>, calls: seq<ToolCall>, n: nat, care: Care) {
    && n <= |calls| && n < |ms|
    && (Keeping(care) ==> exists before, asking, results :: OpenParts(ms, before, asking, results, calls, n, care))
  }

  ghost predicate OpenParts(ms: seq<Message>, before: seq<Message>, asking: Message, results: seq<Message>,
                            calls: seq<ToolCall>, n: nat, care: Care)
  {
    && ms == before + [asking] + results
    && Hist(before, care)
    && asking.role.Assistant? && DeclaredIds(asking) == CallIds(calls)
    && (care.Exact? ==> Distinct(CallIds(calls)))
    && n <= |calls| && ResultsOf(results, CallIds(calls)[..n])
  }

  // Waiting for the user's decision on one call of the step's batch.
  ghost predicate Paused(s: Session, cfg: Config, care: Care) {
    && Common(s, cfg, care, 9 * s.steps)
    && s.pending.Some? && !s.finished
    && InPhase(s, InStep(s.steps), care)
    && var p := s.pending.value;
       && p.index < |p.batch| && p.call == p.batch[p.index] && p.step == s.steps
       && OpenBatch(s.messages, p.batch, p.index, care) && Awaiting(s, p.batch, p.index)
  }

  // The books with call `i` of the batch checked, and those before it recorded.
  ghost predicate Awaiting(s: Session, calls: seq<ToolCall>, i: nat) {
    && i < |calls| && i <= |s.messages| && Recorded(s, |s.messages| - i, calls, i)
    && Books(s) && D.Running(s.dedupe, calls[i]) && s.trail != [] && Limited(s.trail, |s.trail|)
  }

  // The turn has ended.
  ghost predicate Over(s: Session, cfg: Config, care: Care) {
    && Common(s, cfg, care, 9 * s.steps)
    && s.finished && s.pending.None?
    && (Ordered(care) ==> Watched(s).phase.TurnDone?)
    && Limited(s.trail, |s.trail| - 1)
  }

  ghost predicate Sound(s: Session, flow: Flow, cfg: Config, care: Care) {
    match flow
    case Again => Idle(s, cfg, care, 9 * s.steps)
    case Halt(NeedsApproval(call)) => Paused(s, cfg, care) && s.pending.value.call == call
    case Halt(TurnOver(outcome)) => Over(s, cfg, care) && outcome.steps == s.steps
  }

  // ---------- Ending the turn ----------

  lemma {:induction false} FinishSound(s: Session, cfg: Config, care: Care, reason: EndReason,
                                       failure: Option<Failure>, truncated: bool)
    requires Common(s, cfg, care, 9 * s.steps) && s.pending.None? && Limited(s.trail, |s.trail| - 1)
    requires Ordered(care) ==>
      Watched(s).phase.Between? || Watched(s).phase.InStep? || Watched(s).phase.Interrupted?
    ensures var (s', progress) := Finish(s, reason, failure, truncated); Sound(s', Halt(progress), cfg, care)
  {
    if Ordered(care) { FinishWatched(s, reason, failure, truncated); }
  }

  // ---------- Compaction and steering ----------

  lemma {:induction false} SummarizeCost(env: Env, n: nat, history: seq<Message>, attempts: nat)
    ensures Summarize(env, n, history, attempts).0 <= n + attempts
    decreases attempts
  {
    if attempts > 0 && |history| > 1 {
      SummarizeCost(env, n + 1, history[1..], attempts - 1);
    }
  }

  predicate NoExchanges(ms: seq<Message>) {
    forall m :: m in ms ==> !m.role.Assistant? && !m.role.Tool?
  }

  // A compaction costs at most four model calls and leaves a history without exchanges.
  lemma {:induction false} CompactKeeps(s: Session, env: Env, care: Care)
    requires Hist(s.messages, care)
    ensures var (s', compacted) := Compact(s, env);
      && Hist(s'.messages, care)
      && s'.clock.llm <= s.clock.llm + 4
      && s'.steps == s.steps && s'.requests == s.requests && s'.steerQueue == s.steerQueue
      && s'.pending == s.pending && s'.finished == s.finished
      && s'.dedupe == s.dedupe && s'.trail == s.trail && s'.ended == s.ended
      && (!compacted ==> s'.events == s.events && s'.messages == s.messages)
      && (compacted ==> exists e: Event :: e.ContextCompacted? && s'.events == s.events + [e])
      && (compacted ==> NoExchanges(s'.messages))
  {
    SummarizeCost(env, s.clock.llm, Repair(s.messages), COMPACTION_MAX_SHRINK_ATTEMPTS + 1);
    CompactEmits(s, env);
    CompactPlain(s, env, care);
  }

  lemma {:induction false} CompactPlain(s: Session, env: Env, care: Care)
    requires Hist(s.messages, care)
    ensures var (s', compacted) := Compact(s, env);
      && Hist(s'.messages, care)
      && (!compacted ==> s'.messages == s.messages)
      && (compacted ==> NoExchanges(s'.messages))
  {
    var (n, summary) := Summarize(env, s.clock.llm, Repair(s.messages), COMPACTION_MAX_SHRINK_ATTEMPTS + 1);
    if summary.Some? {
      CompactedIsPlain(s.messages, summary.value, env.estimate);
    }
  }

  lemma {:induction false} CompactWatched(s: Session, env: Env)
    requires Watched(s).phase.Between? || Watched(s).phase.InStep?
    ensures var (s', compacted) := Compact(s, env);
      Watched(s').phase == if compacted then Between(Watched(s).phase.step) else Watched(s).phase
  {
    CompactEmits(s, env);
    var (s', compacted) := Compact(s, env);
    CompactedWatched(s, s', compacted);
  }

  lemma {:induction false} CompactedWatched(s: Session, s': Session, compacted: bool)
    requires Watched(s).phase.Between? || Watched(s).phase.InStep?
    requires !compacted ==> s'.events == s.events
    requires compacted ==> exists e: Event :: e.ContextCompacted? && s'.events == s.events + [e]
    ensures Watched(s').phase == if compacted then Between(Watched(s).phase.step) else Watched(s).phase
  {
    if compacted {
      var e: Event :| e.ContextCompacted? && s'.events == s.events + [e];
      FollowOne(UNWATCHED, s.events, e);
    }
  }

  lemma {:induction false} CompactEmits(s: Session, env: Env)
    ensures var (s', compacted) := Compact(s, env);
      && (!compacted ==> s'.events == s.events)
      && (compacted ==> exists e: Event :: e.ContextCompacted? && s'.events == s.events + [e])
  {
    var (s', compacted) := Compact(s, env);
    if compacted { assert s'.events == s.events + [s'.events[|s.events|]]; }
  }

  lemma {:induction false} UsersAnswered(ms: seq<Message>)
    requires UsersOnly(ms)
    ensures Answered(ms) && DistinctCalls(ms)
  {
    PlainIsAnswered(ms);
  }

  lemma {:induction false} HistConcat(a: seq<Message>, b: seq<Message>, care: Care)
    requires Hist(a, care) && Hist(b, care)
    ensures Hist(a + b, care)
  {
    if Keeping(care) { AnsweredConcat(a, b); }
    assert forall i :: 0 <= i < |a + b| ==> (a + b)[i] == if i < |a| then a[i] else b[i - |a|];
  }

  lemma {:induction false} TextsAreUsers(texts: seq<string>)
    ensures UsersOnly(UserTexts(texts))
  {
    if texts != [] { TextsAreUsers(texts[1..]); }
  }

  lemma {:induction false} LookKeepsUsers(s: Session, env: Env)
    requires UsersOnly(s.steerQueue)
    ensures UsersOnly(LookAtSteers(s, env).steerQueue)
  {
    TextsAreUsers(env.steers(s.clock.looks));
  }

  lemma {:induction false} DrainIdle(s: Session, env: Env, cfg: Config, care: Care, cost: nat)
    requires Idle(s, cfg, care, cost)
    ensures Idle(DrainSteers(s, env), cfg, care, cost)
  {
    var s1 := LookAtSteers(s, env);
    LookKeepsUsers(s, env);
    UsersAnswered(s1.steerQueue);
    HistConcat(s.messages, s1.steerQueue, care);
  }

  lemma {:induction false} MaybeCompactIdle(s: Session, env: Env, cfg: Config, care: Care, cost: nat)
    requires Idle(s, cfg, care, cost)
    ensures Idle(MaybeCompact(s, env, cfg), cfg, care, cost + 4)
    ensures MaybeCompact(s, env, cfg).steps == s.steps
  {
    CompactKeeps(s, env, care);
    if Ordered(care) { CompactWatched(s, env); }
  }

  lemma {:induction false} StepRequestMade(cfg: Config, ms: seq<Message>, care: Care)
    requires Hist(ms, care)
    ensures RequestMade(StepRequest(cfg, ms), care)
  {
    if Keeping(care) {
      if cfg.window.Some? && cfg.window.value > 0 {
        RequestIsClosed(ms, cfg.window.value);
      } else {
        AnsweredRepair(ms);
      }
    }
  }

  lemma {:induction false} BeginStepping(s: Session, cfg: Config, care: Care, cost: nat)
    requires Idle(s, cfg, care, cost)
    requires Bounded(cfg) ==> s.steps < cfg.maxSteps.value
    ensures Stepping(BeginStep(s, cfg), cfg, care, cost)
  {
    StepRequestMade(cfg, s.messages, care);
    FollowOne(UNWATCHED, s.events, StepStarted(s.steps + 1));
  }

  // ---------- Steps without calls ----------

  lemma {:induction false} DeltasWatched(w: Watch, texts: seq<string>)
    requires w.phase.InStep?
    ensures Follow(w, Deltas(texts)) == w
  {
    if texts != [] {
      DeltasWatched(w, texts[1..]);
      assert See(w, StreamDelta(texts[0])) == w;
      FollowHead(w, StreamDelta(texts[0]), Deltas(texts[1..]));
    }
  }

  lemma {:induction false} FailSound(s: Session, cfg: Config, care: Care, message: string, overflow: bool)
    requires Stepping(s, cfg, care, 9 * s.steps)
    ensures var (s', flow) := FailStep(s, message, overflow); Sound(s', flow, cfg, care)
  {
    var s1 := Emit(s, StepInterrupted(s.steps, false));
    FollowOne(UNWATCHED, s.events, StepInterrupted(s.steps, false));
    FinishSound(s1, cfg, care, TurnFailed, Some(ProviderError(message, overflow)), false);
  }

  lemma {:induction false} RetriedIdle(s: Session, cfg: Config, care: Care, max: nat)
    requires Stepping(s, cfg, care, 9 * s.steps)
    ensures Idle(AskFlag(Emit(s.(retries := s.retries + 1), StepRetrying(s.steps, s.retries + 1, max))), cfg, care,
                 9 * s.steps)
  {
    FollowOne(UNWATCHED, s.events, StepRetrying(s.steps, s.retries + 1, max));
  }

  lemma {:induction false} CancelledSound(s: Session, cfg: Config, care: Care)
    requires Idle(s, cfg, care, 9 * s.steps)
    ensures var (s', progress) := Finish(s, TurnCancelled, None, false); Sound(s', Halt(progress), cfg, care)
  {
    FinishSound(s, cfg, care, TurnCancelled, None, false);
  }

  lemma {:induction false} RetriedSound(s: Session, env: Env, cfg: Config, care: Care, message: string,
                                        overflow: bool)
    requires Stepping(s, cfg, care, 9 * s.steps) && s.retries < MaxAttempts(cfg)
    ensures var (s', flow) := RetryStep(s, env, cfg, message, overflow);
      Sound(s', flow, cfg, care) && (flow.Again? ==> s'.steps == s.steps)
  {
    var max := MaxAttempts(cfg);
    var s1 := Emit(s.(retries := s.retries + 1), StepRetrying(s.steps, s.retries + 1, max));
    RetriedIdle(s, cfg, care, max);
    if env.flag(s1.clock.flags) { CancelledSound(AskFlag(s1), cfg, care); }
  }

  lemma {:induction false} RetrySound(s: Session, env: Env, cfg: Config, care: Care, message: string, overflow: bool)
    requires Stepping(s, cfg, care, 9 * s.steps)
    ensures var (s', flow) := RetryStep(s, env, cfg, message, overflow);
      Sound(s', flow, cfg, care) && (flow.Again? ==> s'.steps == s.steps)
  {
    if s.retries < MaxAttempts(cfg) {
      RetriedSound(s, env, cfg, care, message, overflow);
    } else {
      FailSound(s.(retries := 0), cfg, care, message, overflow);
    }
  }

  lemma {:induction false} ErrorSound(s: Session, env: Env, cfg: Config, care: Care, message: string, overflow: bool,
                                      retryable: bool)
    requires s.steps > 0 && Stepping(s, cfg, care, 9 * s.steps - 4)
    ensures var (s', flow) := StepError(s, env, cfg, message, overflow, retryable);
      Sound(s', flow, cfg, care) && (flow.Again? ==> s'.steps == s.steps)
  {
    var s0 := AskFlag(s);
    if env.flag(s.clock.flags) {
      FinishSound(s0, cfg, care, TurnCancelled, None, false);
    } else {
      CompactKeeps(s0, env, care);
      if Ordered(care) { CompactWatched(s0, env); }
      var (s1, compacted) := if overflow && cfg.maxContext.Some? then Compact(s0, env) else (s0, false);
      if !compacted {
        assert Stepping(s1, cfg, care, 9 * s.steps);
        if retryable {
          RetrySound(s1, env, cfg, care, message, overflow);
        } else {
          FailSound(s1, cfg, care, message, overflow);
        }
      }
    }
  }

  lemma {:induction false} CompleteStepIdle(s: Session, cfg: Config, care: Care, usage: Usage, finish: FinishReason)
    requires Common(s, cfg, care, 9 * s.steps) && Orderly(s) && Hist(s.messages, care)
    requires InPhase(s, InStep(s.steps), care)
    ensures Idle(CompleteStep(s, s.steps, usage, finish), cfg, care, 9 * s.steps)
  {
    FollowOne(UNWATCHED, s.events, StepCompleted(s.steps, usage, finish));
  }

  lemma {:induction false} ReviewIdle(s: Session, cfg: Config, care: Care, reminder: string)
    requires Idle(s, cfg, care, 9 * s.steps)
    ensures Idle(Emit(s.(messages := s.messages + [UserText(reminder)]), ReviewInjected(reminder)), cfg, care,
                 9 * s.steps)
  {
    RemindedHist(s.messages, reminder, care);
    FollowOne(UNWATCHED, s.events, ReviewInjected(reminder));
  }

  lemma {:induction false} RemindedHist(ms: seq<Message>, reminder: string, care: Care)
    requires Hist(ms, care)
    ensures Hist(ms + [UserText(reminder)], care)
  {
    UsersAnswered([UserText(reminder)]);
    HistConcat(ms, [UserText(reminder)], care);
  }

  lemma {:induction false} EndedSound(s: Session, cfg: Config, care: Care, finish: FinishReason)
    requires Common(s, cfg, care, 9 * s.steps) && s.pending.None? && Limited(s.trail, |s.trail| - 1)
    requires Ordered(care) ==> Watched(s).phase.Between?
    ensures var (s', progress) := EndedBy(s, finish); Sound(s', Halt(progress), cfg, care)
  {
    FinishSound(s, cfg, care, TurnCompleted, None, true);
    FinishSound(s, cfg, care, TurnFailed, Some(ProviderFiltered), false);
    FinishSound(s, cfg, care, TurnCompleted, None, false);
  }

  lemma {:induction false} TextSound(s: Session, env: Env, cfg: Config, care: Care, finish: FinishReason,
                                     usage: Usage)
    requires Stepping(s, cfg, care, 9 * s.steps)
    ensures var (s', flow) := StepText(s, env, cfg, finish, usage);
      Sound(s', flow, cfg, care) && (flow.Again? ==> s'.steps == s.steps)
  {
    var s0 := s.(retries := 0);
    if Reviews(cfg, s, finish) {
      CompleteStepIdle(s0, cfg, care, usage, finish);
      ReviewIdle(CompleteStep(s0, s.steps, usage, finish), cfg, care, cfg.review.value.reminder);
    } else {
      var s1 := LookAtSteers(s0, env);
      LookKeepsUsers(s0, env);
      CompleteStepIdle(s1, cfg, care, usage, finish);
      if s1.steerQueue == [] {
        EndedSound(CompleteStep(s1.(finished := true), s.steps, usage, finish), cfg, care, finish);
      }
    }
  }

  // ---------- Steps with calls ----------

  // What running calls never touches.
  predicate SameFrame(s: Session, s': Session) {
    && s'.steps == s.steps && s'.requests == s.requests && s'.steerQueue == s.steerQueue
    && s'.clock.llm == s.clock.llm
  }

  lemma {:induction false} SkipFrame(s: Session, calls: seq<ToolCall>, i: nat)
    ensures SameFrame(s, SkipFrom(s, calls, i))
    decreases |calls| - i
  {
    if i < |calls| {
      SkipFrame(SettleNow(s, calls[i], ErrorResult(calls[i], TOOL_SKIPPED)), calls, i + 1);
    }
  }

  predicate CallFrame(s: Session, s': Session, p: Pending, end: CallEnd) {
    && SameFrame(s, s')
    && match end
       case Leaves(NeedsApproval(call)) =>
         call == p.call && s'.pending == Some(p) && s'.messages == s.messages && s'.finished == s.finished
       case Leaves(TurnOver(outcome)) => s'.finished && s'.pending == s.pending && outcome.steps == s.steps
       case _ => s'.finished == s.finished && s'.pending == s.pending
  }

  ghost predicate KeepsFrame(one: Calling) {
    forall s, p :: CallFrame(s, one(s, p).0, p, one(s, p).1)
  }

  lemma {:induction false} CallsKeepFrame(env: Env, cfg: Config, policy: ToolCall -> Verdict)
    ensures KeepsFrame(CallWith(env, cfg, policy))
  {
    forall s, p
      ensures CallFrame(s, OneCall(s, env, cfg, policy, p).0, p, OneCall(s, env, cfg, policy, p).1)
    {
      OneCallFrame(s, env, cfg, policy, p);
    }
  }

  lemma {:induction false} OneCallFrame(s: Session, env: Env, cfg: Config, policy: ToolCall -> Verdict, p: Pending)
    ensures var (s', end) := OneCall(s, env, cfg, policy, p); CallFrame(s, s', p, end)
  {
    var (s1, duplicate) := Checked(AskFlag(s), p.call);
    if !env.flag(s.clock.flags) && !duplicate {
      match policy(p.call)
      case Approve => ApprovedFrame(s1, env, p);
      case Deny(reason) =>
        FinalizedFrame(Emit(s1, ToolStarted(p.call)), p.call.id, ErrorResult(p.call, WorkerText(cfg, reason)));
      case Ask =>
    }
  }

  lemma {:induction false} ApprovedFrame(s: Session, env: Env, p: Pending)
    ensures var (s', end) := ApprovedCall(s, env, p.call, p.batch, p.step); CallFrame(s, s', p, end)
  {
    var (s1, result) := RunTool(Resolved(s), env, p.call, p.batch);
    assert SameFrame(s, s1) && s1.pending == s.pending && s1.finished == s.finished;
    if result.Some? { FinalizedFrame(s1, p.call.id, result.value); }
  }

  // The state in which call `i` of a batch is up next.
  ghost predicate InBatch(s: Session, cfg: Config, care: Care, calls: seq<ToolCall>, i: nat) {
    && Common(s, cfg, care, 9 * s.steps)
    && s.pending.None? && !s.finished
    && InPhase(s, InStep(s.steps), care)
    && OpenBatch(s.messages, calls, i, care)
    && Books(s) && D.Settled(s.dedupe) && Limited(s.trail, |s.trail|)
    && Recorded(s, |s.messages| - i, calls, i)
  }

  lemma {:induction false} OpenGrew(ms: seq<Message>, ms': seq<Message>, calls: seq<ToolCall>, i: nat, n: nat,
                                    care: Care)
    requires Keeping(care) && i <= n <= |calls|
    requires OpenBatch(ms, calls, i, care) && Grew(ms, ms', CallIds(calls)[i..n])
    ensures OpenBatch(ms', calls, n, care)
  {
    var ids := CallIds(calls);
    var before, asking, results :| OpenParts(ms, before, asking, results, calls, i, care);
    var added := ms'[|ms|..];
    Regroup(before + [asking], results, added);
    ResultsConcat(results, ids[..i], added, ids[i..n]);
    PrefixParts(ids, i, n);
    assert ms' == ms + added;
    assert OpenParts(ms', before, asking, results + added, calls, n, care);
  }

  lemma {:induction false} ResultsConcat(a: seq<Message>, ids: seq<string>, b: seq<Message>, more: seq<string>)
    requires ResultsOf(a, ids) && ResultsOf(b, more)
    ensures ResultsOf(a + b, ids + more)
  {
  }

  lemma {:induction false} PrefixParts(ids: seq<string>, i: nat, n: nat)
    requires i <= n <= |ids|
    ensures ids[..n] == ids[..i] + ids[i..n]
  {
  }

  lemma {:induction false} OpenNext(ms: seq<Message>, ms': seq<Message>, calls: seq<ToolCall>, i: nat, care: Care)
    requires Keeping(care) && i < |calls| && OpenBatch(ms, calls, i, care) && Grew(ms, ms', [calls[i].id])
    ensures OpenBatch(ms', calls, i + 1, care)
  {
    assert CallIds(calls)[i..i + 1] == [calls[i].id];
    OpenGrew(ms, ms', calls, i, i + 1, care);
  }

  lemma {:induction false} BlockDistinct(m: Message, results: seq<Message>, block: seq<Message>, ids: seq<string>)
    requires Distinct(DeclaredIds(m)) && ResultsOf(results, ids) && block == [m] + results
    ensures DistinctCalls(block)
  {
    forall i | 0 <= i < |block|
      ensures Distinct(DeclaredIds(block[i]))
    {
      assert i > 0 ==> results[i - 1] == block[i];
    }
  }

  lemma {:induction false} FullBatchAnswered(ms: seq<Message>, calls: seq<ToolCall>, care: Care)
    requires OpenBatch(ms, calls, |calls|, care)
    ensures Hist(ms, care)
  {
    if Keeping(care) { FullParts(ms, calls, care); }
  }

  lemma {:induction false} FullParts(ms: seq<Message>, calls: seq<ToolCall>, care: Care)
    requires Keeping(care) && OpenBatch(ms, calls, |calls|, care)
    ensures Hist(ms, care)
  {
    var before, asking, results :| OpenParts(ms, before, asking, results, calls, |calls|, care);
    assert CallIds(calls)[..|calls|] == CallIds(calls);
    BlockAnswered(asking, results, CallIds(calls), care);
    HistConcat(before, [asking] + results, care);
    Regroup(before, [asking], results);
  }

  lemma {:induction false} BlockAnswered(m: Message, results: seq<Message>, ids: seq<string>, care: Care)
    requires m.role.Assistant? && DeclaredIds(m) == ids && ResultsOf(results, ids) && (care.Exact? ==> Distinct(ids))
    ensures Hist([m] + results, care)
  {
    AnsweredBlock(m, results, []);
    assert [m] + results + [] == [m] + results;
    if care.Exact? { BlockDistinct(m, results, [m] + results, ids); }
  }

  lemma {:induction false} FilledHistory(ms: seq<Message>, ms': seq<Message>, calls: seq<ToolCall>, i: nat,
                                         care: Care)
    requires Keeping(care) && i <= |calls| && OpenBatch(ms, calls, i, care) && Grew(ms, ms', CallIds(calls)[i..])
    ensures Hist(ms', care)
  {
    assert CallIds(calls)[i..|calls|] == CallIds(calls)[i..];
    OpenGrew(ms, ms', calls, i, |calls|, care);
    FullBatchAnswered(ms', calls, care);
  }

  // The batch was stopped by the call before call `i`.
  ghost predicate Stopped(s: Session, cfg: Config, care: Care, calls: seq<ToolCall>, i: nat) {
    && Common(s, cfg, care, 9 * s.steps) && s.pending.None? && !s.finished
    && InPhase(s, InStep(s.steps), care)
    && OpenBatch(s.messages, calls, i, care)
    && Books(s) && Limited(s.trail, |s.trail| - 1)
  }

  // All calls of the step's batch have their results.
  ghost predicate BatchOver(s: Session, cfg: Config, care: Care, stopped: bool) {
    && InPhase(s, InStep(s.steps), care) && s.pending.None? && !s.finished
    && Common(s, cfg, care, 9 * s.steps) && Hist(s.messages, care)
    && IdleBooks(s) && Limited(s.trail, |s.trail| - 1)
    && (!stopped ==> Limited(s.trail, |s.trail|))
  }

  // What dealing with call `i` leaves.
  ghost function CallSoundly(cfg: Config, care: Care, calls: seq<ToolCall>, i: nat): ((Session, CallEnd)) -> bool {
    (r: (Session, CallEnd)) =>
      match r.1
      case Goes => InBatch(r.0, cfg, care, calls, i + 1)
      case Stops => Stopped(r.0, cfg, care, calls, i + 1)
      case Leaves(progress) => Sound(r.0, Halt(progress), cfg, care)
  }

  // A batch from a sound state ends the step or the turn soundly, or pauses soundly.
  ghost function BatchSoundly(cfg: Config, care: Care, steps: nat): ((Session, BatchEnd)) -> bool {
    (r: (Session, BatchEnd)) =>
      && r.0.steps == steps
      && match r.1
         case BatchDone(stopped) => BatchOver(r.0, cfg, care, stopped)
         case BatchLeft(progress) => Sound(r.0, Halt(progress), cfg, care)
  }

  lemma {:induction false} CommonKept(s: Session, s': Session, cfg: Config, care: Care)
    requires Common(s, cfg, care, 9 * s.steps) && SameFrame(s, s')
    ensures Common(s', cfg, care, 9 * s'.steps)
  {
  }

  // What the lemmas about single calls say of call `p`.
  ghost predicate CallRan(s: Session, s': Session, end: CallEnd, p: Pending, care: Care) {
    && p.index < |p.batch| && p.call == p.batch[p.index] && p.step == s.steps && p.index <= |s.messages|
    && CallFrame(s, s', p, end)
    && (Ordered(care) ==> CallHistory(s, s', p, end) && CallWatched(Watched(s), s', p, end))
    && CallBooks(s', |s.messages| - p.index, p.batch, p.index, end)
  }

  // Call `p` has its result in `s`, and the batch is not left.
  ghost predicate CallSettled(s: Session, end: CallEnd, base: nat, p: Pending, cfg: Config, care: Care) {
    && p.index < |p.batch| && !end.Leaves?
    && Common(s, cfg, care, 9 * s.steps) && s.pending.None? && !s.finished && InPhase(s, InStep(s.steps), care)
    && OpenBatch(s.messages, p.batch, p.index + 1, care) && CallBooks(s, base, p.batch, p.index, end)
  }

  lemma {:induction false} RanSettles(s: Session, s': Session, end: CallEnd, p: Pending, cfg: Config, care: Care)
    requires CallRan(s, s', end, p, care) && !end.Leaves?
    requires Common(s, cfg, care, 9 * s.steps) && s.pending.None? && !s.finished
    requires InPhase(s, InStep(s.steps), care) && OpenBatch(s.messages, p.batch, p.index, care)
    ensures CallSettled(s', end, |s.messages| - p.index, p, cfg, care)
  {
    SettledFacts(s, s', end, p, care);
    CommonKept(s, s', cfg, care);
    CallOpens(s, s', end, p, care);
  }

  lemma {:induction false} CallOpens(s: Session, s': Session, end: CallEnd, p: Pending, care: Care)
    requires p.index < |p.batch| && p.call == p.batch[p.index] && |s'.messages| == |s.messages| + 1 && !end.Leaves?
    requires Ordered(care) ==> CallHistory(s, s', p, end)
    requires OpenBatch(s.messages, p.batch, p.index, care)
    ensures OpenBatch(s'.messages, p.batch, p.index + 1, care)
  {
    if Keeping(care) { OpenNext(s.messages, s'.messages, p.batch, p.index, care); }
  }

  lemma {:induction false} SettledFacts(s: Session, s': Session, end: CallEnd, p: Pending, care: Care)
    requires CallRan(s, s', end, p, care) && !end.Leaves?
    ensures SameFrame(s, s') && s'.pending == s.pending && s'.finished == s.finished
    ensures |s'.messages| == |s.messages| + 1
    ensures Ordered(care) ==> Watched(s').phase == Watched(s).phase && CallHistory(s, s', p, end)
  {
  }

  lemma {:induction false} SettledGoes(s: Session, end: CallEnd, base: nat, p: Pending, cfg: Config, care: Care)
    requires CallSettled(s, end, base, p, cfg, care) && end.Goes?
    ensures InBatch(s, cfg, care, p.batch, p.index + 1)
  {
    assert base == |s.messages| - (p.index + 1);
  }

  lemma {:induction false} GoesSoundly(s: Session, end: CallEnd, cfg: Config, care: Care, calls: seq<ToolCall>, i: nat)
    requires end.Goes? && InBatch(s, cfg, care, calls, i + 1)
    ensures CallSoundly(cfg, care, calls, i)((s, end))
  {
  }

  lemma {:induction false} SettledStops(s: Session, end: CallEnd, base: nat, p: Pending, cfg: Config, care: Care)
    requires CallSettled(s, end, base, p, cfg, care) && end.Stops?
    ensures Stopped(s, cfg, care, p.batch, p.index + 1)
  {
  }

  lemma {:induction false} StopsSoundly(s: Session, end: CallEnd, cfg: Config, care: Care, calls: seq<ToolCall>, i: nat)
    requires end.Stops? && Stopped(s, cfg, care, calls, i + 1)
    ensures CallSoundly(cfg, care, calls, i)((s, end))
  {
  }

  lemma {:induction false} GoesOnSoundly(s: Session, end: CallEnd, base: nat, p: Pending, cfg: Config, care: Care)
    requires CallSettled(s, end, base, p, cfg, care) && end.Goes?
    ensures CallSoundly(cfg, care, p.batch, p.index)((s, end))
  {
    SettledGoes(s, end, base, p, cfg, care);
    GoesSoundly(s, end, cfg, care, p.batch, p.index);
  }

  lemma {:induction false} StopsHereSoundly(s: Session, end: CallEnd, base: nat, p: Pending, cfg: Config, care: Care)
    requires CallSettled(s, end, base, p, cfg, care) && end.Stops?
    ensures CallSoundly(cfg, care, p.batch, p.index)((s, end))
  {
    SettledStops(s, end, base, p, cfg, care);
    StopsSoundly(s, end, cfg, care, p.batch, p.index);
  }

  lemma {:induction false} SettledSoundly(s: Session, end: CallEnd, base: nat, p: Pending, cfg: Config, care: Care)
    requires CallSettled(s, end, base, p, cfg, care)
    ensures CallSoundly(cfg, care, p.batch, p.index)((s, end))
  {
    if end.Goes? {
      GoesOnSoundly(s, end, base, p, cfg, care);
    } else {
      StopsHereSoundly(s, end, base, p, cfg, care);
    }
  }

  lemma {:induction false} CallOverSound(s: Session, s': Session, end: CallEnd, p: Pending, cfg: Config, care: Care)
    requires CallRan(s, s', end, p, care) && end.Leaves? && end.progress.TurnOver?
    requires Common(s, cfg, care, 9 * s.steps) && s.pending.None?
    ensures Sound(s', Halt(end.progress), cfg, care)
  {
    CommonKept(s, s', cfg, care);
  }

  // The call was not run, and the user is asked about it.
  ghost predicate CallAsked(s: Session, s': Session, p: Pending, care: Care) {
    && s'.pending == Some(p) && s'.messages == s.messages && s'.finished == s.finished && SameFrame(s, s')
    && (Ordered(care) ==> Watched(s') == Watched(s))
    && p.index < |p.batch| && p.call == p.batch[p.index] && p.step == s.steps && p.index <= |s'.messages|
    && CallBooks(s', |s'.messages| - p.index, p.batch, p.index, Leaves(NeedsApproval(p.call)))
  }

  lemma {:induction false} AskedFacts(s: Session, s': Session, p: Pending, care: Care)
    requires CallRan(s, s', Leaves(NeedsApproval(p.call)), p, care)
    ensures CallAsked(s, s', p, care)
  {
  }

  lemma {:induction false} CallAskedSound(s: Session, s': Session, cfg: Config, care: Care)
    requires s'.pending.Some? && CallAsked(s, s', s'.pending.value, care)
    requires Common(s, cfg, care, 9 * s.steps) && !s.finished && InPhase(s, InStep(s.steps), care)
    requires OpenBatch(s'.messages, s'.pending.value.batch, s'.pending.value.index, care)
    ensures Paused(s', cfg, care)
  {
    CommonKept(s, s', cfg, care);
    PausedParts(s', cfg, care);
  }

  lemma {:induction false} PausedParts(s: Session, cfg: Config, care: Care)
    requires Common(s, cfg, care, 9 * s.steps) && s.pending.Some? && !s.finished
    requires InPhase(s, InStep(s.steps), care)
    requires var p := s.pending.value;
      && p.index < |p.batch| && p.call == p.batch[p.index] && p.step == s.steps && p.index <= |s.messages|
      && OpenBatch(s.messages, p.batch, p.index, care)
      && CallBooks(s, |s.messages| - p.index, p.batch, p.index, Leaves(NeedsApproval(p.call)))
    ensures Paused(s, cfg, care)
  {
  }

  // What the lemmas about batches ask of the way each call is dealt with.
  ghost predicate CallsSoundly(one: Calling, care: Care) {
    KeepsFrame(one) && KeepsBooks(one) && (Ordered(care) ==> KeepsHistory(one) && FollowsProtocol(one))
  }

  lemma {:induction false} CallsSound(env: Env, cfg: Config, policy: ToolCall -> Verdict, care: Care)
    requires Ordered(care) ==> AnswersItsCall(env)
    ensures CallsSoundly(CallWith(env, cfg, policy), care)
  {
    CallsKeepFrame(env, cfg, policy);
    CallsKeepBooks(env, cfg, policy);
    if Ordered(care) {
      CallsKeepHistory(env, cfg, policy);
      CallsFollowProtocol(env, cfg, policy);
    }
  }

  lemma {:induction false} StoppedOver(s: Session, cfg: Config, care: Care, calls: seq<ToolCall>, i: nat)
    requires i <= |calls| && Stopped(s, cfg, care, calls, i)
    ensures BatchOver(EndStep(SkipFrom(s, calls, i)), cfg, care, true)
    ensures EndStep(SkipFrom(s, calls, i)).steps == s.steps
  {
    var s1 := SkipFrom(s, calls, i);
    SkipFrame(s, calls, i);
    SkipHistory(s, calls, i);
    if Ordered(care) { SkipWatched(s, calls, i); }
    SkipBooks(s, calls, i);
    EndStepBooks(s1);
    if Keeping(care) { FilledHistory(s.messages, s1.messages, calls, i, care); }
  }

  lemma {:induction false} CallRuns(s: Session, one: Calling, p: Pending, cfg: Config, care: Care)
    requires p.index < |p.batch| && p.call == p.batch[p.index] && p.step == s.steps
    requires CallsSoundly(one, care) && InBatch(s, cfg, care, p.batch, p.index)
    ensures CallRan(s, one(s, p).0, one(s, p).1, p, care)
  {
    assert CallReady(s, |s.messages| - p.index, p);
  }

  // Call `p` is up next in a sound state.
  ghost predicate CallUp(s: Session, p: Pending, cfg: Config, care: Care) {
    && p.index < |p.batch| && p.call == p.batch[p.index] && p.step == s.steps
    && InBatch(s, cfg, care, p.batch, p.index)
  }

  lemma {:induction false} CallSettledSound(s: Session, s': Session, end: CallEnd, p: Pending, cfg: Config, care: Care)
    requires CallUp(s, p, cfg, care) && CallRan(s, s', end, p, care) && !end.Leaves?
    ensures CallSoundly(cfg, care, p.batch, p.index)((s', end))
  {
    RanSettles(s, s', end, p, cfg, care);
    SettledSoundly(s', end, |s.messages| - p.index, p, cfg, care);
  }

  lemma {:induction false} CallLeftSound(s: Session, s': Session, end: CallEnd, p: Pending, cfg: Config, care: Care)
    requires CallUp(s, p, cfg, care) && CallRan(s, s', end, p, care) && end.Leaves?
    ensures CallSoundly(cfg, care, p.batch, p.index)((s', end))
  {
    if end.progress.TurnOver? {
      CallOverSound(s, s', end, p, cfg, care);
    } else {
      AskedFacts(s, s', p, care);
      CallAskedSound(s, s', cfg, care);
    }
    LeftSoundly(s', end, cfg, care, p.batch, p.index);
  }

  lemma {:induction false} CallSound(s: Session, one: Calling, p: Pending, cfg: Config, care: Care)
    requires CallsSoundly(one, care) && CallUp(s, p, cfg, care)
    ensures CallSoundly(cfg, care, p.batch, p.index)(one(s, p)) && one(s, p).0.steps == s.steps
  {
    var (s', end) := one(s, p);
    CallRuns(s, one, p, cfg, care);
    if end.Leaves? {
      CallLeftSound(s, s', end, p, cfg, care);
    } else {
      CallSettledSound(s, s', end, p, cfg, care);
    }
  }

  lemma {:induction false} BatchSound(s: Session, one: Calling, cfg: Config, calls: seq<ToolCall>, i: nat, step: nat,
                                      usage: Usage, care: Care)
    requires i <= |calls| && CallsSoundly(one, care) && InBatch(s, cfg, care, calls, i) && step == s.steps
    ensures BatchSoundly(cfg, care, step)(BatchFrom(s, one, calls, i, step, usage))
    decreases |calls| - i
  {
    if i < |calls| {
      var p := Pending(calls[i], calls, i, step, usage);
      var (s1, end) := one(s, p);
      CallSound(s, one, p, cfg, care);
      if end.Goes? {
        BatchSound(s1, one, cfg, calls, i + 1, step, usage, care);
      } else if end.Stops? {
        SkippedSound(s1, cfg, care, calls, i + 1);
      }
    } else {
      BatchFinished(s, cfg, care, calls);
      DoneSoundly(EndStep(s), false, cfg, care);
    }
  }

  lemma {:induction false} BatchFinished(s: Session, cfg: Config, care: Care, calls: seq<ToolCall>)
    requires InBatch(s, cfg, care, calls, |calls|)
    ensures BatchOver(EndStep(s), cfg, care, false)
  {
    EndStepBooks(s);
    FullBatchAnswered(s.messages, calls, care);
  }

  lemma {:induction false} AfterBatchSound(s: Session, end: BatchEnd, cfg: Config, care: Care, step: nat, usage: Usage)
    requires BatchSoundly(cfg, care, step)((s, end))
    ensures var (s', flow) := AfterBatch(s, end, step, usage);
      Sound(s', flow, cfg, care) && (flow.Again? ==> s'.steps == step)
  {
    if end.BatchDone? {
      if end.stopped {
        FollowOne(UNWATCHED, s.events, StepCompleted(s.steps, usage, Completed));
        FinishSound(CompleteStep(s, s.steps, usage, Completed), cfg, care, TurnCompleted, None, false);
      } else {
        CompleteStepIdle(s, cfg, care, usage, ToolCalls);
      }
    }
  }

  lemma {:induction false} DoneSoundly(s: Session, stopped: bool, cfg: Config, care: Care)
    requires BatchOver(s, cfg, care, stopped)
    ensures BatchSoundly(cfg, care, s.steps)((s, BatchDone(stopped)))
  {
  }

  lemma {:induction false} LeftSoundly(s: Session, end: CallEnd, cfg: Config, care: Care, calls: seq<ToolCall>, i: nat)
    requires end.Leaves? && Sound(s, Halt(end.progress), cfg, care)
    ensures CallSoundly(cfg, care, calls, i)((s, end))
  {
  }

  lemma {:induction false} SkippedSound(s: Session, cfg: Config, care: Care, calls: seq<ToolCall>, i: nat)
    requires i <= |calls| && Stopped(s, cfg, care, calls, i)
    ensures BatchSoundly(cfg, care, s.steps)((EndStep(SkipFrom(s, calls, i)), BatchDone(true)))
  {
    StoppedOver(s, cfg, care, calls, i);
    DoneSoundly(EndStep(SkipFrom(s, calls, i)), true, cfg, care);
  }

  lemma {:induction false} RetriesReset(s: Session, end: BatchEnd, cfg: Config, care: Care, step: nat)
    requires end.BatchDone? && BatchSoundly(cfg, care, step)((s, end))
    ensures BatchSoundly(cfg, care, step)((s.(retries := 0), end))
  {
  }

  lemma {:induction false} BatchOpened(ms: seq<Message>, calls: seq<ToolCall>, text: string, care: Care)
    requires Hist(ms, care) && (care.Exact? ==> Distinct(CallIds(calls)))
    ensures OpenBatch(ms + [Asking(calls, text)], calls, 0, care)
  {
    var out := ms + [Asking(calls, text)];
    AskingDeclares(calls, text);
    assert CallIds(calls)[..0] == [];
    if Keeping(care) { assert OpenParts(out, ms, Asking(calls, text), [], calls, 0, care); }
  }

  lemma {:induction false} ToolsSound(s: Session, env: Env, cfg: Config, policy: ToolCall -> Verdict,
                                      calls: seq<ToolCall>, text: string, usage: Usage, care: Care)
    requires (Ordered(care) ==> AnswersItsCall(env)) && (care.Exact? ==> Distinct(CallIds(calls)))
    requires Stepping(s, cfg, care, 9 * s.steps)
    ensures var (s', flow) := StepTools(s, env, cfg, policy, calls, text, usage);
      Sound(s', flow, cfg, care) && (flow.Again? ==> s'.steps == s.steps)
  {
    var s0 := s.(messages := s.messages + [Asking(calls, text)]);
    BatchOpened(s.messages, calls, text, care);
    assert s.ended + s.dedupe.stepCalls == s.ended;
    var one := CallWith(env, cfg, policy);
    var (s1, end) := BatchFrom(s0, one, calls, 0, s.steps, usage);
    CallsSound(env, cfg, policy, care);
    BatchSound(s0, one, cfg, calls, 0, s.steps, usage, care);
    if end.BatchDone? { RetriesReset(s1, end, cfg, care, s.steps); }
    AfterBatchSound(if end.BatchDone? then s1.(retries := 0) else s1, end, cfg, care, s.steps, usage);
  }

  // The model's answer to any step is dealt with soundly.
  ghost predicate AnswersSoundly(answering: Answering, cfg: Config, care: Care) {
    forall s, answer :: Answerable(s, answer, cfg, care) ==>
      var (s', flow) := answering(s, answer);
      Sound(s', flow, cfg, care) && (flow.Again? ==> s'.steps == s.steps)
  }

  ghost predicate Answerable(s: Session, answer: LlmReply, cfg: Config, care: Care) {
    && s.steps > 0 && Stepping(s, cfg, care, 9 * s.steps - 4)
    && (care.Exact? && answer.Reply? ==> Distinct(CallIds(answer.calls)))
  }

  lemma {:induction false} ReplySound(s: Session, env: Env, cfg: Config, request: seq<Message>, answering: Answering,
                                      care: Care)
    requires (care.Exact? ==> DistinctBatches(env)) && AnswersSoundly(answering, cfg, care)
    requires s.steps > 0 && Stepping(s, cfg, care, 9 * s.steps - 5)
    ensures var (s', flow) := StepReply(s, env, request, answering);
      Sound(s', flow, cfg, care) && (flow.Again? ==> s'.steps == s.steps)
  {
    var n := s.clock.llm;
    var s0 := s.(clock := s.clock.(llm := n + 1));
    assert Stepping(s0, cfg, care, 9 * s.steps - 4);
    if env.llmCancelled(n) {
      AbortedSound(s0, cfg, care);
    } else {
      assert Answerable(s0, env.llm(n, request), cfg, care);
    }
  }

  lemma {:induction false} AnswersSound(env: Env, cfg: Config, policy: ToolCall -> Verdict, care: Care)
    requires Ordered(care) ==> AnswersItsCall(env)
    ensures AnswersSoundly(AnswerWith(env, cfg, policy), cfg, care)
  {
    forall s, answer | Answerable(s, answer, cfg, care)
      ensures var (s', flow) := StepAnswer(s, env, cfg, policy, answer);
      Sound(s', flow, cfg, care) && (flow.Again? ==> s'.steps == s.steps)
    {
      AnswerSound(s, env, cfg, policy, answer, care);
    }
  }

  lemma {:induction false} AnswerSound(s: Session, env: Env, cfg: Config, policy: ToolCall -> Verdict, answer: LlmReply,
                                       care: Care)
    requires (Ordered(care) ==> AnswersItsCall(env)) && Answerable(s, answer, cfg, care)
    ensures var (s', flow) := StepAnswer(s, env, cfg, policy, answer);
      Sound(s', flow, cfg, care) && (flow.Again? ==> s'.steps == s.steps)
  {
    match answer
    case LlmError(message, overflow, retryable) =>
      ErrorSound(s, env, cfg, care, message, overflow, retryable);
    case Reply(deltas, text, calls, finish, usage) =>
      var s1 := s.(events := s.events + Deltas(deltas));
      Streamed(s, deltas, cfg, care);
      if calls == [] {
        TextSound(s1, env, cfg, care, finish, usage);
      } else {
        ToolsSound(s1, env, cfg, policy, calls, text, usage, care);
      }
  }

  lemma {:induction false} Streamed(s: Session, deltas: seq<string>, cfg: Config, care: Care)
    requires s.steps > 0 && Stepping(s, cfg, care, 9 * s.steps - 4)
    ensures Stepping(s.(events := s.events + Deltas(deltas)), cfg, care, 9 * s.steps)
  {
    FollowConcat(UNWATCHED, s.events, Deltas(deltas));
    if Ordered(care) { DeltasWatched(Watched(s), deltas); }
  }

  lemma {:induction false} AbortedSound(s: Session, cfg: Config, care: Care)
    requires Common(s, cfg, care, 9 * s.steps) && s.pending.None? && Limited(s.trail, |s.trail| - 1)
    requires Ordered(care) ==>
      (Watched(s).phase.InStep? || Watched(s).phase.InCall?) && Watched(s).phase.step == s.steps
    ensures var (s', progress) := Aborted(s, s.steps); Sound(s', Halt(progress), cfg, care)
  {
    FollowOne(UNWATCHED, s.events, StepInterrupted(s.steps, true));
    FinishSound(Emit(s, StepInterrupted(s.steps, true)), cfg, care, TurnCancelled, None, false);
  }

  // ---------- The step loop ----------

  lemma {:induction false} IterateSound(s: Session, env: Env, cfg: Config, answering: Answering, care: Care)
    requires (care.Exact? ==> DistinctBatches(env)) && AnswersSoundly(answering, cfg, care)
    requires Idle(s, cfg, care, 9 * s.steps)
    ensures var (s', flow) := Iterate(s, env, cfg, answering);
      Sound(s', flow, cfg, care) && (flow.Again? ==> s'.steps == s.steps + 1)
    ensures Bounded(cfg) && s.steps == cfg.maxSteps.value ==> !Iterate(s, env, cfg, answering).1.Again?
  {
    var s0 := AskFlag(s);
    if env.flag(s.clock.flags) {
      FinishSound(s0, cfg, care, TurnCancelled, None, false);
    } else if cfg.maxSteps.Some? && cfg.maxSteps.value > 0 && s.steps >= cfg.maxSteps.value {
      FinishSound(s0, cfg, care, TurnFailed, Some(MaxStepsExceeded), false);
    } else {
      DrainIdle(s0, env, cfg, care, 9 * s.steps);
      var s1 := MaybeCompact(DrainSteers(s0, env), env, cfg);
      MaybeCompactIdle(DrainSteers(s0, env), env, cfg, care, 9 * s.steps);
      BeginStepping(s1, cfg, care, 9 * s.steps + 4);
      ReplySound(BeginStep(s1, cfg), env, cfg, StepRequest(cfg, s1.messages).sent, answering, care);
    }
  }

  // What holds of a state that goes on and is kept by every pass holds of whatever the loop leaves.
  lemma {:induction false} LoopKeeps(s: Session, pass: Session -> (Session, Flow), fuel: nat,
                                     keeps: (Session, Flow) -> bool)
    requires keeps(s, Again)
    requires forall s1 :: keeps(s1, Again) ==> keeps(pass(s1).0, pass(s1).1)
    ensures keeps(Loop(s, pass, fuel).0, Loop(s, pass, fuel).1)
    decreases fuel
  {
    if fuel > 0 && pass(s).1.Again? {
      LoopKeeps(pass(s).0, pass, fuel - 1, keeps);
    }
  }

  lemma {:induction false} LoopSound(s: Session, env: Env, cfg: Config, policy: ToolCall -> Verdict, fuel: nat,
                                     care: Care)
    requires (Ordered(care) ==> AnswersItsCall(env)) && (care.Exact? ==> DistinctBatches(env))
    requires Idle(s, cfg, care, 9 * s.steps)
    ensures var (s', flow) := Loop(s, Pass(env, cfg, policy), fuel); Sound(s', flow, cfg, care)
  {
    var answering := AnswerWith(env, cfg, policy);
    AnswersSound(env, cfg, policy, care);
    var keeps := (s1: Session, flow: Flow) => Sound(s1, flow, cfg, care);
    forall s1 | keeps(s1, Again)
      ensures keeps(Iterate(s1, env, cfg, answering).0, Iterate(s1, env, cfg, answering).1)
    {
      IterateSound(s1, env, cfg, answering, care);
    }
    LoopKeeps(s, Pass(env, cfg, policy), fuel, keeps);
  }

  // A loop whose passes each use up one of `left` steps and cannot go on without one comes back.
  lemma {:induction false} LoopStops(s: Session, pass: Session -> (Session, Flow), fuel: nat, left: nat,
                                     ready: (Session, nat) -> bool)
    requires ready(s, left) && fuel > left
    requires forall s1, n: nat :: ready(s1, n) && pass(s1).1.Again? ==> n > 0 && ready(pass(s1).0, n - 1)
    ensures !Loop(s, pass, fuel).1.Again?
    decreases fuel
  {
    if pass(s).1.Again? {
      LoopStops(pass(s).0, pass, fuel - 1, left - 1, ready);
    }
  }

  // With a step limit every call of the loop comes back: one pass more than there are steps left is
  // enough, whatever is retried, compacted, steered or reviewed in between.
  lemma {:induction false} LoopEnds(s: Session, env: Env, cfg: Config, policy: ToolCall -> Verdict, fuel: nat)
    requires Idle(s, cfg, Counts, 9 * s.steps)
    requires Bounded(cfg) && fuel > cfg.maxSteps.value - s.steps
    ensures !Loop(s, Pass(env, cfg, policy), fuel).1.Again?
  {
    var answering := AnswerWith(env, cfg, policy);
    AnswersSound(env, cfg, policy, Counts);
    var ready := (s1: Session, n: nat) =>
      Idle(s1, cfg, Counts, 9 * s1.steps) && n == cfg.maxSteps.value - s1.steps;
    forall s1, n: nat | ready(s1, n) && Iterate(s1, env, cfg, answering).1.Again?
      ensures n > 0 && ready(Iterate(s1, env, cfg, answering).0, n - 1)
    {
      IterateSound(s1, env, cfg, answering, Counts);
    }
    LoopStops(s, Pass(env, cfg, policy), fuel, cfg.maxSteps.value - s.steps, ready);
  }

  // ---------- Resuming ----------

  // The books with call `i` of the batch in flight, and those before it recorded.
  ghost predicate InFlight(s: Session, calls: seq<ToolCall>, i: nat) {
    && i < |calls| && i <= |s.messages| && Recorded(s, |s.messages| - i, calls, i)
    && Books(s) && D.Running(s.dedupe, calls[i]) && s.trail != []
    && Limited(s.trail, |s.trail| - 1)
    && (RunAt(s.trail, |s.trail| - 1) < D.REPEAT_FORCE_STOP_STREAK ==> Limited(s.trail, |s.trail|))
    && s.pending.None? && !s.finished
  }

  // The user's decision on call `p` is being carried out.
  ghost predicate Deciding(s: Session, cfg: Config, care: Care, p: Pending) {
    && InFlight(s, p.batch, p.index) && p.call == p.batch[p.index] && p.step == s.steps
    && Common(s, cfg, care, 9 * s.steps) && OpenBatch(s.messages, p.batch, p.index, care)
  }

  // Announcing or running the call changes only events and the clock.
  lemma {:induction false} DecidingKept(s: Session, s': Session, cfg: Config, care: Care, p: Pending)
    requires Deciding(s, cfg, care, p)
    requires s' == s.(events := s'.events, clock := s'.clock) && s'.clock.llm == s.clock.llm
    ensures Deciding(s', cfg, care, p)
  {
    InFlightKept(s, s', p.batch, p.index);
  }

  lemma {:induction false} InFlightKept(s: Session, s': Session, calls: seq<ToolCall>, i: nat)
    requires InFlight(s, calls, i) && s' == s.(events := s'.events, clock := s'.clock)
    ensures InFlight(s', calls, i)
  {
    RecordedSame(s, s', |s.messages| - i, calls, i);
  }

  lemma {:induction false} FinalizedFrame(s: Session, callId: string, r: ToolResult)
    ensures var s' := Finalize(s, callId, r).0;
      SameFrame(s, s') && s'.pending == s.pending && s'.finished == s.finished
  {
  }

  lemma {:induction false} AppendedOpen(ms: seq<Message>, r: ToolResult, calls: seq<ToolCall>, i: nat, care: Care)
    requires i < |calls| && (Ordered(care) ==> r.callId == calls[i].id) && OpenBatch(ms, calls, i, care)
    ensures OpenBatch(ms + [ResultMessage(r)], calls, i + 1, care)
  {
    if Keeping(care) {
      GrewByOne(ms, ms + [ResultMessage(r)], ResultMessage(r), calls[i].id);
      OpenNext(ms, ms + [ResultMessage(r)], calls, i, care);
    }
  }

  lemma {:induction false} FinalizedAppends(s: Session, callId: string, r: ToolResult)
    ensures var (s', final) := Finalize(s, callId, r);
      s'.messages == s.messages + [ResultMessage(final)] && final.callId == r.callId
  {
  }

  // Call `i` of the batch is settled in `s'` with the result `final`.
  ghost predicate CallFinal(s: Session, s': Session, final: ToolResult, calls: seq<ToolCall>, i: nat, care: Care) {
    && SameFrame(s, s') && s'.pending.None? && !s'.finished
    && s'.messages == s.messages + [ResultMessage(final)]
    && i < |calls| && (Ordered(care) ==> final.callId == calls[i].id) && i < |s'.messages|
    && Books(s') && D.Settled(s'.dedupe) && Limited(s'.trail, |s'.trail| - 1)
    && (!final.stopTurn ==> Limited(s'.trail, |s'.trail|))
    && Recorded(s', |s'.messages| - (i + 1), calls, i + 1)
  }

  lemma {:induction false} FinalizedCall(s: Session, calls: seq<ToolCall>, i: nat, r: ToolResult, care: Care)
    requires InFlight(s, calls, i) && (Ordered(care) ==> r.callId == calls[i].id)
    ensures var (s', final) := Finalize(s, calls[i].id, r); CallFinal(s, s', final, calls, i, care)
  {
    FinalizedFrame(s, calls[i].id, r);
    FinalizedAppends(s, calls[i].id, r);
    FinalizeRecorded(s, |s.messages| - i, calls, i, r);
  }

  lemma {:induction false} FinalizedPhase(s: Session, callId: string, r: ToolResult)
    requires Watched(s).phase == InCall(s.steps, callId) && r.callId == callId
    ensures Watched(Finalize(s, callId, r).0).phase == InStep(s.steps)
  {
    FinalizeWatched(s, callId, r);
  }

  lemma {:induction false} FinalInBatch(s: Session, s': Session, final: ToolResult, calls: seq<ToolCall>, i: nat,
                                        cfg: Config, care: Care)
    requires CallFinal(s, s', final, calls, i, care) && InPhase(s', InStep(s'.steps), care)
    requires Common(s, cfg, care, 9 * s.steps) && OpenBatch(s.messages, calls, i, care)
    ensures Stopped(s', cfg, care, calls, i + 1)
    ensures !final.stopTurn ==> InBatch(s', cfg, care, calls, i + 1)
  {
    CommonKept(s, s', cfg, care);
    AppendedOpen(s.messages, final, calls, i, care);
  }

  // Call `i` of the batch of a sound state was settled in `s1`.
  ghost predicate FinalAt(s: Session, s1: Session, final: ToolResult, calls: seq<ToolCall>, i: nat, cfg: Config,
                          care: Care)
  {
    && CallFinal(s, s1, final, calls, i, care) && InPhase(s1, InStep(s1.steps), care)
    && Common(s, cfg, care, 9 * s.steps) && OpenBatch(s.messages, calls, i, care)
  }

  lemma {:induction false} DecidedFinal(s: Session, cfg: Config, care: Care, p: Pending, r: ToolResult)
    requires Deciding(s, cfg, care, p) && InPhase(s, InCall(s.steps, p.call.id), care)
    requires Ordered(care) ==> r.callId == p.call.id
    ensures var (s1, final) := Finalize(s, p.call.id, r); FinalAt(s, s1, final, p.batch, p.index, cfg, care)
  {
    FinalizedCall(s, p.batch, p.index, r, care);
    if Ordered(care) { FinalizedPhase(s, p.call.id, r); }
  }

  lemma {:induction false} ResumeSettledSound(s: Session, env: Env, cfg: Config, policy: ToolCall -> Verdict,
                                              p: Pending, r: ToolResult, care: Care)
    requires (Ordered(care) ==> AnswersItsCall(env)) && p.step == s.steps
    requires var (s1, final) := Finalize(s, p.call.id, r); FinalAt(s, s1, final, p.batch, p.index, cfg, care)
    ensures var (s', flow) := ResumeSettled(s, env, cfg, policy, p, r);
      Sound(s', flow, cfg, care) && (flow.Again? ==> s'.steps == s.steps)
  {
    var (s1, final) := Finalize(s, p.call.id, r);
    var (s2, end) := BatchRest(s1, final, CallWith(env, cfg, policy), p);
    CallsSound(env, cfg, policy, care);
    RestSound(s, s1, final, CallWith(env, cfg, policy), cfg, p, care);
    assert s1.steps == p.step;
    AfterBatchSound(s2, end, cfg, care, p.step, p.usage);
  }

  lemma {:induction false} RestSound(s: Session, s1: Session, final: ToolResult, one: Calling, cfg: Config, p: Pending,
                                     care: Care)
    requires CallsSoundly(one, care) && FinalAt(s, s1, final, p.batch, p.index, cfg, care)
    ensures BatchSoundly(cfg, care, s1.steps)(BatchRest(s1, final, one, p))
  {
    FinalInBatch(s, s1, final, p.batch, p.index, cfg, care);
    if final.stopTurn {
      StopRestSound(s1, final, one, cfg, p, care);
    } else {
      GoRestSound(s1, final, one, cfg, p, care);
    }
  }

  lemma {:induction false} StopRestSound(s: Session, final: ToolResult, one: Calling, cfg: Config, p: Pending,
                                         care: Care)
    requires final.stopTurn && p.index < |p.batch| && Stopped(s, cfg, care, p.batch, p.index + 1)
    ensures BatchSoundly(cfg, care, s.steps)(BatchRest(s, final, one, p))
  {
    assert BatchRest(s, final, one, p) == (EndStep(SkipFrom(s, p.batch, p.index + 1)), BatchDone(true));
    SkippedSound(s, cfg, care, p.batch, p.index + 1);
  }

  lemma {:induction false} RestIsBatch(s: Session, final: ToolResult, one: Calling, p: Pending)
    requires !final.stopTurn
    ensures BatchRest(s, final, one, p) == BatchFrom(s, one, p.batch, p.index + 1, s.steps, p.usage)
  {
  }

  lemma {:induction false} GoRestSound(s: Session, final: ToolResult, one: Calling, cfg: Config, p: Pending, care: Care)
    requires CallsSoundly(one, care) && !final.stopTurn
    requires p.index < |p.batch| && InBatch(s, cfg, care, p.batch, p.index + 1)
    ensures BatchSoundly(cfg, care, s.steps)(BatchRest(s, final, one, p))
  {
    RestIsBatch(s, final, one, p);
    BatchSound(s, one, cfg, p.batch, p.index + 1, s.steps, p.usage, care);
  }

  lemma {:induction false} ResumeDecidedSound(s: Session, env: Env, cfg: Config, policy: ToolCall -> Verdict,
                                              p: Pending, decision: Decision, care: Care)
    requires Ordered(care) ==> AnswersItsCall(env)
    requires Deciding(s, cfg, care, p) && InPhase(s, InStep(s.steps), care)
    ensures var (s', flow) := ResumeDecided(s, env, cfg, policy, p, decision);
      Sound(s', flow, cfg, care) && (flow.Again? ==> s'.steps == s.steps)
  {
    match decision
    case Approved =>
      var (s1, result) := RunTool(s, env, p.call, p.batch);
      if Ordered(care) { RunToolWatched(s, env, p.call, p.batch); }
      DecidingKept(s, s1, cfg, care, p);
      if result.None? {
        AbortedSound(s1, cfg, care);
      } else {
        DecidedFinal(s1, cfg, care, p, result.value);
        ResumeSettledSound(s1, env, cfg, policy, p, result.value, care);
      }
    case Rejected(feedback) =>
      AnnouncedSound(s, env, cfg, policy, p, WorkerText(cfg, RejectedText(p.call.name, feedback)), care);
    case DecisionCancelled =>
      AnnouncedSound(s, env, cfg, policy, p, WorkerText(cfg, CancelledText(p.call.name)), care);
  }

  lemma {:induction false} AnnouncedSound(s: Session, env: Env, cfg: Config, policy: ToolCall -> Verdict, p: Pending,
                                          output: string, care: Care)
    requires Ordered(care) ==> AnswersItsCall(env)
    requires Deciding(s, cfg, care, p) && InPhase(s, InStep(s.steps), care)
    ensures var r := ErrorResult(p.call, output);
      var (s', flow) := ResumeSettled(Emit(s, ToolStarted(p.call)), env, cfg, policy, p, r);
      Sound(s', flow, cfg, care) && (flow.Again? ==> s'.steps == s.steps)
  {
    var s1 := Emit(s, ToolStarted(p.call));
    if Ordered(care) { AnnounceWatched(s, p.call); }
    DecidingKept(s, s1, cfg, care, p);
    DecidedFinal(s1, cfg, care, p, ErrorResult(p.call, output));
    ResumeSettledSound(s1, env, cfg, policy, p, ErrorResult(p.call, output), care);
  }

  lemma {:induction false} ResumeStepSound(s: Session, env: Env, cfg: Config, policy: ToolCall -> Verdict,
                                           decision: Decision, care: Care)
    requires (Ordered(care) ==> AnswersItsCall(env)) && Paused(s, cfg, care)
    ensures var (s', flow) := ResumeStep(s, env, cfg, policy, decision);
      Sound(s', flow, cfg, care) && (flow.Again? ==> s'.steps == s.steps)
  {
    var p := s.pending.value;
    var s0 := AskFlag(s.(pending := None));
    if env.flag(s.clock.flags) {
      AbortedSound(s0, cfg, care);
    } else {
      PausedDeciding(s, cfg, care);
      ResumeDecidedSound(Resolved(s0), env, cfg, policy, p, decision, care);
    }
  }

  lemma {:induction false} PausedDeciding(s: Session, cfg: Config, care: Care)
    requires Paused(s, cfg, care)
    ensures var s1 := Resolved(AskFlag(s.(pending := None)));
      Deciding(s1, cfg, care, s.pending.value) && InPhase(s1, InStep(s1.steps), care)
  {
    ResolvedInFlight(s, s.pending.value.batch, s.pending.value.index);
  }

  lemma {:induction false} ResolvedInFlight(s: Session, calls: seq<ToolCall>, i: nat)
    requires Awaiting(s, calls, i) && !s.finished
    ensures InFlight(Resolved(AskFlag(s.(pending := None))), calls, i)
  {
    var s0 := AskFlag(s.(pending := None));
    ResolvedBooks(s0);
    RecordedSame(s, Resolved(s0), |s.messages| - i, calls, i);
  }

  // ---------- Whole runs ----------

  // One `resume` call of the runner: its policy, its decision, and for how many passes it is watched.
  datatype Call = Call(policy: ToolCall -> Verdict, decision: Decision, fuel: nat)

  // `run`, then one `resume` after each request for approval.
  function Play(env: Env, cfg: Config, policy: ToolCall -> Verdict, fuel: nat, resumes: seq<Call>): (Session, Flow)
    decreases |resumes|
  {
    if resumes == [] then Run(env, cfg, policy, fuel)
    else
      var (s, flow) := Play(env, cfg, policy, fuel, resumes[..|resumes| - 1]);
      var next := resumes[|resumes| - 1];
      if flow.Halt? && flow.progress.NeedsApproval? then Resume(s, env, cfg, next.policy, next.decision, next.fuel)
      else (s, flow)
  }

  lemma {:induction false} StartedIdle(cfg: Config, care: Care)
    requires Hist(cfg.input, care)
    ensures Idle(Started(cfg), cfg, care, 0)
  {
    FollowOne(UNWATCHED, [], TurnStarted);
    assert [] + [TurnStarted] == [TurnStarted];
  }

  // Every run, with any number of approval pauses, keeps the invariants at every point where
  // control returns to the caller.
  lemma {:induction false} PlaySound(env: Env, cfg: Config, policy: ToolCall -> Verdict, fuel: nat, resumes: seq<Call>,
                                     care: Care)
    requires Warrants(env, cfg, care)
    ensures var (s, flow) := Play(env, cfg, policy, fuel, resumes); Sound(s, flow, cfg, care)
    decreases |resumes|
  {
    if resumes == [] {
      StartedIdle(cfg, care);
      LoopSound(Started(cfg), env, cfg, policy, fuel, care);
    } else {
      var (s, flow) := Play(env, cfg, policy, fuel, resumes[..|resumes| - 1]);
      var next := resumes[|resumes| - 1];
      PlaySound(env, cfg, policy, fuel, resumes[..|resumes| - 1], care);
      if flow.Halt? && flow.progress.NeedsApproval? {
        ResumeStepSound(s, env, cfg, next.policy, next.decision, care);
        var (s1, flow1) := ResumeStep(s, env, cfg, next.policy, next.decision);
        if flow1.Again? {
          LoopSound(s1, env, cfg, next.policy, next.fuel, care);
        }
      }
    }
  }

  // Every step request of every run is closed, and with distinct ids the repair changes none of them.
  lemma {:induction false} EveryRequestIsClosed(env: Env, cfg: Config, policy: ToolCall -> Verdict, fuel: nat,
                                                resumes: seq<Call>, distinct: bool)
    requires Warrants(env, cfg, if distinct then Exact else Kept)
    ensures var s := Play(env, cfg, policy, fuel, resumes).0;
      forall k :: 0 <= k < |s.requests| ==>
        Closed(s.requests[k].sent) && (distinct ==> s.requests[k].sent == s.requests[k].assembled)
  {
    PlaySound(env, cfg, policy, fuel, resumes, if distinct then Exact else Kept);
  }

  // On any input and with any executors: the request sent is closed exactly if no id is declared again
  // in it while its call is open, and is what was assembled exactly if that was closed.
  lemma {:induction false} EveryRequestIsRepaired(env: Env, cfg: Config, policy: ToolCall -> Verdict, fuel: nat,
                                                  resumes: seq<Call>, k: nat)
    requires k < |Play(env, cfg, policy, fuel, resumes).0.requests|
    ensures var request := Play(env, cfg, policy, fuel, resumes).0.requests[k];
      && request.sent == Repair(request.assembled)
      && (Closed(request.sent) <==> NoReopen(request.assembled, {}))
      && (request.sent == request.assembled <==> Closed(request.assembled))
  {
    PlaySound(env, cfg, policy, fuel, resumes, Counts);
    var request := Play(env, cfg, policy, fuel, resumes).0.requests[k];
    assert RequestMade(request, Counts);
    RepairedIsClosedIff(request.assembled, {});
    FixedIff(request.assembled);
  }

  // With at most `m` steps a turn, every call of `run` and `resume` that may make `m + 1` passes comes
  // back, after at most `m` steps and `9 * m` model calls in all.
  lemma {:induction false} EveryTurnIsBounded(env: Env, cfg: Config, policy: ToolCall -> Verdict, fuel: nat,
                                              resumes: seq<Call>)
    requires Bounded(cfg)
    requires fuel > cfg.maxSteps.value && forall k :: 0 <= k < |resumes| ==> resumes[k].fuel > cfg.maxSteps.value
    ensures var (s, flow) := Play(env, cfg, policy, fuel, resumes);
      flow.Halt? && s.steps <= cfg.maxSteps.value && s.clock.llm <= 9 * cfg.maxSteps.value
    decreases |resumes|
  {
    PlaySound(env, cfg, policy, fuel, resumes, Counts);
    if resumes == [] {
      StartedIdle(cfg, Counts);
      LoopEnds(Started(cfg), env, cfg, policy, fuel);
    } else {
      var earlier := resumes[..|resumes| - 1];
      EveryTurnIsBounded(env, cfg, policy, fuel, earlier);
      PlaySound(env, cfg, policy, fuel, earlier, Counts);
      var (s, flow) := Play(env, cfg, policy, fuel, earlier);
      if flow.progress.NeedsApproval? {
        ResumedComesBack(s, env, cfg, resumes[|resumes| - 1]);
      }
    }
  }

  lemma {:induction false} ResumedComesBack(s: Session, env: Env, cfg: Config, next: Call)
    requires Paused(s, cfg, Counts) && Bounded(cfg) && next.fuel > cfg.maxSteps.value
    ensures Resume(s, env, cfg, next.policy, next.decision, next.fuel).1.Halt?
  {
    ResumeStepSound(s, env, cfg, next.policy, next.decision, Counts);
    var (s1, flow) := ResumeStep(s, env, cfg, next.policy, next.decision);
    if flow.Again? { LoopEnds(s1, env, cfg, next.policy, next.fuel); }
  }

  // In every run, finished or not, the k-th step to start has number k, and no step is completed or
  // interrupted twice.
  lemma {:induction false} EventsInOrder(env: Env, cfg: Config, policy: ToolCall -> Verdict, fuel: nat,
                                         resumes: seq<Call>)
    requires AnswersItsCall(env)
    ensures var events := Play(env, cfg, policy, fuel, resumes).0.events;
      StepsNumbered(events) && StepsEndOnce(events)
  {
    PlaySound(env, cfg, policy, fuel, resumes, Order);
    var (s, flow) := Play(env, cfg, policy, fuel, resumes);
    SoundUnbroken(s, flow, cfg);
    UnbrokenSteps(s.events);
  }

  lemma {:induction false} SoundUnbroken(s: Session, flow: Flow, cfg: Config)
    requires Sound(s, flow, cfg, Order)
    ensures !Watched(s).phase.Broken?
  {
  }

  ghost predicate WholeTurn(events: seq<Event>) {
    && events != [] && events[0].TurnStarted?
    && events[|events| - 1].TurnEnded? && events[|events| - 1].steersRefused
    && (forall k :: 0 <= k < |events| - 1 ==> !events[k].TurnEnded?)
    && (forall k :: 0 < k < |events| ==> !events[k].TurnStarted?)
    && StepsNumbered(events) && StepsEndOnce(events)
  }

  // A turn that is over started once, first, and ended once, last, with steers refused by then; its
  // steps are numbered, and each ended at most once.
  lemma {:induction false} FinishedTurnEvents(env: Env, cfg: Config, policy: ToolCall -> Verdict, fuel: nat,
                                              resumes: seq<Call>)
    requires AnswersItsCall(env)
    requires var flow := Play(env, cfg, policy, fuel, resumes).1; flow.Halt? && flow.progress.TurnOver?
    ensures var s := Play(env, cfg, policy, fuel, resumes).0; s.finished && WholeTurn(s.events)
  {
    PlaySound(env, cfg, policy, fuel, resumes, Order);
    DoneEnds(Play(env, cfg, policy, fuel, resumes).0.events);
    EventsInOrder(env, cfg, policy, fuel, resumes);
  }

  // What a caller of `run` and `resume` can rely on at every return.
  ghost predicate Reliable(s: Session, flow: Flow, env: Env, cfg: Config) {
    && (Bounded(cfg) ==> s.steps <= cfg.maxSteps.value && s.clock.llm <= 9 * cfg.maxSteps.value)
    && (flow.Halt? && flow.progress.NeedsApproval? ==> s.pending.Some? && s.pending.value.call == flow.progress.call)
    && (flow.Halt? && flow.progress.TurnOver? ==> s.finished && s.pending.None?)
    && RequestsMade(s, if AnswersItsCall(env) && Answered(cfg.input) then Kept else Counts)
    && (AnswersItsCall(env) ==> EventsReliable(s, flow))
  }

  ghost predicate EventsReliable(s: Session, flow: Flow) {
    && StepsNumbered(s.events) && StepsEndOnce(s.events)
    && (flow.Halt? && flow.progress.TurnOver? ==> WholeTurn(s.events))
  }

  lemma {:induction false} PlayReliable(env: Env, cfg: Config, policy: ToolCall -> Verdict, fuel: nat,
                                        resumes: seq<Call>)
    ensures var (s, flow) := Play(env, cfg, policy, fuel, resumes); Reliable(s, flow, env, cfg)
  {
    var (s, flow) := Play(env, cfg, policy, fuel, resumes);
    var care := if AnswersItsCall(env) && Answered(cfg.input) then Kept else Counts;
    PlaySound(env, cfg, policy, fuel, resumes, care);
    SoundMade(s, flow, cfg, care);
    if AnswersItsCall(env) {
      EventsInOrder(env, cfg, policy, fuel, resumes);
      if flow.Halt? && flow.progress.TurnOver? { FinishedTurnEvents(env, cfg, policy, fuel, resumes); }
    }
  }

  lemma {:induction false} SoundMade(s: Session, flow: Flow, cfg: Config, care: Care)
    requires Sound(s, flow, cfg, care)
    ensures RequestsMade(s, care)
    ensures Bounded(cfg) ==> s.steps <= cfg.maxSteps.value && s.clock.llm <= 9 * cfg.maxSteps.value
    ensures flow.Halt? && flow.progress.NeedsApproval? ==>
              s.pending.Some? && s.pending.value.call == flow.progress.call
    ensures flow.Halt? && flow.progress.TurnOver? ==> s.finished && s.pending.None?
  {
  }

  predicate SameKeys(trail: seq<Trace>, a: nat, b: nat)
    requires a <= b <= |trail|
  {
    forall j :: a <= j < b ==> trail[j].key == trail[a].key
  }

  // In every run, a stretch of identical consecutive calls is run or decided at most twelve times.
  lemma {:induction false} AtMostTwelveInARow(env: Env, cfg: Config, policy: ToolCall -> Verdict, fuel: nat,
                                              resumes: seq<Call>, a: nat, b: nat)
    ensures var trail := Play(env, cfg, policy, fuel, resumes).0.trail;
      a <= b <= |trail| && SameKeys(trail, a, b) ==> CountResolved(trail, a, b) <= 12
  {
    PlaySound(env, cfg, policy, fuel, resumes, Counts);
    var trail := Play(env, cfg, policy, fuel, resumes).0.trail;
    if a <= b <= |trail| && SameKeys(trail, a, b) {
      RunAtMostTwelve(trail, a, b);
    }
  }

  // In every run, a call that was run or decided as the twelfth of its run, or later, was the last of
  // the turn: the turn is over, and no call was checked after it.
  lemma {:induction false} TwelfthEndsTheTurn(env: Env, cfg: Config, policy: ToolCall -> Verdict, fuel: nat,
                                              resumes: seq<Call>, k: nat)
    requires var trail := Play(env, cfg, policy, fuel, resumes).0.trail;
      k < |trail| && trail[k].resolved && RunAt(trail, k) >= D.REPEAT_FORCE_STOP_STREAK
    ensures var (s, flow) := Play(env, cfg, policy, fuel, resumes);
      k == |s.trail| - 1 && flow.Halt? && flow.progress.TurnOver?
  {
    PlaySound(env, cfg, policy, fuel, resumes, Counts);
    var (s, flow) := Play(env, cfg, policy, fuel, resumes);
    SoundLimited(s, flow, cfg);
  }

  lemma {:induction false} SoundLimited(s: Session, flow: Flow, cfg: Config)
    requires Sound(s, flow, cfg, Counts)
    ensures Limited(s.trail, |s.trail| - 1)
    ensures !(flow.Halt? && flow.progress.TurnOver?) ==> Limited(s.trail, |s.trail|)
  {
  }
}
