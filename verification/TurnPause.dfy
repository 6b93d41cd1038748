// An approval pause is invisible: a run that pauses at each call its policy asks about and is
// resumed with an approval does what a run whose policy approved those calls outright does. The
// exception is the retry counter, which only the step that is not paused resets.
module TurnPause {
  import opened Wrappers
  import opened Tools
  import opened Turn

  // `outright` approves at once what `policy` asks about, and decides the rest in the same way.
  ghost predicate Anticipates(outright: ToolCall -> Verdict, policy: ToolCall -> Verdict) {
    forall call :: outright(call) == if policy(call).Ask? then Approve else policy(call)
  }

  // The stop flag is never seen set. Races may still be lost to a cancellation.
  ghost predicate NeverFlagged(env: Env) {
    forall n :: !env.flag(n)
  }

  // Equal but for the retry counter and for how often the stop flag was looked at.
  predicate Like(s: Session, t: Session) {
    s == t.(retries := s.retries, clock := t.clock.(flags := s.clock.flags))
  }

  predicate Same(s: Session, t: Session) {
    Like(s, t) && s.retries == t.retries
  }

  // With `counter`, the retry counters agree as well.
  predicate Near(counter: bool, s: Session, t: Session) {
    Like(s, t) && (counter ==> s.retries == t.retries)
  }

  predicate NearFlow(counter: bool, a: (Session, Flow), b: (Session, Flow)) {
    Near(counter, a.0, b.0) && a.1 == b.1
  }

  predicate LikeCall(a: (Session, CallEnd), b: (Session, CallEnd)) {
    Like(a.0, b.0) && a.1 == b.1
  }

  predicate LikeBatch(a: (Session, BatchEnd), b: (Session, BatchEnd)) {
    Like(a.0, b.0) && a.1 == b.1
  }

  predicate LikeFlow(a: (Session, Flow), b: (Session, Flow)) {
    Like(a.0, b.0) && a.1 == b.1
  }

  predicate SameFlow(a: (Session, Flow), b: (Session, Flow)) {
    Same(a.0, b.0) && a.1 == b.1
  }

  predicate Asks(end: BatchEnd) {
    end.BatchLeft? && end.progress.NeedsApproval?
  }

  predicate Waits(flow: Flow) {
    flow.Halt? && flow.progress.NeedsApproval?
  }

  // ---------- One call ----------

  // What follows in a batch once call `i` ended with `r`.
  function AfterCall(r: (Session, CallEnd), one: Calling, calls: seq<ToolCall>, i: nat, step: nat,
                     usage: Usage): (Session, BatchEnd)
  {
    match r.1
    case Goes => BatchFrom(r.0, one, calls, i + 1, step, usage)
    case Stops => (EndStep(SkipFrom(r.0, calls, i + 1)), BatchDone(true))
    case Leaves(progress) => (r.0, BatchLeft(progress))
  }

  // What the batch of a pending call does if that call is approved.
  function BatchContinued(s: Session, env: Env, one: Calling): (Session, BatchEnd)
    requires s.pending.Some?
  {
    var p := s.pending.value;
    AfterCall(ApprovedCall(s.(pending := None), env, p.call, p.batch, p.step), one, p.batch, p.index, p.step, p.usage)
  }

  lemma {:induction false} FinalizeLike(s: Session, t: Session, callId: string, r: ToolResult)
    requires Like(s, t)
    ensures Like(Finalize(s, callId, r).0, Finalize(t, callId, r).0)
    ensures Finalize(s, callId, r).1 == Finalize(t, callId, r).1
    ensures Keeps(s, Finalize(s, callId, r).0) && Finalize(s, callId, r).0.pending == s.pending
  {
  }

  lemma {:induction false} ApprovedLike(s: Session, t: Session, env: Env, call: ToolCall, batch: seq<ToolCall>,
                                        step: nat)
    requires Like(s, t)
    ensures LikeCall(ApprovedCall(s, env, call, batch, step), ApprovedCall(t, env, call, batch, step))
    ensures var (s', end) := ApprovedCall(s, env, call, batch, step);
      Keeps(s, s') && s'.pending == s.pending && !(end.Leaves? && end.progress.NeedsApproval?)
  {
    var (s1, result) := RunTool(Resolved(s), env, call, batch);
    var (t1, same) := RunTool(Resolved(t), env, call, batch);
    assert Like(s1, t1) && result == same && Keeps(s, s1) && s1.pending == s.pending;
    if result.Some? {
      FinalizeLike(s1, t1, call.id, result.value);
    }
  }

  lemma {:induction false} DeniedLike(s: Session, t: Session, cfg: Config, call: ToolCall, reason: string)
    requires Like(s, t)
    ensures LikeCall(DeniedCall(s, cfg, call, reason), DeniedCall(t, cfg, call, reason))
    ensures var s' := DeniedCall(s, cfg, call, reason).0; Keeps(s, s') && s'.pending == s.pending
  {
    FinalizeLike(Emit(s, ToolStarted(call)), Emit(t, ToolStarted(call)), call.id,
                 ErrorResult(call, WorkerText(cfg, reason)));
  }

  // A call goes the same way under both policies, or one run pauses where the other runs the call.
  predicate CallTwins(a: (Session, CallEnd), b: (Session, CallEnd), env: Env, s: Session, p: Pending) {
    && Keeps(s, a.0)
    && !(b.1.Leaves? && b.1.progress.NeedsApproval?)
    && (if a.1.Leaves? && a.1.progress.NeedsApproval? then
          a.0.pending == Some(p) && LikeCall(ApprovedCall(a.0.(pending := None), env, p.call, p.batch, p.step), b)
        else a.0.pending.None? && LikeCall(a, b))
  }

  // Two ways of dealing with calls that differ only by pauses.
  ghost predicate CallAlike(x: Calling, y: Calling, env: Env) {
    forall s, t, p :: Like(s, t) && s.pending.None? ==> CallTwins(x(s, p), y(t, p), env, s, p)
  }

  lemma {:induction false} OneCallTwins(s: Session, t: Session, env: Env, cfg: Config, policy: ToolCall -> Verdict,
                                        outright: ToolCall -> Verdict, p: Pending)
    requires NeverFlagged(env) && Anticipates(outright, policy) && Like(s, t) && s.pending.None?
    ensures CallTwins(OneCall(s, env, cfg, policy, p), OneCall(t, env, cfg, outright, p), env, s, p)
  {
    var (s1, duplicate) := Checked(AskFlag(s), p.call);
    var (t1, _) := Checked(AskFlag(t), p.call);
    assert Like(s1, t1);
    if !duplicate {
      match policy(p.call)
      case Deny(reason) => DeniedLike(s1, t1, cfg, p.call, reason);
      case _ =>
        ApprovedLike(s1, t1, env, p.call, p.batch, p.step);
        ApprovedLike(t1, t1, env, p.call, p.batch, p.step);
    }
  }

  lemma {:induction false} CallsAlike(env: Env, cfg: Config, policy: ToolCall -> Verdict, outright: ToolCall -> Verdict)
    requires NeverFlagged(env) && Anticipates(outright, policy)
    ensures CallAlike(CallWith(env, cfg, policy), CallWith(env, cfg, outright), env)
  {
    forall s, t, p | Like(s, t) && s.pending.None?
      ensures CallTwins(OneCall(s, env, cfg, policy, p), OneCall(t, env, cfg, outright, p), env, s, p)
    {
      OneCallTwins(s, t, env, cfg, policy, outright, p);
    }
  }

  // ---------- A batch ----------

  lemma {:induction false} SkipLike(s: Session, t: Session, calls: seq<ToolCall>, i: nat)
    requires Like(s, t)
    ensures Like(SkipFrom(s, calls, i), SkipFrom(t, calls, i))
    ensures Keeps(s, SkipFrom(s, calls, i)) && SkipFrom(s, calls, i).pending == s.pending
    decreases |calls| - i
  {
    if i < |calls| {
      var r := ErrorResult(calls[i], TOOL_SKIPPED);
      SkipLike(SettleNow(s, calls[i], r), SettleNow(t, calls[i], r), calls, i + 1);
    }
  }

  predicate IsPending(p: Pending, calls: seq<ToolCall>, step: nat, usage: Usage) {
    p.index < |calls| && p == Pending(calls[p.index], calls, p.index, step, usage)
  }

  predicate Keeps(s: Session, s': Session) {
    s'.retries == s.retries && s'.steps == s.steps
  }

  // The run `a` of a batch from `s` may have paused, `b` being the other's: continuing it with
  // approvals leads to `b`.
  predicate BatchTwins(a: (Session, BatchEnd), b: (Session, BatchEnd), env: Env, y: Calling,
                       s: Session, calls: seq<ToolCall>, step: nat, usage: Usage)
  {
    && Keeps(s, a.0) && !Asks(b.1)
    && (if Asks(a.1) then
          && a.0.pending.Some? && IsPending(a.0.pending.value, calls, step, usage)
          && LikeBatch(BatchContinued(a.0, env, y), b)
        else a.0.pending.None? && LikeBatch(a, b))
  }

  lemma {:induction false} AfterCallTwins(a: (Session, CallEnd), b: (Session, CallEnd), env: Env, x: Calling,
                                          y: Calling, calls: seq<ToolCall>, i: nat, step: nat, usage: Usage)
    requires CallAlike(x, y, env)
    requires i < |calls| && LikeCall(a, b) && a.0.pending.None? && !(a.1.Leaves? && a.1.progress.NeedsApproval?)
    ensures BatchTwins(AfterCall(a, x, calls, i, step, usage), AfterCall(b, y, calls, i, step, usage),
                       env, y, a.0, calls, step, usage)
    decreases |calls| - i, 0
  {
    if a.1.Goes? {
      BatchFromTwins(a.0, b.0, env, x, y, calls, i + 1, step, usage);
    } else if a.1.Stops? {
      SkipLike(a.0, b.0, calls, i + 1);
    }
  }

  lemma {:induction false} BatchFromTwins(s: Session, t: Session, env: Env, x: Calling, y: Calling,
                                          calls: seq<ToolCall>, i: nat, step: nat, usage: Usage)
    requires CallAlike(x, y, env) && Like(s, t) && s.pending.None?
    ensures BatchTwins(BatchFrom(s, x, calls, i, step, usage), BatchFrom(t, y, calls, i, step, usage),
                       env, y, s, calls, step, usage)
    decreases |calls| - i, 1
  {
    if i < |calls| {
      var p := Pending(calls[i], calls, i, step, usage);
      var a, b := x(s, p), y(t, p);
      assert CallTwins(a, b, env, s, p);
      if a.1.Leaves? && a.1.progress.NeedsApproval? {
        var s1 := a.0.(pending := None);
        ApprovedLike(s1, s1, env, p.call, p.batch, p.step);
        AfterCallLike(ApprovedCall(s1, env, p.call, p.batch, p.step), b, env, x, y, calls, i, step, usage);
      } else {
        AfterCallTwins(a, b, env, x, y, calls, i, step, usage);
      }
    }
  }

  lemma {:induction false} OutrightAlike(s: Session, t: Session, x: Calling, y: Calling, env: Env, p: Pending)
    requires CallAlike(x, y, env) && Like(s, t) && s.pending.None?
    ensures LikeCall(y(s, p), y(t, p)) && y(s, p).0.pending.None?
    ensures !(y(s, p).1.Leaves? && y(s, p).1.progress.NeedsApproval?)
  {
    var a := x(s, p);
    assert CallTwins(a, y(s, p), env, s, p);
    assert CallTwins(a, y(t, p), env, s, p);
    if a.1.Leaves? && a.1.progress.NeedsApproval? {
      var s1 := a.0.(pending := None);
      ApprovedLike(s1, s1, env, p.call, p.batch, p.step);
    }
  }

  // Where one way of dealing with calls never pauses, like states lead to like ends.
  lemma {:induction false} AfterCallLike(a: (Session, CallEnd), b: (Session, CallEnd), env: Env, x: Calling, y: Calling,
                                         calls: seq<ToolCall>, i: nat, step: nat, usage: Usage)
    requires CallAlike(x, y, env) && i < |calls| && LikeCall(a, b)
    requires a.0.pending.None? && !(a.1.Leaves? && a.1.progress.NeedsApproval?)
    ensures LikeBatch(AfterCall(a, y, calls, i, step, usage), AfterCall(b, y, calls, i, step, usage))
    ensures !Asks(AfterCall(b, y, calls, i, step, usage).1)
    decreases |calls| - i
  {
    if a.1.Goes? {
      if i + 1 < |calls| {
        var p := Pending(calls[i + 1], calls, i + 1, step, usage);
        OutrightAlike(a.0, b.0, x, y, env, p);
        AfterCallLike(y(a.0, p), y(b.0, p), env, x, y, calls, i + 1, step, usage);
      }
    } else if a.1.Stops? {
      SkipLike(a.0, b.0, calls, i + 1);
    }
  }

  // ---------- resume ----------

  // What the pass of a pending call does if that call is approved.
  function ContinuedPass(s: Session, env: Env, one: Calling): (Session, Flow)
    requires s.pending.Some?
  {
    var (s1, end) := BatchContinued(s, env, one);
    AfterBatch(s1, end, s.pending.value.step, s.pending.value.usage)
  }

  predicate PendingHere(s: Session) {
    s.pending.Some? && IsPending(s.pending.value, s.pending.value.batch, s.steps, s.pending.value.usage)
  }

  predicate FlowTwins(a: (Session, Flow), b: (Session, Flow), env: Env, y: Calling) {
    && !Waits(b.1)
    && (if Waits(a.1) then PendingHere(a.0) && LikeFlow(ContinuedPass(a.0, env, y), b)
        else a.0.pending.None? && LikeFlow(a, b))
  }

  lemma {:induction false} AfterBatchTwins(s: Session, a: (Session, BatchEnd), b: (Session, BatchEnd), env: Env,
                                           y: Calling, calls: seq<ToolCall>, usage: Usage)
    requires BatchTwins(a, b, env, y, s, calls, s.steps, usage)
    ensures FlowTwins(AfterBatch(a.0, a.1, s.steps, usage), AfterBatch(b.0, b.1, s.steps, usage), env, y)
    ensures Keeps(s, AfterBatch(a.0, a.1, s.steps, usage).0)
  {
  }

  // A paused call that is approved goes on as it would have gone on without the pause.
  lemma {:induction false} ResumeTwins(s: Session, env: Env, cfg: Config, policy: ToolCall -> Verdict, y: Calling)
    requires NeverFlagged(env) && CallAlike(CallWith(env, cfg, policy), y, env) && PendingHere(s)
    ensures FlowTwins(ResumeStep(s, env, cfg, policy, Approved), ContinuedPass(s, env, y), env, y)
    ensures Keeps(s, ResumeStep(s, env, cfg, policy, Approved).0)
  {
    var p := s.pending.value;
    var x := CallWith(env, cfg, policy);
    var s0 := AskFlag(s.(pending := None));
    var t0 := s.(pending := None);
    var a := ApprovedCall(s0, env, p.call, p.batch, p.step);
    var b := ApprovedCall(t0, env, p.call, p.batch, p.step);
    ApprovedLike(s0, t0, env, p.call, p.batch, p.step);
    AfterCallTwins(a, b, env, x, y, p.batch, p.index, p.step, p.usage);
    var c := AfterCall(a, x, p.batch, p.index, p.step, p.usage);
    AfterBatchTwins(s, c, AfterCall(b, y, p.batch, p.index, p.step, p.usage), env, y, p.batch, p.usage);
    ResumedIsAfterCall(s, env, cfg, policy);
  }

  // Resuming with an approval runs the call and the rest of its batch.
  lemma {:induction false} ResumedIsAfterCall(s: Session, env: Env, cfg: Config, policy: ToolCall -> Verdict)
    requires NeverFlagged(env) && PendingHere(s)
    ensures var p := s.pending.value;
      var r := ApprovedCall(AskFlag(s.(pending := None)), env, p.call, p.batch, p.step);
      var (s1, end) := AfterCall(r, CallWith(env, cfg, policy), p.batch, p.index, p.step, p.usage);
      ResumeStep(s, env, cfg, policy, Approved) == AfterBatch(s1, end, p.step, p.usage)
  {
    var p := s.pending.value;
    var (s1, result) := RunTool(Resolved(AskFlag(s.(pending := None))), env, p.call, p.batch);
    assert s1.steps == p.step;
    if result.Some? {
      SettledIsAfterCall(s1, env, cfg, policy, p, result.value);
    }
  }

  lemma {:induction false} SettledIsAfterCall(s: Session, env: Env, cfg: Config, policy: ToolCall -> Verdict,
                                              p: Pending, r: ToolResult)
    requires s.steps == p.step
    ensures var (s1, final) := Finalize(s, p.call.id, r);
      var (s2, end) := AfterCall((s1, if final.stopTurn then Stops else Goes), CallWith(env, cfg, policy),
                                 p.batch, p.index, p.step, p.usage);
      ResumeSettled(s, env, cfg, policy, p, r) == AfterBatch(s2, end, p.step, p.usage)
  {
    assert Finalize(s, p.call.id, r).0.steps == p.step;
  }

  // ---------- A step ----------

  // Approve every call the run pauses at, at most `n` of them, up to the next pass of the loop.
  function Through(r: (Session, Flow), approve: Session -> (Session, Flow), n: nat): (Session, Flow)
    decreases n
  {
    if n == 0 || !Waits(r.1) then r else Through(approve(r.0), approve, n - 1)
  }

  function Approval(env: Env, cfg: Config, policy: ToolCall -> Verdict): Session -> (Session, Flow) {
    s => ResumeStep(s, env, cfg, policy, Approved)
  }

  lemma {:induction false} ThroughKeeps(r: (Session, Flow), approve: Session -> (Session, Flow), n: nat,
                                        keeps: ((Session, Flow)) -> bool)
    requires keeps(r) && forall a :: keeps(a) && Waits(a.1) ==> keeps(approve(a.0))
    ensures keeps(Through(r, approve, n))
    decreases n
  {
    if n > 0 && Waits(r.1) {
      ThroughKeeps(approve(r.0), approve, n - 1, keeps);
    }
  }

  lemma {:induction false} ResumedOn(s: Session, b: (Session, Flow), env: Env, cfg: Config, policy: ToolCall -> Verdict,
                                     y: Calling)
    requires NeverFlagged(env) && CallAlike(CallWith(env, cfg, policy), y, env) && PendingHere(s)
    requires LikeFlow(ContinuedPass(s, env, y), b)
    ensures FlowTwins(ResumeStep(s, env, cfg, policy, Approved), b, env, y)
    ensures Keeps(s, ResumeStep(s, env, cfg, policy, Approved).0)
  {
    ResumeTwins(s, env, cfg, policy, y);
    TwinsOn(ResumeStep(s, env, cfg, policy, Approved), ContinuedPass(s, env, y), b, env, y);
  }

  lemma {:induction false} TwinsOn(a: (Session, Flow), b: (Session, Flow), c: (Session, Flow), env: Env, y: Calling)
    requires FlowTwins(a, b, env, y) && LikeFlow(b, c)
    ensures FlowTwins(a, c, env, y)
  {
    if Waits(a.1) {
      LikeOn(ContinuedPass(a.0, env, y).0, b.0, c.0);
    } else {
      LikeOn(a.0, b.0, c.0);
    }
  }

  lemma {:induction false} LikeOn(s: Session, t: Session, u: Session)
    requires Like(s, t) && Like(t, u)
    ensures Like(s, u)
  {
  }

  lemma {:induction false} ThroughTwins(a: (Session, Flow), b: (Session, Flow), env: Env, cfg: Config,
                                        policy: ToolCall -> Verdict, y: Calling, n: nat)
    requires NeverFlagged(env) && CallAlike(CallWith(env, cfg, policy), y, env) && FlowTwins(a, b, env, y)
    ensures FlowTwins(Through(a, Approval(env, cfg, policy), n), b, env, y)
    ensures Keeps(a.0, Through(a, Approval(env, cfg, policy), n).0)
  {
    var keeps := (r: (Session, Flow)) => FlowTwins(r, b, env, y) && Keeps(a.0, r.0);
    forall r: (Session, Flow) | keeps(r) && Waits(r.1)
      ensures keeps(ResumeStep(r.0, env, cfg, policy, Approved))
    {
      ResumedOn(r.0, b, env, cfg, policy, y);
    }
    ThroughKeeps(a, Approval(env, cfg, policy), n, keeps);
  }

  function ToolsEnd(a: (Session, BatchEnd), step: nat, usage: Usage): (Session, Flow) {
    AfterBatch(if a.1.BatchDone? then a.0.(retries := 0) else a.0, a.1, step, usage)
  }

  predicate ToolsAgree(counter: bool, s: Session, t: Session, a: (Session, Flow), b: (Session, Flow),
                       env: Env, y: Calling)
  {
    && FlowTwins(a, b, env, y)
    && (b.1.Again? ==> b.0.retries == 0)
    && (if Waits(a.1) then a.0.retries == s.retries && (b.0.retries == 0 || b.0.retries == t.retries)
        else NearFlow(counter, a, b))
  }

  lemma {:induction false} ToolsEndAgree(counter: bool, s: Session, t: Session, a: (Session, BatchEnd),
                                         b: (Session, BatchEnd), env: Env, y: Calling, calls: seq<ToolCall>,
                                         usage: Usage)
    requires BatchTwins(a, b, env, y, s, calls, s.steps, usage) && Keeps(t, b.0) && Near(counter, s, t)
    ensures ToolsAgree(counter, s, t, ToolsEnd(a, s.steps, usage), ToolsEnd(b, s.steps, usage), env, y)
  {
    AfterBatchTwins(s, a, b, env, y, calls, usage);
    if Asks(a.1) {
      AfterBatchCounters(b, s.steps, usage);
    } else {
      ToolsEndNear(counter, a, b, s.steps, usage);
    }
  }

  lemma {:induction false} AfterBatchCounters(b: (Session, BatchEnd), step: nat, usage: Usage)
    ensures ToolsEnd(b, step, usage).1.Again? ==> ToolsEnd(b, step, usage).0.retries == 0
    ensures ToolsEnd(b, step, usage).0.retries == 0 || ToolsEnd(b, step, usage).0.retries == b.0.retries
  {
  }

  lemma {:induction false} ToolsEndNear(counter: bool, a: (Session, BatchEnd), b: (Session, BatchEnd), step: nat,
                                        usage: Usage)
    requires LikeBatch(a, b) && (counter ==> a.0.retries == b.0.retries)
    ensures NearFlow(counter, ToolsEnd(a, step, usage), ToolsEnd(b, step, usage))
    ensures ToolsEnd(b, step, usage).1.Again? ==> ToolsEnd(b, step, usage).0.retries == 0
  {
  }

  // A step with calls under both policies: it is not paused under the second, and where it is not
  // under the first, both end alike.
  lemma {:induction false} ToolsTwins(counter: bool, s: Session, t: Session, env: Env, cfg: Config,
                                      policy: ToolCall -> Verdict, outright: ToolCall -> Verdict, calls: seq<ToolCall>,
                                      text: string, usage: Usage)
    requires NeverFlagged(env) && Anticipates(outright, policy) && Near(counter, s, t) && s.pending.None?
    ensures ToolsAgree(counter, s, t, StepTools(s, env, cfg, policy, calls, text, usage),
                       StepTools(t, env, cfg, outright, calls, text, usage), env, CallWith(env, cfg, outright))
  {
    var x, y := CallWith(env, cfg, policy), CallWith(env, cfg, outright);
    var s0 := s.(messages := s.messages + [Asking(calls, text)]);
    var t0 := t.(messages := t.messages + [Asking(calls, text)]);
    var a := BatchFrom(s0, x, calls, 0, s.steps, usage);
    var b := BatchFrom(t0, y, calls, 0, s.steps, usage);
    CallsAlike(env, cfg, policy, outright);
    BatchFromTwins(s0, t0, env, x, y, calls, 0, s.steps, usage);
    CallsAlike(env, cfg, outright, outright);
    BatchFromTwins(t0, t0, env, y, y, calls, 0, s.steps, usage);
    ToolsEndAgree(counter, s0, t0, a, b, env, y, calls, usage);
  }

  // A pause, if there is one, is at a call of the batch from `i` on.
  predicate PausesBeyond(s: Session, asks: bool, calls: seq<ToolCall>, i: nat, step: nat, usage: Usage) {
    asks ==> s.pending.Some? && IsPending(s.pending.value, calls, step, usage) && i <= s.pending.value.index
  }

  lemma {:induction false} BatchPausesBeyond(s: Session, env: Env, cfg: Config, policy: ToolCall -> Verdict,
                                             calls: seq<ToolCall>, i: nat, step: nat, usage: Usage)
    ensures var (s', end) := BatchFrom(s, CallWith(env, cfg, policy), calls, i, step, usage);
      s'.steps == s.steps && PausesBeyond(s', Asks(end), calls, i, step, usage)
    decreases |calls| - i
  {
    if i < |calls| {
      var p := Pending(calls[i], calls, i, step, usage);
      var (s1, end) := OneCall(s, env, cfg, policy, p);
      OneCallPauses(s, env, cfg, policy, p);
      if end.Goes? {
        BatchPausesBeyond(s1, env, cfg, policy, calls, i + 1, step, usage);
      } else if end.Stops? {
        SkipLike(s1, s1, calls, i + 1);
      }
    }
  }

  lemma {:induction false} OneCallPauses(s: Session, env: Env, cfg: Config, policy: ToolCall -> Verdict, p: Pending)
    ensures var (s', end) := OneCall(s, env, cfg, policy, p);
      s'.steps == s.steps && (end.Leaves? && end.progress.NeedsApproval? ==> s'.pending == Some(p))
  {
  }

  lemma {:induction false} AfterBatchPauses(s: Session, end: BatchEnd, calls: seq<ToolCall>, i: nat, step: nat,
                                            usage: Usage)
    requires PausesBeyond(s, Asks(end), calls, i, step, usage)
    ensures var (s', flow) := AfterBatch(s, end, step, usage);
      s'.steps == s.steps && PausesBeyond(s', Waits(flow), calls, i, step, usage)
  {
  }

  lemma {:induction false} AfterCallPauses(r: (Session, CallEnd), env: Env, cfg: Config, policy: ToolCall -> Verdict,
                                           calls: seq<ToolCall>, i: nat, step: nat, usage: Usage)
    requires !(r.1.Leaves? && r.1.progress.NeedsApproval?)
    ensures var (s', end) := AfterCall(r, CallWith(env, cfg, policy), calls, i, step, usage);
      s'.steps == r.0.steps && PausesBeyond(s', Asks(end), calls, i + 1, step, usage)
  {
    BatchPausesBeyond(r.0, env, cfg, policy, calls, i + 1, step, usage);
    SkipLike(r.0, r.0, calls, i + 1);
  }

  // Approving the pending call leads to the end of the pass or to a pause at a later call.
  lemma {:induction false} ResumePausesBeyond(s: Session, env: Env, cfg: Config, policy: ToolCall -> Verdict)
    requires NeverFlagged(env) && PendingHere(s)
    ensures LeadsOn(s, ResumeStep(s, env, cfg, policy, Approved))
  {
    var p := s.pending.value;
    var t := AskFlag(s.(pending := None));
    var r := ApprovedCall(t, env, p.call, p.batch, p.step);
    ApprovedLike(t, t, env, p.call, p.batch, p.step);
    AfterCallPauses(r, env, cfg, policy, p.batch, p.index, p.step, p.usage);
    var (s1, end) := AfterCall(r, CallWith(env, cfg, policy), p.batch, p.index, p.step, p.usage);
    AfterBatchPauses(s1, end, p.batch, p.index + 1, p.step, p.usage);
    ResumedIsAfterCall(s, env, cfg, policy);
  }

  // Each approval leads to the end of the pass or to a later call.
  predicate LeadsOn(s: Session, r: (Session, Flow))
    requires s.pending.Some?
  {
    var p := s.pending.value;
    r.0.steps == s.steps && PausesBeyond(r.0, Waits(r.1), p.batch, p.index + 1, s.steps, p.usage)
  }

  lemma {:induction false} ThroughEnds(r: (Session, Flow), approve: Session -> (Session, Flow), calls: seq<ToolCall>,
                                       i: nat, usage: Usage, n: nat)
    requires forall s :: PendingHere(s) ==> LeadsOn(s, approve(s))
    requires i + n >= |calls| && PausesBeyond(r.0, Waits(r.1), calls, i, r.0.steps, usage)
    ensures !Waits(Through(r, approve, n).1)
    decreases n
  {
    if Waits(r.1) {
      assert PendingHere(r.0);
      ThroughEnds(approve(r.0), approve, calls, r.0.pending.value.index + 1, usage, n - 1);
    }
  }

  // As many approvals as the batch has calls always lead through its step.
  lemma {:induction false} ApprovalsSuffice(s: Session, env: Env, cfg: Config, policy: ToolCall -> Verdict,
                                            calls: seq<ToolCall>, text: string, usage: Usage, n: nat)
    requires NeverFlagged(env) && n >= |calls|
    ensures !Waits(Through(StepTools(s, env, cfg, policy, calls, text, usage), Approval(env, cfg, policy), n).1)
  {
    var s0 := s.(messages := s.messages + [Asking(calls, text)]);
    BatchPausesBeyond(s0, env, cfg, policy, calls, 0, s.steps, usage);
    var (s1, end) := BatchFrom(s0, CallWith(env, cfg, policy), calls, 0, s.steps, usage);
    AfterBatchPauses(if end.BatchDone? then s1.(retries := 0) else s1, end, calls, 0, s.steps, usage);
    forall s1 | PendingHere(s1)
      ensures LeadsOn(s1, ResumeStep(s1, env, cfg, policy, Approved))
    {
      ResumePausesBeyond(s1, env, cfg, policy);
    }
    ThroughEnds(StepTools(s, env, cfg, policy, calls, text, usage), Approval(env, cfg, policy), calls, 0, usage, n);
  }

  // The exact price of pausing: with every pause of the step approved, the paused step differs from
  // the outright one in nothing but the retry counter, and not even there if it was zero before.
  lemma {:induction false} PauseIsInvisibleIff(s: Session, env: Env, cfg: Config, policy: ToolCall -> Verdict,
                                               outright: ToolCall -> Verdict, calls: seq<ToolCall>, text: string,
                                               usage: Usage, n: nat)
    requires NeverFlagged(env) && Anticipates(outright, policy) && s.pending.None?
    requires Waits(StepTools(s, env, cfg, policy, calls, text, usage).1)
    requires !Waits(Through(StepTools(s, env, cfg, policy, calls, text, usage), Approval(env, cfg, policy), n).1)
    ensures var a := Through(StepTools(s, env, cfg, policy, calls, text, usage), Approval(env, cfg, policy), n);
      var b := StepTools(s, env, cfg, outright, calls, text, usage);
      LikeFlow(a, b) && a.0.retries == s.retries && (b.1.Again? ==> (SameFlow(a, b) <==> s.retries == 0))
  {
    var a := StepTools(s, env, cfg, policy, calls, text, usage);
    var b := StepTools(s, env, cfg, outright, calls, text, usage);
    ToolsTwins(true, s, s, env, cfg, policy, outright, calls, text, usage);
    CallsAlike(env, cfg, policy, outright);
    ThroughTwins(a, b, env, cfg, policy, CallWith(env, cfg, outright), n);
  }
}
