// Dedupe over a whole turn: duplicates share their original's output, and a run of identical
// calls is cut off.
module TurnBooks {
  import opened Wrappers
  import opened Json
  import opened Messages
  import opened Tools
  import opened Turn

  function Keys(trail: seq<Trace>): (keys: seq<string>)
    ensures |keys| == |trail|
    ensures forall k :: 0 <= k < |keys| ==> keys[k] == trail[k].key
  {
    if trail == [] then [] else [trail[0].key] + Keys(trail[1..])
  }

  lemma {:induction false} KeysAre(trail: seq<Trace>, keys: seq<string>)
    requires |trail| == |keys| && forall k :: 0 <= k < |keys| ==> keys[k] == trail[k].key
    ensures Keys(trail) == keys
  {
  }

  // How long the run of equal calls is that ends with call `k` of the turn.
  function RunAt(trail: seq<Trace>, k: nat): nat
    requires k < |trail|
  {
    D.Walk(D.NO_STREAK, Keys(trail)[..k + 1]).count
  }

  // Of the first `n` calls of the turn, those really run or decided by the user were no twelfth
  // repeats.
  ghost predicate Limited(trail: seq<Trace>, n: int) {
    forall k :: 0 <= k < n && k < |trail| && trail[k].resolved ==> RunAt(trail, k) < D.REPEAT_FORCE_STOP_STREAK
  }

  // The streak counts the finished steps, and the trail is what they and this step called.
  ghost predicate Books(s: Session) {
    s.dedupe.streak == D.Walk(D.NO_STREAK, s.ended) && Keys(s.trail) == s.ended + s.dedupe.stepCalls
  }

  ghost predicate IdleBooks(s: Session) {
    s.dedupe.streak == D.Walk(D.NO_STREAK, s.ended) && Keys(s.trail) == s.ended
  }

  lemma {:induction false} LimitedLonger(trail: seq<Trace>, t: Trace)
    requires Limited(trail, |trail|)
    ensures Limited(trail + [t], |trail|)
    ensures !t.resolved ==> Limited(trail + [t], |trail| + 1)
  {
    forall k | 0 <= k < |trail| && trail[k].resolved
      ensures RunAt(trail + [t], k) < D.REPEAT_FORCE_STOP_STREAK
    {
      assert Keys(trail + [t])[..k + 1] == Keys(trail)[..k + 1];
      assert RunAt(trail, k) == RunAt(trail + [t], k);
    }
    assert forall k :: 0 <= k < |trail| ==> (trail + [t])[k] == trail[k];
  }

  // Marking the last call resolved changes no key, so only that call is in question.
  lemma {:induction false} ResolvedBooks(s: Session)
    requires s.trail != [] && Limited(s.trail, |s.trail|)
    ensures var s' := Resolved(s);
      && Keys(s'.trail) == Keys(s.trail)
      && |s'.trail| == |s.trail|
      && Limited(s'.trail, |s.trail| - 1)
      && (RunAt(s'.trail, |s.trail| - 1) < D.REPEAT_FORCE_STOP_STREAK ==> Limited(s'.trail, |s.trail|))
      && (Books(s) ==> Books(s'))
  {
    var s' := Resolved(s);
    KeysAre(s'.trail, Keys(s.trail));
    forall k | 0 <= k < |s.trail| - 1 && s'.trail[k].resolved
      ensures RunAt(s'.trail, k) < D.REPEAT_FORCE_STOP_STREAK
    {
      assert s'.trail[k] == s.trail[k] && RunAt(s.trail, k) == RunAt(s'.trail, k);
    }
  }

  lemma {:induction false} CheckedBooks(s: Session, call: ToolCall)
    requires Books(s) && D.Settled(s.dedupe) && Limited(s.trail, |s.trail|)
    ensures var (s', duplicate) := Checked(s, call);
      && Books(s') && Limited(s'.trail, |s'.trail|) && s'.trail != []
      && (duplicate ==> KeyOf(call) in s'.dedupe.stepResults && D.Settled(s'.dedupe))
      && (!duplicate ==> D.Running(s'.dedupe, call))
  {
    var (s', duplicate) := Checked(s, call);
    D.CheckFindsOriginal(s.dedupe, call);
    LimitedLonger(s.trail, Trace(KeyOf(call), false));
    Regroup(s.ended, s.dedupe.stepCalls, [KeyOf(call)]);
    KeysAre(s'.trail, Keys(s.trail) + [KeyOf(call)]);
  }

  // Finalizing the call in flight stops the turn exactly when the tool said so or the call was at
  // least the twelfth of its run.
  lemma {:induction false} FinalizeBooks(s: Session, call: ToolCall, r: ToolResult)
    requires Books(s) && D.Running(s.dedupe, call) && s.trail != []
    ensures var (s', final) := Finalize(s, call.id, r);
      && Books(s') && D.Settled(s'.dedupe)
      && s'.trail == s.trail
      && s'.dedupe.stepResults == s.dedupe.stepResults[KeyOf(call) := final]
      && final.output == D.Reminded(r, RunAt(s.trail, |s.trail| - 1)).output
      && (final.stopTurn <==> r.stopTurn || RunAt(s.trail, |s.trail| - 1) >= D.REPEAT_FORCE_STOP_STREAK)
  {
    LastRun(s);
    D.FinalizeByTurnRun(s.dedupe, call, r, s.ended);
  }

  // The run at the last call of the trail is the run over the whole turn.
  lemma {:induction false} LastRun(s: Session)
    requires Books(s) && s.trail != []
    ensures RunAt(s.trail, |s.trail| - 1) == D.Walk(D.NO_STREAK, s.ended + s.dedupe.stepCalls).count
  {
    assert Keys(s.trail)[..|s.trail|] == s.ended + s.dedupe.stepCalls;
  }

  // The results of the step's first `n` calls stand in the history from `base` on, each carrying
  // the output recorded under its key.
  ghost predicate Recorded(s: Session, base: nat, calls: seq<ToolCall>, n: nat) {
    && n <= |calls| && base + n <= |s.messages|
    && forall j :: 0 <= j < n ==> OutputAt(s, base, calls[j], j)
  }

  // The calls up to one after call `i` are recorded.
  ghost predicate RecordedBeyond(s: Session, base: nat, calls: seq<ToolCall>, i: nat) {
    exists n :: i < n <= |calls| && Recorded(s, base, calls, n)
  }

  ghost predicate OutputAt(s: Session, base: nat, call: ToolCall, j: nat)
    requires base + j < |s.messages|
  {
    KeyOf(call) in s.dedupe.stepResults
    && s.messages[base + j].content == Str(s.dedupe.stepResults[KeyOf(call)].output)
  }

  // Of the first `n` calls those that ask for the same thing have the same output in the history.
  ghost predicate Shares(ms: seq<Message>, base: nat, calls: seq<ToolCall>, n: nat) {
    && n <= |calls| && base + n <= |ms|
    && forall j, k :: 0 <= j < n && 0 <= k < n && KeyOf(calls[j]) == KeyOf(calls[k]) ==>
         ms[base + j].content == ms[base + k].content
  }

  lemma {:induction false} RecordedShares(s: Session, base: nat, calls: seq<ToolCall>, n: nat)
    requires Recorded(s, base, calls, n)
    ensures Shares(s.messages, base, calls, n)
  {
    forall j, k | 0 <= j < n && 0 <= k < n && KeyOf(calls[j]) == KeyOf(calls[k])
      ensures s.messages[base + j].content == s.messages[base + k].content
    {
      assert OutputAt(s, base, calls[j], j) && OutputAt(s, base, calls[k], k);
    }
  }

  ghost predicate CallBooks(s': Session, base: nat, calls: seq<ToolCall>, i: nat, end: CallEnd)
    requires i < |calls|
  {
    match end
    case Goes =>
      && Books(s') && D.Settled(s'.dedupe) && Limited(s'.trail, |s'.trail|)
      && base + i + 1 == |s'.messages| && Recorded(s', base, calls, i + 1)
    case Stops =>
      && Books(s') && D.Settled(s'.dedupe) && Limited(s'.trail, |s'.trail| - 1)
      && base + i + 1 == |s'.messages| && Recorded(s', base, calls, i + 1)
    case Leaves(NeedsApproval(_)) =>
      && Books(s') && D.Running(s'.dedupe, calls[i]) && Limited(s'.trail, |s'.trail|) && s'.trail != []
      && base + i == |s'.messages| && Recorded(s', base, calls, i)
    case Leaves(TurnOver(_)) => Limited(s'.trail, |s'.trail| - 1)
  }

  lemma {:induction false} RecordedOn(s: Session, s': Session, base: nat, calls: seq<ToolCall>, i: nat, m: Message)
    requires i < |calls| && base + i == |s.messages| && Recorded(s, base, calls, i)
    requires s'.messages == s.messages + [m]
    requires KeyOf(calls[i]) in s'.dedupe.stepResults
    requires m.content == Str(s'.dedupe.stepResults[KeyOf(calls[i])].output)
    requires forall key :: key in s.dedupe.stepResults ==>
      key in s'.dedupe.stepResults && s'.dedupe.stepResults[key] == s.dedupe.stepResults[key]
    ensures Recorded(s', base, calls, i + 1)
  {
    forall j | 0 <= j < i + 1
      ensures OutputAt(s', base, calls[j], j)
    {
      if j < i { assert OutputAt(s, base, calls[j], j); }
    }
  }

  // Once the call in flight is finalized, its result is recorded next to the others; if it does
  // not stop the turn, it was no twelfth repeat.
  lemma {:induction false} FinalizeRecorded(s: Session, base: nat, calls: seq<ToolCall>, i: nat, r: ToolResult)
    requires i < |calls| && base + i == |s.messages| && Recorded(s, base, calls, i)
    requires Books(s) && D.Running(s.dedupe, calls[i]) && s.trail != []
    requires Limited(s.trail, |s.trail| - 1)
    requires RunAt(s.trail, |s.trail| - 1) < D.REPEAT_FORCE_STOP_STREAK ==> Limited(s.trail, |s.trail|)
    ensures var (s', final) := Finalize(s, calls[i].id, r);
      && Books(s') && D.Settled(s'.dedupe) && s'.trail == s.trail
      && (!final.stopTurn ==> Limited(s'.trail, |s'.trail|))
      && base + i + 1 == |s'.messages| && Recorded(s', base, calls, i + 1)
  {
    var (s', final) := Finalize(s, calls[i].id, r);
    FinalizeBooks(s, calls[i], r);
    RecordedOn(s, s', base, calls, i, ResultMessage(final));
  }

  // The books before call `p` of a batch whose results stand in the history from `base` on.
  ghost predicate CallReady(s: Session, base: nat, p: Pending) {
    && p.index < |p.batch| && p.call == p.batch[p.index] && base + p.index == |s.messages|
    && Books(s) && D.Settled(s.dedupe) && Limited(s.trail, |s.trail|) && Recorded(s, base, p.batch, p.index)
  }

  ghost predicate KeepsBooks(one: Calling) {
    forall s, base, p :: CallReady(s, base, p) ==>
      CallBooks(one(s, p).0, base, p.batch, p.index, one(s, p).1)
      && (one(s, p).1.Leaves? && one(s, p).1.progress.NeedsApproval? ==> one(s, p).0.pending == Some(p))
  }

  lemma {:induction false} OneCallBooks(s: Session, env: Env, cfg: Config, policy: ToolCall -> Verdict, p: Pending,
                                        base: nat)
    requires CallReady(s, base, p)
    ensures var (s', end) := OneCall(s, env, cfg, policy, p);
      && CallBooks(s', base, p.batch, p.index, end)
      && (end.Leaves? && end.progress.NeedsApproval? ==> s'.pending == Some(p))
  {
    var call, calls, i := p.call, p.batch, p.index;
    var s0 := AskFlag(s);
    if !env.flag(s.clock.flags) {
      var (s1, duplicate) := Checked(s0, call);
      CheckedBooks(s0, call);
      RecordedKept(s, s1, base, calls, i);
      if duplicate {
        SharedBooks(s1, calls, i, base);
      } else {
        OriginalBooks(s1, env, cfg, policy, p, base);
      }
    }
  }

  lemma {:induction false} OriginalBooks(s: Session, env: Env, cfg: Config, policy: ToolCall -> Verdict, p: Pending,
                                         base: nat)
    requires p.index < |p.batch| && p.call == p.batch[p.index] && base + p.index == |s.messages|
    requires Books(s) && D.Running(s.dedupe, p.call) && s.trail != [] && Limited(s.trail, |s.trail|)
    requires Recorded(s, base, p.batch, p.index)
    ensures var (s', end) := OriginalCall(s, env, cfg, policy, p);
      && CallBooks(s', base, p.batch, p.index, end)
      && (end.Leaves? && end.progress.NeedsApproval? ==> s'.pending == Some(p))
  {
    match policy(p.call)
    case Approve => ApprovedBooks(s, env, p.batch, p.index, p.step, base);
    case Deny(reason) => DeniedBooks(s, cfg, p.batch, p.index, reason, base);
    case Ask => RecordedKept(s, s.(pending := Some(p)), base, p.batch, p.index);
  }

  lemma {:induction false} SharedBooks(s: Session, calls: seq<ToolCall>, i: nat, base: nat)
    requires i < |calls| && base + i == |s.messages| && Recorded(s, base, calls, i)
    requires Books(s) && D.Settled(s.dedupe) && Limited(s.trail, |s.trail|)
    requires KeyOf(calls[i]) in s.dedupe.stepResults
    ensures CallBooks(SettleShared(s, calls[i]), base, calls, i, Goes)
    ensures CallBooks(SettleShared(s, calls[i]), base, calls, i, Stops)
  {
    var s' := SettleShared(s, calls[i]);
    RecordedOn(s, s', base, calls, i, ResultMessage(Shared(s.dedupe, calls[i])));
  }

  lemma {:induction false} DeniedBooks(s: Session, cfg: Config, calls: seq<ToolCall>, i: nat, reason: string, base: nat)
    requires i < |calls| && base + i == |s.messages|
    requires Books(s) && D.Running(s.dedupe, calls[i]) && s.trail != [] && Limited(s.trail, |s.trail|)
    requires Recorded(s, base, calls, i)
    ensures CallBooks(DeniedCall(s, cfg, calls[i], reason).0, base, calls, i, Goes)
  {
    var r := ErrorResult(calls[i], WorkerText(cfg, reason));
    var s1 := Emit(s, ToolStarted(calls[i]));
    RecordedKept(s, s1, base, calls, i);
    FinalizeRecorded(s1, base, calls, i, r);
  }

  lemma {:induction false} CallsKeepBooks(env: Env, cfg: Config, policy: ToolCall -> Verdict)
    ensures KeepsBooks(CallWith(env, cfg, policy))
  {
    forall s, base, p | CallReady(s, base, p)
      ensures var (s', end) := OneCall(s, env, cfg, policy, p);
        && CallBooks(s', base, p.batch, p.index, end)
        && (end.Leaves? && end.progress.NeedsApproval? ==> s'.pending == Some(p))
    {
      OneCallBooks(s, env, cfg, policy, p, base);
    }
  }

  lemma {:induction false} RecordedSame(s: Session, s': Session, base: nat, calls: seq<ToolCall>, n: nat)
    requires Recorded(s, base, calls, n)
    requires s'.messages == s.messages && s'.dedupe.stepResults == s.dedupe.stepResults
    ensures Recorded(s', base, calls, n)
  {
    forall j | 0 <= j < n
      ensures OutputAt(s', base, calls[j], j)
    {
      assert OutputAt(s, base, calls[j], j);
    }
  }

  lemma {:induction false} RecordedKept(s: Session, s': Session, base: nat, calls: seq<ToolCall>, n: nat)
    requires Recorded(s, base, calls, n)
    requires |s.messages| <= |s'.messages| && s'.messages[..|s.messages|] == s.messages
    requires s'.dedupe.stepResults == s.dedupe.stepResults
    ensures Recorded(s', base, calls, n)
  {
    forall j | 0 <= j < n
      ensures OutputAt(s', base, calls[j], j)
    {
      assert OutputAt(s, base, calls[j], j);
      assert s'.messages[base + j] == s'.messages[..|s.messages|][base + j];
    }
  }

  lemma {:induction false} RunToolKeeps(s: Session, env: Env, call: ToolCall, batch: seq<ToolCall>)
    ensures var s' := RunTool(s, env, call, batch).0;
      && s'.messages == s.messages && s'.dedupe == s.dedupe && s'.trail == s.trail && s'.ended == s.ended
      && s'.messages[..|s.messages|] == s.messages
  {
  }

  lemma {:induction false} ApprovedBooks(s: Session, env: Env, calls: seq<ToolCall>, i: nat, step: nat, base: nat)
    requires i < |calls| && base + i == |s.messages|
    requires Books(s) && D.Running(s.dedupe, calls[i]) && s.trail != [] && Limited(s.trail, |s.trail|)
    requires Recorded(s, base, calls, i)
    ensures var (s', end) := ApprovedCall(s, env, calls[i], calls, step);
      CallBooks(s', base, calls, i, end)
  {
    ResolvedBooks(s);
    var (s1, result) := RunTool(Resolved(s), env, calls[i], calls);
    RunToolKeeps(Resolved(s), env, calls[i], calls);
    if result.Some? {
      RecordedKept(s, s1, base, calls, i);
      FinalizeRecorded(s1, base, calls, i, result.value);
    }
  }

  lemma {:induction false} SkipBooks(s: Session, calls: seq<ToolCall>, i: nat)
    ensures var s' := SkipFrom(s, calls, i);
      && s'.trail == s.trail && s'.dedupe == s.dedupe && s'.ended == s.ended
      && |s.messages| <= |s'.messages| && s'.messages[..|s.messages|] == s.messages
    decreases |calls| - i
  {
    if i < |calls| {
      var s1 := SettleNow(s, calls[i], ErrorResult(calls[i], TOOL_SKIPPED));
      SkipBooks(s1, calls, i + 1);
      assert SkipFrom(s, calls, i).messages[..|s.messages|] == s1.messages[..|s.messages|] == s.messages;
    }
  }

  lemma {:induction false} EndStepBooks(s: Session)
    requires Books(s)
    ensures IdleBooks(EndStep(s))
  {
    D.EndedStreak(s.dedupe, s.ended);
  }

  // After a batch: idle books and limited calls; every result up to the one that stopped the batch,
  // or all of them, is recorded under its key.
  ghost predicate BatchBooks(s': Session, base: nat, calls: seq<ToolCall>, i: nat, end: BatchEnd) {
    match end
    case BatchDone(stopped) =>
      && IdleBooks(s')
      && Limited(s'.trail, if stopped then |s'.trail| - 1 else |s'.trail|)
      && (if stopped then RecordedBeyond(s', base, calls, i) else Recorded(s', base, calls, |calls|))
    case BatchLeft(NeedsApproval(_)) =>
      && s'.pending.Some? && i <= s'.pending.value.index < |calls|
      && Books(s') && D.Running(s'.dedupe, calls[s'.pending.value.index])
      && Limited(s'.trail, |s'.trail|) && s'.trail != []
      && base + s'.pending.value.index == |s'.messages|
      && Recorded(s', base, calls, s'.pending.value.index)
    case BatchLeft(TurnOver(_)) => Limited(s'.trail, |s'.trail| - 1)
  }

  lemma {:induction false} StopBooks(s: Session, base: nat, calls: seq<ToolCall>, i: nat)
    requires i < |calls| && CallBooks(s, base, calls, i, Stops)
    ensures BatchBooks(EndStep(SkipFrom(s, calls, i + 1)), base, calls, i, BatchDone(true))
  {
    var s1 := SkipFrom(s, calls, i + 1);
    SkipBooks(s, calls, i + 1);
    RecordedKept(s, s1, base, calls, i + 1);
    EndStepBooks(s1);
    assert EndStep(s1).messages[..|s1.messages|] == s1.messages;
    RecordedKept(s1, EndStep(s1), base, calls, i + 1);
  }

  lemma {:induction false} BatchKeepsBooks(s: Session, one: Calling, calls: seq<ToolCall>, i: nat, step: nat,
                                           usage: Usage, base: nat)
    requires i <= |calls| && base + i == |s.messages| && KeepsBooks(one)
    requires Books(s) && D.Settled(s.dedupe) && Limited(s.trail, |s.trail|) && Recorded(s, base, calls, i)
    ensures var (s', end) := BatchFrom(s, one, calls, i, step, usage); BatchBooks(s', base, calls, i, end)
    decreases |calls| - i
  {
    if i < |calls| {
      var p := Pending(calls[i], calls, i, step, usage);
      var (s1, callEnd) := one(s, p);
      assert CallReady(s, base, p);
      if callEnd.Goes? {
        BatchKeepsBooks(s1, one, calls, i + 1, step, usage, base);
      } else if callEnd.Stops? {
        StopBooks(s1, base, calls, i);
      }
    } else {
      DoneBooks(s, base, calls);
    }
  }

  lemma {:induction false} DoneBooks(s: Session, base: nat, calls: seq<ToolCall>)
    requires Books(s) && Limited(s.trail, |s.trail|) && Recorded(s, base, calls, |calls|)
    ensures BatchBooks(EndStep(s), base, calls, |calls|, BatchDone(false))
  {
    EndStepBooks(s);
    assert EndStep(s).messages[..|s.messages|] == s.messages;
    RecordedKept(s, EndStep(s), base, calls, |calls|);
  }

  // In the history, too, calls of a batch that ask for the same thing are answered with the same output,
  // whether it ran to its end or stands at its first pause.
  lemma {:induction false} DuplicatesShareOutput(s: Session, env: Env, cfg: Config, policy: ToolCall -> Verdict,
                                                 calls: seq<ToolCall>, step: nat, usage: Usage)
    requires Books(s) && D.Settled(s.dedupe) && Limited(s.trail, |s.trail|)
    ensures var (s', end) := BatchFrom(s, CallWith(env, cfg, policy), calls, 0, step, usage);
      match end
      case BatchDone(stopped) => !stopped ==> Shares(s'.messages, |s.messages|, calls, |calls|)
      case BatchLeft(NeedsApproval(_)) =>
        s'.pending.Some? && Shares(s'.messages, |s.messages|, calls, s'.pending.value.index)
      case BatchLeft(TurnOver(_)) => true
  {
    CallsKeepBooks(env, cfg, policy);
    BatchKeepsBooks(s, CallWith(env, cfg, policy), calls, 0, step, usage, |s.messages|);
    var (s', end) := BatchFrom(s, CallWith(env, cfg, policy), calls, 0, step, usage);
    if end == BatchDone(false) {
      RecordedShares(s', |s.messages|, calls, |calls|);
    } else if end.BatchLeft? && end.progress.NeedsApproval? {
      RecordedShares(s', |s.messages|, calls, s'.pending.value.index);
    }
  }

  // ---------- At most twelve executions in a run of identical calls ----------

  // The call that makes a run of identical calls twelve long stops its batch once it was run.
  lemma {:induction false} TwelfthStops(s: Session, env: Env, call: ToolCall, batch: seq<ToolCall>, step: nat)
    requires Books(s) && D.Running(s.dedupe, call) && s.trail != []
    requires RunAt(s.trail, |s.trail| - 1) >= D.REPEAT_FORCE_STOP_STREAK
    ensures !ApprovedCall(s, env, call, batch, step).1.Goes?
  {
    var s0 := Resolved(s);
    var (s1, result) := RunTool(s0, env, call, batch);
    RunToolKeeps(s0, env, call, batch);
    assert Keys(s0.trail) == Keys(s.trail);
    if result.Some? { FinalizeBooks(s1, call, result.value); }
  }

  // Whatever the user decided about it, and whatever the tool says.
  lemma {:induction false} TwelfthEndsResumedTurn(s: Session, env: Env, cfg: Config, policy: ToolCall -> Verdict,
                                                  p: Pending, r: ToolResult)
    requires Books(s) && D.Running(s.dedupe, p.call) && s.trail != []
    requires RunAt(s.trail, |s.trail| - 1) >= D.REPEAT_FORCE_STOP_STREAK
    ensures var flow := ResumeSettled(s, env, cfg, policy, p, r).1;
      flow.Halt? && flow.progress.TurnOver? && flow.progress.outcome.reason == TurnCompleted
  {
    FinalizeBooks(s, p.call, r);
  }

  function CountResolved(trail: seq<Trace>, a: nat, b: nat): nat
    requires a <= b <= |trail|
    decreases b - a
  {
    if a == b then 0 else CountResolved(trail, a, b - 1) + if trail[b - 1].resolved then 1 else 0
  }

  lemma {:induction false} CountAtMost(trail: seq<Trace>, a: nat, b: nat)
    requires a <= b <= |trail|
    ensures CountResolved(trail, a, b) <= b - a
    decreases b - a
  {
    if a < b { CountAtMost(trail, a, b - 1); }
  }

  lemma {:induction false} RunGrows(trail: seq<Trace>, a: nat, k: nat)
    requires a <= k < |trail|
    requires forall j :: a <= j <= k ==> trail[j].key == trail[a].key
    ensures RunAt(trail, k) >= k - a + 1
    ensures D.Walk(D.NO_STREAK, Keys(trail)[..k + 1]).key == Some(trail[a].key)
    decreases k
  {
    var keys := Keys(trail);
    D.WalkSnoc(D.NO_STREAK, keys[..k], keys[k]);
    assert keys[..k + 1] == keys[..k] + [keys[k]];
    if k > a { RunGrows(trail, a, k - 1); }
  }

  lemma {:induction false} RunAtMostTwelve(trail: seq<Trace>, a: nat, b: nat)
    requires Limited(trail, |trail| - 1)
    requires a <= b <= |trail|
    requires forall j :: a <= j < b ==> trail[j].key == trail[a].key
    ensures CountResolved(trail, a, b) <= D.REPEAT_FORCE_STOP_STREAK
    decreases b - a
  {
    if b - a <= 12 {
      CountAtMost(trail, a, b);
    } else {
      NoneAfterEleven(trail, a, b - 1);
    }
  }

  lemma {:induction false} NoneAfterEleven(trail: seq<Trace>, a: nat, b: nat)
    requires Limited(trail, |trail| - 1)
    requires a + 11 <= b < |trail|
    requires forall j :: a <= j < b ==> trail[j].key == trail[a].key
    ensures CountResolved(trail, a, b) <= 11
    decreases b - a
  {
    if b == a + 11 {
      CountAtMost(trail, a, b);
    } else {
      NoneAfterEleven(trail, a, b - 1);
      TwelfthIsIdle(trail, a, b - 1);
    }
  }

  lemma {:induction false} TwelfthIsIdle(trail: seq<Trace>, a: nat, k: nat)
    requires Limited(trail, |trail| - 1)
    requires a + 11 <= k < |trail| - 1
    requires forall j :: a <= j <= k ==> trail[j].key == trail[a].key
    ensures !trail[k].resolved
  {
    RunGrows(trail, a, k);
  }
}
