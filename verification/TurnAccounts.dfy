// The accounts of a step's batch: which of its calls were announced, settled and answered, after the
// batch, at each of its pauses, and after any decisions about the calls it paused at.
module TurnAccounts {
  import opened Tools
  import opened Turn
  import opened TurnHistory
  import opened TurnProtocol
  import opened Wrappers

  // From `s` to `s'` the calls from `i` up to `k`, and no others, were announced, settled and answered
  // by one tool message each, in call order.
  predicate Accounted(s: Session, s': Session, calls: seq<ToolCall>, i: nat, k: nat) {
    && i <= k <= |calls|
    && Watched(s').settled == Watched(s).settled + CallIds(calls)[i..k]
    && Grew(s.messages, s'.messages, CallIds(calls)[i..k])
  }

  // The turn ended before the batch did.
  ghost predicate CutShort(s: Session, s': Session, calls: seq<ToolCall>, i: nat) {
    exists k: nat :: k < |calls| && Accounted(s, s', calls, i, k)
  }

  // The batch is paused at a later call, with those before it accounted for.
  predicate PausedIn(s: Session, s': Session, calls: seq<ToolCall>, i: nat, step: nat, usage: Usage, call: ToolCall) {
    && s'.pending.Some? && s'.pending.value.index < |calls|
    && var k := s'.pending.value.index;
       s'.pending == Some(Pending(calls[k], calls, k, step, usage)) && call == calls[k] && Accounted(s, s', calls, i, k)
  }

  lemma {:induction false} NothingYet(s: Session, s': Session, calls: seq<ToolCall>, i: nat)
    requires i <= |calls| && s'.messages == s.messages && Watched(s').settled == Watched(s).settled
    ensures Accounted(s, s', calls, i, i)
  {
    assert CallIds(calls)[i..i] == [] && s.messages[|s.messages|..] == [];
    assert s.messages[..|s.messages|] == s.messages;
  }

  lemma {:induction false} OneMore(s: Session, s': Session, calls: seq<ToolCall>, i: nat)
    requires i < |calls| && Watched(s').settled == Watched(s).settled + [calls[i].id]
    requires Grew(s.messages, s'.messages, [calls[i].id])
    ensures Accounted(s, s', calls, i, i + 1)
  {
    assert CallIds(calls)[i..i + 1] == [calls[i].id];
  }

  lemma {:induction false} AccountedOn(s: Session, t: Session, u: Session, calls: seq<ToolCall>, i: nat, k: nat, m: nat)
    requires Accounted(s, t, calls, i, k) && Accounted(t, u, calls, k, m)
    ensures Accounted(s, u, calls, i, m)
  {
    var ids := CallIds(calls);
    assert ids[i..m] == ids[i..k] + ids[k..m];
    GrewOn(s.messages, t.messages, u.messages, ids[i..k], ids[k..m]);
    Regroup(Watched(s).settled, ids[i..k], ids[k..m]);
  }

  lemma {:induction false} CutShortOn(s: Session, t: Session, u: Session, calls: seq<ToolCall>, i: nat, k: nat)
    requires Accounted(s, t, calls, i, k) && CutShort(t, u, calls, k)
    ensures CutShort(s, u, calls, i)
  {
    var m: nat :| m < |calls| && Accounted(t, u, calls, k, m);
    AccountedOn(s, t, u, calls, i, k, m);
  }

  lemma {:induction false} PausedOn(s: Session, t: Session, u: Session, calls: seq<ToolCall>, i: nat, k: nat,
                                    step: nat, usage: Usage, call: ToolCall)
    requires Accounted(s, t, calls, i, k) && PausedIn(t, u, calls, k, step, usage, call)
    ensures PausedIn(s, u, calls, i, step, usage, call)
  {
    AccountedOn(s, t, u, calls, i, k, u.pending.value.index);
  }

  // ---------- One call ----------

  predicate CallAccounted(s: Session, s': Session, p: Pending, end: CallEnd) {
    && s'.steps == s.steps && CallHistory(s, s', p, end) && CallWatched(Watched(s), s', p, end)
    && (end.Leaves? && end.progress.TurnOver? ==> end.progress.outcome.reason.TurnCancelled?)
  }

  ghost predicate AccountsForCalls(one: Calling) {
    forall s, p: Pending :: Watched(s).phase == InStep(p.step) ==> CallAccounted(s, one(s, p).0, p, one(s, p).1)
  }

  lemma {:induction false} OneCallKeepsStep(s: Session, env: Env, cfg: Config, policy: ToolCall -> Verdict, p: Pending)
    ensures var (s', end) := OneCall(s, env, cfg, policy, p);
      && s'.steps == s.steps
      && (end.Leaves? && end.progress.TurnOver? ==> end.progress.outcome.reason.TurnCancelled?)
  {
  }

  lemma {:induction false} CallsAccounted(env: Env, cfg: Config, policy: ToolCall -> Verdict)
    requires AnswersItsCall(env)
    ensures AccountsForCalls(CallWith(env, cfg, policy))
  {
    forall s, p: Pending | Watched(s).phase == InStep(p.step)
      ensures CallAccounted(s, OneCall(s, env, cfg, policy, p).0, p, OneCall(s, env, cfg, policy, p).1)
    {
      OneCallKeepsStep(s, env, cfg, policy, p);
      OneCallHistory(s, env, cfg, policy, p);
      OneCallWatched(s, env, cfg, policy, p);
    }
  }

  // ---------- A batch up to its end or its first pause ----------

  ghost predicate BatchAccounted(s: Session, s': Session, calls: seq<ToolCall>, i: nat, step: nat, usage: Usage,
                                 end: BatchEnd)
  {
    && s'.steps == s.steps
    && match end
       case BatchDone(_) =>
         Accounted(s, s', calls, i, |calls|) && Watched(s').phase == Watched(s).phase && s'.pending == s.pending
       case BatchLeft(NeedsApproval(call)) =>
         PausedIn(s, s', calls, i, step, usage, call) && Watched(s').phase == Watched(s).phase
       case BatchLeft(TurnOver(outcome)) =>
         CutShort(s, s', calls, i) && Watched(s').phase.TurnDone? && outcome.reason.TurnCancelled?
  }

  lemma {:induction false} SkipAccounted(s: Session, calls: seq<ToolCall>, i: nat)
    requires i <= |calls| && Watched(s).phase.InStep?
    ensures var s' := SkipFrom(s, calls, i);
      && Accounted(s, s', calls, i, |calls|)
      && Watched(s').phase == Watched(s).phase && s'.pending == s.pending && s'.steps == s.steps
  {
    SkipHistory(s, calls, i);
    SkipWatched(s, calls, i);
    SkipKeepsStep(s, calls, i);
    assert CallIds(calls)[i..|calls|] == CallIds(calls)[i..];
  }

  lemma {:induction false} SkipKeepsStep(s: Session, calls: seq<ToolCall>, i: nat)
    ensures SkipFrom(s, calls, i).steps == s.steps
    decreases |calls| - i
  {
    if i < |calls| {
      SkipKeepsStep(SettleNow(s, calls[i], ErrorResult(calls[i], TOOL_SKIPPED)), calls, i + 1);
    }
  }

  lemma {:induction false} BatchAccountedOn(s: Session, t: Session, u: Session, calls: seq<ToolCall>, i: nat, k: nat,
                                            step: nat, usage: Usage, end: BatchEnd)
    requires Accounted(s, t, calls, i, k) && BatchAccounted(t, u, calls, k, step, usage, end)
    requires t.steps == s.steps && t.pending == s.pending && Watched(t).phase == Watched(s).phase
    ensures BatchAccounted(s, u, calls, i, step, usage, end)
  {
    match end
    case BatchDone(_) => AccountedOn(s, t, u, calls, i, k, |calls|);
    case BatchLeft(NeedsApproval(call)) => PausedOn(s, t, u, calls, i, k, step, usage, call);
    case BatchLeft(TurnOver(_)) => CutShortOn(s, t, u, calls, i, k);
  }

  lemma {:induction false} BatchFromAccounted(s: Session, one: Calling, calls: seq<ToolCall>, i: nat, step: nat,
                                              usage: Usage)
    requires i <= |calls| && AccountsForCalls(one) && Watched(s).phase == InStep(step)
    ensures var (s', end) := BatchFrom(s, one, calls, i, step, usage); BatchAccounted(s, s', calls, i, step, usage, end)
    decreases |calls| - i
  {
    if i < |calls| {
      var p := Pending(calls[i], calls, i, step, usage);
      var (s1, callEnd) := one(s, p);
      assert CallAccounted(s, s1, p, callEnd);
      if callEnd.Leaves? {
        NothingYet(s, s1, calls, i);
      } else {
        OneMore(s, s1, calls, i);
        var (s', end) := BatchFrom(s, one, calls, i, step, usage);
        if callEnd.Goes? {
          BatchFromAccounted(s1, one, calls, i + 1, step, usage);
        } else {
          SkipAccounted(s1, calls, i + 1);
        }
        BatchAccountedOn(s, s1, s', calls, i, i + 1, step, usage, end);
      }
    } else {
      NothingYet(s, EndStep(s), calls, i);
    }
  }

  // What a real batch does, whatever the policy decides about each call: each call is announced once,
  // settled once and answered by one tool message, in call order; at a pause exactly the calls before
  // the pending one are, and when the turn is cancelled exactly those before some call.
  lemma {:induction false} BatchAccounting(s: Session, env: Env, cfg: Config, policy: ToolCall -> Verdict,
                                           calls: seq<ToolCall>, i: nat, step: nat, usage: Usage)
    requires i <= |calls| && AnswersItsCall(env) && Watched(s).phase == InStep(step)
    ensures var (s', end) := BatchFrom(s, CallWith(env, cfg, policy), calls, i, step, usage);
      BatchAccounted(s, s', calls, i, step, usage, end)
  {
    CallsAccounted(env, cfg, policy);
    BatchFromAccounted(s, CallWith(env, cfg, policy), calls, i, step, usage);
  }

  // ---------- A step with its pauses ----------

  // The step goes on to the next one or the turn is completed with all calls from `i` on accounted for;
  // or it is paused, or cancelled, with those before some call.
  ghost predicate StepAccounted(s: Session, s': Session, calls: seq<ToolCall>, i: nat, usage: Usage, flow: Flow) {
    && s'.steps == s.steps
    && match flow
       case Again =>
         Accounted(s, s', calls, i, |calls|) && Watched(s').phase == Between(s.steps) && s'.pending.None?
       case Halt(NeedsApproval(call)) =>
         PausedIn(s, s', calls, i, s.steps, usage, call) && Watched(s').phase == InStep(s.steps)
       case Halt(TurnOver(outcome)) =>
         && Watched(s').phase.TurnDone?
         && if outcome.reason.TurnCompleted? then Accounted(s, s', calls, i, |calls|)
            else outcome.reason.TurnCancelled? && CutShort(s, s', calls, i)
  }

  lemma {:induction false} CompletedAccount(s: Session, t: Session, usage: Usage, finish: FinishReason,
                                            calls: seq<ToolCall>, i: nat)
    requires Accounted(s, t, calls, i, |calls|) && Watched(t).phase == InStep(t.steps)
    ensures var u := CompleteStep(t, t.steps, usage, finish);
      Accounted(s, u, calls, i, |calls|) && Watched(u).phase == Between(t.steps)
    ensures var u := Finish(CompleteStep(t, t.steps, usage, finish), TurnCompleted, None, false).0;
      Accounted(s, u, calls, i, |calls|) && Watched(u).phase.TurnDone?
  {
    FollowOne(UNWATCHED, t.events, StepCompleted(t.steps, usage, finish));
    FinishWatched(CompleteStep(t, t.steps, usage, finish), TurnCompleted, None, false);
  }

  lemma {:induction false} AfterBatchAccounted(s: Session, t: Session, calls: seq<ToolCall>, i: nat, usage: Usage,
                                               end: BatchEnd)
    requires Watched(s).phase == InStep(s.steps) && s.pending.None?
    requires BatchAccounted(s, t, calls, i, s.steps, usage, end)
    ensures var (s', flow) := AfterBatch(t, end, s.steps, usage); StepAccounted(s, s', calls, i, usage, flow)
  {
    if end.BatchDone? {
      CompletedAccount(s, t, usage, if end.stopped then Completed else ToolCalls, calls, i);
    }
  }

  lemma {:induction false} StepAccountedOn(s: Session, t: Session, u: Session, calls: seq<ToolCall>, i: nat, k: nat,
                                           usage: Usage, flow: Flow)
    requires Accounted(s, t, calls, i, k) && t.steps == s.steps && StepAccounted(t, u, calls, k, usage, flow)
    ensures StepAccounted(s, u, calls, i, usage, flow)
  {
    match flow
    case Again => AccountedOn(s, t, u, calls, i, k, |calls|);
    case Halt(NeedsApproval(call)) => PausedOn(s, t, u, calls, i, k, s.steps, usage, call);
    case Halt(TurnOver(outcome)) =>
      if outcome.reason.TurnCompleted? {
        AccountedOn(s, t, u, calls, i, k, |calls|);
      } else {
        CutShortOn(s, t, u, calls, i, k);
      }
  }

  // ---------- Decisions ----------

  // Waiting for a decision inside a step.
  predicate AtPause(s: Session, calls: seq<ToolCall>, usage: Usage) {
    && Watched(s).phase == InStep(s.steps)
    && s.pending.Some? && s.pending.value.index < |calls|
    && var k := s.pending.value.index;
       s.pending == Some(Pending(calls[k], calls, k, s.steps, usage))
  }

  // The pending call was announced and has its result; the rest of the batch follows.
  lemma {:induction false} SettledAccount(s: Session, env: Env, cfg: Config, policy: ToolCall -> Verdict, p: Pending,
                                          r: ToolResult)
    requires AnswersItsCall(env) && p.index < |p.batch| && p.call == p.batch[p.index] && p.step == s.steps
    requires Watched(s).phase == InCall(s.steps, p.call.id) && r.callId == p.call.id && s.pending.None?
    ensures var (s', flow) := ResumeSettled(s, env, cfg, policy, p, r);
      StepAccounted(s, s', p.batch, p.index, p.usage, flow)
  {
    var (t, final) := Finalize(s, p.call.id, r);
    FinalizedAccount(s, p, r);
    if final.stopTurn {
      SkipAccounted(t, p.batch, p.index + 1);
      var u := EndStep(SkipFrom(t, p.batch, p.index + 1));
      AfterBatchAccounted(t, u, p.batch, p.index + 1, p.usage, BatchDone(true));
    } else {
      BatchAccounting(t, env, cfg, policy, p.batch, p.index + 1, t.steps, p.usage);
      var (u, end) := BatchFrom(t, CallWith(env, cfg, policy), p.batch, p.index + 1, t.steps, p.usage);
      AfterBatchAccounted(t, u, p.batch, p.index + 1, p.usage, end);
    }
    var (s', flow) := ResumeSettled(s, env, cfg, policy, p, r);
    StepAccountedOn(s, t, s', p.batch, p.index, p.index + 1, p.usage, flow);
  }

  lemma {:induction false} FinalizedAccount(s: Session, p: Pending, r: ToolResult)
    requires p.index < |p.batch| && p.call == p.batch[p.index]
    requires Watched(s).phase == InCall(s.steps, p.call.id) && r.callId == p.call.id
    ensures var t := Finalize(s, p.call.id, r).0;
      && Accounted(s, t, p.batch, p.index, p.index + 1)
      && Watched(t).phase == InStep(t.steps) && t.steps == s.steps && t.pending == s.pending
  {
    FinalizeHistory(s, p.call.id, r);
    FinalizeWatched(s, p.call.id, r);
    OneMore(s, Finalize(s, p.call.id, r).0, p.batch, p.index);
  }

  // The account of one state is that of another with the same history and the same settled calls.
  lemma {:induction false} SameAccount(s: Session, t: Session, u: Session, calls: seq<ToolCall>, i: nat, usage: Usage,
                                       flow: Flow)
    requires t.messages == s.messages && Watched(t).settled == Watched(s).settled && t.steps == s.steps
    requires i <= |calls| && StepAccounted(t, u, calls, i, usage, flow)
    ensures StepAccounted(s, u, calls, i, usage, flow)
  {
    NothingYet(s, t, calls, i);
    StepAccountedOn(s, t, u, calls, i, i, usage, flow);
  }

  lemma {:induction false} AbortedAccount(s: Session, t: Session, calls: seq<ToolCall>, i: nat, usage: Usage)
    requires i < |calls| && t.messages == s.messages && Watched(t).settled == Watched(s).settled && t.steps == s.steps
    requires (Watched(t).phase.InStep? || Watched(t).phase.InCall?) && Watched(t).phase.step == t.steps
    ensures var (s', progress) := Aborted(t, t.steps); StepAccounted(s, s', calls, i, usage, Halt(progress))
  {
    AbortedWatched(t, t.steps);
    NothingYet(s, Aborted(t, t.steps).0, calls, i);
  }

  lemma {:induction false} DecidedAccount(s: Session, env: Env, cfg: Config, policy: ToolCall -> Verdict, p: Pending,
                                          decision: Decision)
    requires AnswersItsCall(env) && p.index < |p.batch| && p.call == p.batch[p.index] && p.step == s.steps
    requires Watched(s).phase == InStep(s.steps) && s.pending.None?
    ensures var (s', flow) := ResumeDecided(s, env, cfg, policy, p, decision);
      StepAccounted(s, s', p.batch, p.index, p.usage, flow)
  {
    match decision
    case Approved =>
      var (t, result) := RunTool(s, env, p.call, p.batch);
      RunToolWatched(s, env, p.call, p.batch);
      if result.None? {
        AbortedAccount(s, t, p.batch, p.index, p.usage);
      } else {
        SettledAccount(t, env, cfg, policy, p, result.value);
        var (s', flow) := ResumeSettled(t, env, cfg, policy, p, result.value);
        SameAccount(s, t, s', p.batch, p.index, p.usage, flow);
      }
    case Rejected(feedback) =>
      AnnouncedAccount(s, env, cfg, policy, p, WorkerText(cfg, RejectedText(p.call.name, feedback)));
    case DecisionCancelled =>
      AnnouncedAccount(s, env, cfg, policy, p, WorkerText(cfg, CancelledText(p.call.name)));
  }

  lemma {:induction false} AnnouncedAccount(s: Session, env: Env, cfg: Config, policy: ToolCall -> Verdict, p: Pending,
                                            output: string)
    requires AnswersItsCall(env) && p.index < |p.batch| && p.call == p.batch[p.index] && p.step == s.steps
    requires Watched(s).phase == InStep(s.steps) && s.pending.None?
    ensures var r := ErrorResult(p.call, output);
      var (s', flow) := ResumeSettled(Emit(s, ToolStarted(p.call)), env, cfg, policy, p, r);
      StepAccounted(s, s', p.batch, p.index, p.usage, flow)
  {
    var t, r := Emit(s, ToolStarted(p.call)), ErrorResult(p.call, output);
    AnnounceWatched(s, p.call);
    SettledAccount(t, env, cfg, policy, p, r);
    var (s', flow) := ResumeSettled(t, env, cfg, policy, p, r);
    SameAccount(s, t, s', p.batch, p.index, p.usage, flow);
  }

  // Whatever is decided about the pending call, it is announced and settled once, and the rest of its
  // batch follows in order, up to its end, its next pause or a cancellation.
  lemma {:induction false} ResumeAccounting(s: Session, env: Env, cfg: Config, policy: ToolCall -> Verdict,
                                            decision: Decision, calls: seq<ToolCall>, usage: Usage)
    requires AnswersItsCall(env) && AtPause(s, calls, usage)
    ensures var (s', flow) := ResumeStep(s, env, cfg, policy, decision);
      StepAccounted(s, s', calls, s.pending.value.index, usage, flow)
  {
    var p := s.pending.value;
    var t := AskFlag(s.(pending := None));
    if env.flag(s.clock.flags) {
      AbortedAccount(s, t, calls, p.index, usage);
    } else {
      DecidedAccount(Resolved(t), env, cfg, policy, p, decision);
      var (s', flow) := ResumeStep(s, env, cfg, policy, decision);
      SameAccount(s, Resolved(t), s', calls, p.index, usage, flow);
    }
  }

  // ---------- Any number of pauses ----------

  // What the user decides at one pause, and the policy for the calls after it.
  datatype Ruling = Ruling(policy: ToolCall -> Verdict, decision: Decision)

  // A step's batch, resumed after each of its pauses for as long as there are rulings.
  function Ruled(r: (Session, Flow), env: Env, cfg: Config, rulings: seq<Ruling>): (Session, Flow) {
    if rulings == [] then r
    else
      var (s, flow) := Ruled(r, env, cfg, rulings[..|rulings| - 1]);
      var next := rulings[|rulings| - 1];
      if flow.Halt? && flow.progress.NeedsApproval? then ResumeStep(s, env, cfg, next.policy, next.decision)
      else (s, flow)
  }

  lemma {:induction false} RuledAccounting(s: Session, r: (Session, Flow), env: Env, cfg: Config, calls: seq<ToolCall>,
                                           usage: Usage, rulings: seq<Ruling>)
    requires AnswersItsCall(env) && StepAccounted(s, r.0, calls, 0, usage, r.1)
    ensures var (s', flow) := Ruled(r, env, cfg, rulings); StepAccounted(s, s', calls, 0, usage, flow)
    decreases |rulings|
  {
    if rulings != [] {
      var earlier, next := rulings[..|rulings| - 1], rulings[|rulings| - 1];
      RuledAccounting(s, r, env, cfg, calls, usage, earlier);
      var (t, flow) := Ruled(r, env, cfg, earlier);
      if flow.Halt? && flow.progress.NeedsApproval? {
        ResumeAccounting(t, env, cfg, next.policy, next.decision, calls, usage);
        var (u, flow') := ResumeStep(t, env, cfg, next.policy, next.decision);
        StepAccountedOn(s, t, u, calls, 0, t.pending.value.index, usage, flow');
      }
    }
  }

  // From the start of a step's batch, through any number of pauses and whatever is decided at them:
  // each call is announced once, settled once and answered by one tool message, in call order.
  lemma {:induction false} StepAccounting(s: Session, env: Env, cfg: Config, policy: ToolCall -> Verdict,
                                          calls: seq<ToolCall>, text: string, usage: Usage, rulings: seq<Ruling>)
    requires AnswersItsCall(env) && Watched(s).phase == InStep(s.steps) && s.pending.None?
    ensures var asked := s.(messages := s.messages + [Asking(calls, text)]);
      var (s', flow) := Ruled(StepTools(s, env, cfg, policy, calls, text, usage), env, cfg, rulings);
      StepAccounted(asked, s', calls, 0, usage, flow)
  {
    var asked := s.(messages := s.messages + [Asking(calls, text)]);
    BatchAccounting(asked, env, cfg, policy, calls, 0, s.steps, usage);
    var (t, end) := BatchFrom(asked, CallWith(env, cfg, policy), calls, 0, s.steps, usage);
    var t' := if end.BatchDone? then t.(retries := 0) else t;
    AfterBatchAccounted(asked, t', calls, 0, usage, end);
    RuledAccounting(asked, AfterBatch(t', end, s.steps, usage), env, cfg, calls, usage, rulings);
  }
}
