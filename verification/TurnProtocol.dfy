// The order of the events a turn emits.
module TurnProtocol {
  import opened Wrappers
  import opened Tools
  import opened Turn
  import opened TurnHistory

  // Where a reader of the event stream is. `settled` lists the calls that were announced and then
  // got their result.
  datatype Phase =
    | NotStarted
    | Between(step: nat)              // the step of that number is over; 0 before the first
    | InStep(step: nat)
    | InCall(step: nat, id: string)   // a call was announced and has no result yet
    | Interrupted
    | TurnDone
    | Broken

  datatype Watch = Watch(phase: Phase, settled: seq<string>)

  const UNWATCHED := Watch(NotStarted, [])

  // The protocol: a turn starts once and ends once, after which nothing follows; steps are numbered
  // from 1 without gaps; inside a step calls are announced one at a time, each followed by its own
  // progress and exactly one result; a step is completed or interrupted at most once, before the
  // next one starts; and steers are refused by the time the turn ends.
  function See(w: Watch, e: Event): Watch {
    match (w.phase, e)
    case (NotStarted, TurnStarted) => w.(phase := Between(0))
    case (Between(n), StepStarted(k)) => w.(phase := if k == n + 1 then InStep(k) else Broken)
    case (Between(n), ContextCompacted(_, _, _, _)) => w
    case (Between(n), ReviewInjected(_)) => w
    case (Between(n), TurnEnded(_, _, refused)) => w.(phase := if refused then TurnDone else Broken)
    case (InStep(n), StreamDelta(_)) => w
    case (InStep(n), ContextCompacted(_, _, _, _)) => w.(phase := Between(n))
    case (InStep(n), StepRetrying(k, _, _)) => w.(phase := if k == n then Between(n) else Broken)
    case (InStep(n), StepCompleted(k, _, _)) => w.(phase := if k == n then Between(n) else Broken)
    case (InStep(n), StepInterrupted(k, _)) => w.(phase := if k == n then Interrupted else Broken)
    case (InStep(n), ToolStarted(call)) => w.(phase := InCall(n, call.id))
    case (InStep(n), TurnEnded(_, _, refused)) => w.(phase := if refused then TurnDone else Broken)
    case (InCall(n, id), ToolProgress(k, _)) => w.(phase := if k == id then w.phase else Broken)
    case (InCall(n, id), ToolResulted(k, _, _)) =>
      if k == id then Watch(InStep(n), w.settled + [id]) else w.(phase := Broken)
    case (InCall(n, id), StepInterrupted(k, _)) => w.(phase := if k == n then Interrupted else Broken)
    case (Interrupted, TurnEnded(_, _, refused)) => w.(phase := if refused then TurnDone else Broken)
    case _ => w.(phase := Broken)
  }

  function Follow(w: Watch, events: seq<Event>): Watch {
    if events == [] then w else See(Follow(w, events[..|events| - 1]), events[|events| - 1])
  }

  function Watched(s: Session): Watch {
    Follow(UNWATCHED, s.events)
  }

  lemma {:induction false} FollowOne(w: Watch, events: seq<Event>, e: Event)
    ensures Follow(w, events + [e]) == See(Follow(w, events), e)
  {
    assert (events + [e])[..|events|] == events;
  }

  lemma {:induction false} FollowConcat(w: Watch, a: seq<Event>, b: seq<Event>)
    ensures Follow(w, a + b) == Follow(Follow(w, a), b)
  {
    if b == [] {
      assert a + b == a;
    } else {
      var init := b[..|b| - 1];
      FollowConcat(w, a, init);
      assert (a + b)[..|a + b| - 1] == a + init;
    }
  }

  lemma {:induction false} FollowHead(w: Watch, e: Event, rest: seq<Event>)
    ensures Follow(w, [e] + rest) == Follow(See(w, e), rest)
  {
    FollowOne(w, [], e);
    assert [] + [e] == [e];
    FollowConcat(w, [e], rest);
  }

  // ---------- What the first event must be, and that the last one ends the turn ----------

  lemma {:induction false} FollowStart(events: seq<Event>)
    ensures Follow(UNWATCHED, events).phase.NotStarted? <==> events == []
    ensures Follow(UNWATCHED, events).phase.Broken? || events == [] || events[0].TurnStarted?
  {
    if events != [] {
      FollowStart(events[..|events| - 1]);
      assert |events| > 1 ==> events[..|events| - 1][0] == events[0];
    }
  }

  lemma {:induction false} DoneEnds(events: seq<Event>)
    requires Follow(UNWATCHED, events).phase.TurnDone?
    ensures events != [] && events[0].TurnStarted? && events[|events| - 1].TurnEnded?
    ensures events[|events| - 1].steersRefused
    ensures forall k :: 0 <= k < |events| - 1 ==> !events[k].TurnEnded?
    ensures forall k :: 0 < k < |events| ==> !events[k].TurnStarted?
  {
    FollowStart(events);
    var n := |events| - 1;
    assert events == events[..n] + [events[n]];
    forall k | 0 <= k < n
      ensures !events[k].TurnEnded?
    {
      EndIsLast(events, k);
    }
    forall k | 0 < k <= n
      ensures !events[k].TurnStarted?
    {
      StartIsFirst(events, k);
    }
  }

  lemma {:induction false} Stuck(w: Watch, events: seq<Event>)
    requires w.phase.Broken? || (w.phase.TurnDone? && events != [])
    ensures Follow(w, events).phase.Broken?
  {
    if |events| > 1 {
      Stuck(w, events[..|events| - 1]);
    } else if |events| == 1 {
      assert events[..0] == [];
    }
  }

  lemma {:induction false} Around(events: seq<Event>, k: nat)
    requires k < |events|
    ensures events == events[..k] + [events[k]] + events[k + 1..]
  {
  }

  // An event after which the protocol is not broken.
  lemma {:induction false} AnyEvent(before: seq<Event>, e: Event, rest: seq<Event>)
    requires !Follow(UNWATCHED, before + [e] + rest).phase.Broken?
    ensures e.TurnEnded? ==> rest == []
    ensures e.TurnStarted? ==> before == []
  {
    FollowConcat(UNWATCHED, before + [e], rest);
    FollowOne(UNWATCHED, before, e);
    FollowStart(before);
    var w := See(Follow(UNWATCHED, before), e);
    if w.phase.Broken? || (w.phase.TurnDone? && rest != []) { Stuck(w, rest); }
  }

  lemma {:induction false} EndIsLast(events: seq<Event>, k: nat)
    requires k + 1 < |events| && !Follow(UNWATCHED, events).phase.Broken?
    ensures !events[k].TurnEnded?
  {
    Around(events, k);
    AnyEvent(events[..k], events[k], events[k + 1..]);
  }

  lemma {:induction false} StartIsFirst(events: seq<Event>, k: nat)
    requires 0 < k < |events| && !Follow(UNWATCHED, events).phase.Broken?
    ensures !events[k].TurnStarted?
  {
    Around(events, k);
    AnyEvent(events[..k], events[k], events[k + 1..]);
  }

  // ---------- What the protocol says about steps ----------

  // The protocol was not broken up to any earlier point either.
  lemma {:induction false} NeverBroken(events: seq<Event>, k: nat)
    requires k <= |events| && !Follow(UNWATCHED, events).phase.Broken?
    ensures !Follow(UNWATCHED, events[..k]).phase.Broken?
  {
    assert events == events[..k] + events[k..];
    FollowConcat(UNWATCHED, events[..k], events[k..]);
    if Follow(UNWATCHED, events[..k]).phase.Broken? {
      Stuck(Follow(UNWATCHED, events[..k]), events[k..]);
    }
  }

  function Starts(events: seq<Event>): nat {
    if events == [] then 0
    else Starts(events[..|events| - 1]) + if events[|events| - 1].StepStarted? then 1 else 0
  }

  lemma {:induction false} PhaseCountsSteps(events: seq<Event>)
    ensures var phase := Follow(UNWATCHED, events).phase;
      && (phase.NotStarted? ==> Starts(events) == 0)
      && (phase.Between? || phase.InStep? || phase.InCall? ==> phase.step == Starts(events))
  {
    if events != [] { PhaseCountsSteps(events[..|events| - 1]); }
  }

  // The k-th step to start has number k.
  lemma {:induction false} StepsAreNumbered(events: seq<Event>, k: nat)
    requires !Follow(UNWATCHED, events).phase.Broken? && k < |events| && events[k].StepStarted?
    ensures events[k].step == Starts(events[..k]) + 1
  {
    NeverBroken(events, k + 1);
    assert events[..k + 1] == events[..k] + [events[k]];
    NextStepNumber(events[..k], events[k]);
  }

  lemma {:induction false} NextStepNumber(events: seq<Event>, e: Event)
    requires !Follow(UNWATCHED, events + [e]).phase.Broken? && e.StepStarted?
    ensures e.step == Starts(events) + 1
  {
    FollowOne(UNWATCHED, events, e);
    PhaseCountsSteps(events);
  }

  predicate EndsStep(e: Event) {
    e.StepCompleted? || e.StepInterrupted?
  }

  predicate OutsideStep(phase: Phase) {
    !phase.InStep? && !phase.InCall? && !phase.NotStarted?
  }

  lemma {:induction false} StaysOutside(w: Watch, events: seq<Event>)
    requires OutsideStep(w.phase) && forall k :: 0 <= k < |events| ==> !events[k].StepStarted?
    ensures OutsideStep(Follow(w, events).phase)
  {
    if events != [] { StaysOutside(w, events[..|events| - 1]); }
  }

  // Between two ends of steps another step starts: no step is both completed and interrupted, or
  // either of them twice.
  lemma {:induction false} OneEndPerStep(events: seq<Event>, i: nat, j: nat)
    requires !Follow(UNWATCHED, events).phase.Broken?
    requires i < j < |events| && EndsStep(events[i]) && EndsStep(events[j])
    ensures exists k :: i < k < j && events[k].StepStarted?
  {
    EndLeavesStep(events, i);
    EndLeavesStep(events, j);
    if forall k :: i < k < j ==> !events[k].StepStarted? {
      var before, between := events[..i + 1], events[i + 1..j];
      JoinedSlices(events, i + 1, j);
      OutsideAfter(before, between);
    }
  }

  lemma {:induction false} JoinedSlices(events: seq<Event>, i: nat, j: nat)
    requires i <= j <= |events|
    ensures events[..j] == events[..i] + events[i..j]
    ensures forall k :: 0 <= k < j - i ==> events[i..j][k] == events[i + k]
  {
  }

  lemma {:induction false} OutsideAfter(before: seq<Event>, between: seq<Event>)
    requires OutsideStep(Follow(UNWATCHED, before).phase)
    requires forall k :: 0 <= k < |between| ==> !between[k].StepStarted?
    ensures OutsideStep(Follow(UNWATCHED, before + between).phase)
  {
    FollowConcat(UNWATCHED, before, between);
    StaysOutside(Follow(UNWATCHED, before), between);
  }

  ghost predicate StepsNumbered(events: seq<Event>) {
    forall k :: 0 <= k < |events| && events[k].StepStarted? ==> events[k].step == Starts(events[..k]) + 1
  }

  ghost predicate StepsEndOnce(events: seq<Event>) {
    forall i, j :: 0 <= i < j < |events| && EndsStep(events[i]) && EndsStep(events[j]) ==> StartsBetween(events, i, j)
  }

  ghost predicate StartsBetween(events: seq<Event>, i: nat, j: nat)
    requires j <= |events|
  {
    exists k :: i < k < j && events[k].StepStarted?
  }

  lemma {:induction false} UnbrokenSteps(events: seq<Event>)
    requires !Follow(UNWATCHED, events).phase.Broken?
    ensures StepsNumbered(events) && StepsEndOnce(events)
  {
    forall k | 0 <= k < |events| && events[k].StepStarted?
      ensures events[k].step == Starts(events[..k]) + 1
    {
      StepsAreNumbered(events, k);
    }
    forall i, j | 0 <= i < j < |events| && EndsStep(events[i]) && EndsStep(events[j])
      ensures StartsBetween(events, i, j)
    {
      OneEndPerStep(events, i, j);
    }
  }

  // A step is ended from inside, and then left.
  lemma {:induction false} EndLeavesStep(events: seq<Event>, k: nat)
    requires !Follow(UNWATCHED, events).phase.Broken? && k < |events| && EndsStep(events[k])
    ensures !OutsideStep(Follow(UNWATCHED, events[..k]).phase)
    ensures OutsideStep(Follow(UNWATCHED, events[..k + 1]).phase)
  {
    NeverBroken(events, k + 1);
    assert events[..k + 1] == events[..k] + [events[k]];
    NextLeavesStep(events[..k], events[k]);
  }

  lemma {:induction false} NextLeavesStep(events: seq<Event>, e: Event)
    requires !Follow(UNWATCHED, events + [e]).phase.Broken? && EndsStep(e)
    ensures !OutsideStep(Follow(UNWATCHED, events).phase) && OutsideStep(Follow(UNWATCHED, events + [e]).phase)
  {
    FollowOne(UNWATCHED, events, e);
  }

  // ---------- Batches ----------

  lemma {:induction false} FinishWatched(s: Session, reason: EndReason, failure: Option<Failure>, truncated: bool)
    requires Watched(s).phase.Between? || Watched(s).phase.InStep? || Watched(s).phase.Interrupted?
    ensures Watched(Finish(s, reason, failure, truncated).0) == Watched(s).(phase := TurnDone)
  {
    FollowOne(UNWATCHED, s.events, TurnEnded(reason, failure, true));
  }

  lemma {:induction false} AbortedWatched(s: Session, step: nat)
    requires Watched(s).phase.InStep? || Watched(s).phase.InCall?
    requires Watched(s).phase.step == step
    ensures Watched(Aborted(s, step).0) == Watched(s).(phase := TurnDone)
  {
    FollowOne(UNWATCHED, s.events, StepInterrupted(step, true));
    FinishWatched(Emit(s, StepInterrupted(step, true)), TurnCancelled, None, false);
  }

  lemma {:induction false} ProgressWatched(w: Watch, id: string, updates: seq<string>)
    requires w.phase.InCall? && w.phase.id == id
    ensures Follow(w, ProgressEvents(id, updates)) == w
  {
    if updates != [] {
      FollowHead(w, ToolProgress(id, updates[0]), ProgressEvents(id, updates[1..]));
      ProgressWatched(w, id, updates[1..]);
    }
  }

  lemma {:induction false} RunToolWatched(s: Session, env: Env, call: ToolCall, batch: seq<ToolCall>)
    requires Watched(s).phase.InStep?
    ensures var (s', result) := RunTool(s, env, call, batch);
      && (result.Some? ==> Watched(s') == Watched(s).(phase := InCall(Watched(s).phase.step, call.id)))
      && (result.None? ==> (Watched(s').phase.InStep? || Watched(s').phase.InCall?)
                           && Watched(s').phase.step == Watched(s).phase.step
                           && Watched(s').settled == Watched(s).settled)
  {
    FollowOne(UNWATCHED, s.events, ToolStarted(call));
    if env.race(s.clock.runs).Finishes? {
      var updates := env.exec(s.clock.runs, call, batch).updates;
      FollowConcat(UNWATCHED, s.events + [ToolStarted(call)], ProgressEvents(call.id, updates));
      ProgressWatched(See(Watched(s), ToolStarted(call)), call.id, updates);
    }
  }

  lemma {:induction false} SettleWatched(s: Session, r: ToolResult)
    requires Watched(s).phase.InCall? && Watched(s).phase.id == r.callId
    ensures Watched(Settle(s, r)) == Watch(InStep(Watched(s).phase.step), Watched(s).settled + [r.callId])
  {
    FollowOne(UNWATCHED, s.events, ToolResulted(r.callId, r.output, r.isError));
  }

  lemma {:induction false} FinalizeWatched(s: Session, callId: string, r: ToolResult)
    requires Watched(s).phase.InCall? && Watched(s).phase.id == r.callId == callId
    ensures Watched(Finalize(s, callId, r).0) == Watch(InStep(Watched(s).phase.step), Watched(s).settled + [callId])
  {
    var (d, final) := D.Finalized(s.dedupe, callId, r);
    var answer := Answer(s.steps, D.KeyInFlight(s.dedupe, callId), final.output, true);
    SettleWatched(s.(dedupe := d, answers := s.answers + [answer]), final);
  }

  lemma {:induction false} AnnounceWatched(s: Session, call: ToolCall)
    requires Watched(s).phase.InStep?
    ensures Watched(Emit(s, ToolStarted(call))) == Watched(s).(phase := InCall(Watched(s).phase.step, call.id))
  {
    FollowOne(UNWATCHED, s.events, ToolStarted(call));
  }

  lemma {:induction false} SettleNowWatched(s: Session, call: ToolCall, r: ToolResult)
    requires Watched(s).phase.InStep? && r.callId == call.id
    ensures Watched(SettleNow(s, call, r)) == Watched(s).(settled := Watched(s).settled + [call.id])
  {
    AnnounceWatched(s, call);
    SettleWatched(Emit(s, ToolStarted(call)), r);
  }

  lemma {:induction false} SharedWatched(s: Session, call: ToolCall)
    requires Watched(s).phase.InStep?
    ensures Watched(SettleShared(s, call)) == Watched(s).(settled := Watched(s).settled + [call.id])
  {
    var shared := Shared(s.dedupe, call);
    var answer := Answer(s.steps, Some(KeyOf(call)), shared.output, KeyOf(call) in s.dedupe.stepResults);
    SettleNowWatched(s.(answers := s.answers + [answer]), call, shared);
  }

  // A call that does not end the turn is announced and settled once.
  predicate CallWatched(w: Watch, s': Session, p: Pending, end: CallEnd) {
    match end
    case Leaves(NeedsApproval(_)) => Watched(s') == w && s'.pending == Some(p)
    case Leaves(TurnOver(_)) => Watched(s') == w.(phase := TurnDone)
    case _ => Watched(s') == w.(settled := w.settled + [p.call.id])
  }

  ghost predicate FollowsProtocol(one: Calling) {
    forall s, p: Pending :: Watched(s).phase == InStep(p.step) ==> CallWatched(Watched(s), one(s, p).0, p, one(s, p).1)
  }

  lemma {:induction false} OneCallWatched(s: Session, env: Env, cfg: Config, policy: ToolCall -> Verdict, p: Pending)
    requires AnswersItsCall(env) && Watched(s).phase == InStep(p.step)
    ensures var (s', end) := OneCall(s, env, cfg, policy, p); CallWatched(Watched(s), s', p, end)
  {
    var s0 := AskFlag(s);
    if env.flag(s.clock.flags) {
      AbortedWatched(s0, p.step);
    } else {
      var (s1, duplicate) := Checked(s0, p.call);
      if duplicate {
        SharedWatched(s1, p.call);
      } else {
        match policy(p.call)
        case Approve => ApprovedWatched(s1, env, p.call, p.batch, p.step);
        case Deny(reason) =>
          AnnounceWatched(s1, p.call);
          FinalizeWatched(Emit(s1, ToolStarted(p.call)), p.call.id, ErrorResult(p.call, WorkerText(cfg, reason)));
        case Ask =>
      }
    }
  }

  lemma {:induction false} CallsFollowProtocol(env: Env, cfg: Config, policy: ToolCall -> Verdict)
    requires AnswersItsCall(env)
    ensures FollowsProtocol(CallWith(env, cfg, policy))
  {
    forall s, p: Pending | Watched(s).phase == InStep(p.step)
      ensures CallWatched(Watched(s), OneCall(s, env, cfg, policy, p).0, p, OneCall(s, env, cfg, policy, p).1)
    {
      OneCallWatched(s, env, cfg, policy, p);
    }
  }

  lemma {:induction false} ApprovedWatched(s: Session, env: Env, call: ToolCall, batch: seq<ToolCall>, step: nat)
    requires AnswersItsCall(env) && Watched(s).phase == InStep(step)
    ensures var (s', end) := ApprovedCall(s, env, call, batch, step);
      && (end.Leaves? ==> end.progress.TurnOver? && Watched(s') == Watched(s).(phase := TurnDone))
      && (!end.Leaves? ==> Watched(s') == Watched(s).(settled := Watched(s).settled + [call.id]))
  {
    var (s1, result) := RunTool(Resolved(s), env, call, batch);
    RunToolWatched(Resolved(s), env, call, batch);
    if result.None? {
      AbortedWatched(s1, step);
    } else {
      FinalizeWatched(s1, call.id, result.value);
    }
  }

  lemma {:induction false} SkipWatched(s: Session, calls: seq<ToolCall>, i: nat)
    requires i <= |calls| && Watched(s).phase.InStep?
    ensures Watched(SkipFrom(s, calls, i)) == Watched(s).(settled := Watched(s).settled + CallIds(calls)[i..])
    decreases |calls| - i
  {
    if i < |calls| {
      var r := ErrorResult(calls[i], TOOL_SKIPPED);
      SettleNowWatched(s, calls[i], r);
      SkipWatched(SettleNow(s, calls[i], r), calls, i + 1);
      OneMoreSettled(Watched(s).settled, calls, i);
    } else {
      NothingSettled(Watched(s), calls, i);
    }
  }

  lemma {:induction false} OneMoreSettled(settled: seq<string>, calls: seq<ToolCall>, i: nat)
    requires i < |calls|
    ensures settled + [calls[i].id] + CallIds(calls)[i + 1..] == settled + CallIds(calls)[i..]
  {
    assert CallIds(calls)[i..] == [calls[i].id] + CallIds(calls)[i + 1..];
  }

  lemma {:induction false} NothingSettled(w: Watch, calls: seq<ToolCall>, i: nat)
    requires i <= |calls|
    ensures w.(settled := w.settled + CallIds(calls)[i..i]) == w
    ensures i == |calls| ==> w.(settled := w.settled + CallIds(calls)[i..]) == w
  {
    assert CallIds(calls)[i..i] == [] && w.settled + [] == w.settled;
  }
}
