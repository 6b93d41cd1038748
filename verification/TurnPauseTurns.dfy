// Whole turns with approval pauses against the turn that is never paused: exactly when they agree.
module TurnPauseTurns {
  import opened Turn
  import opened TurnGrowth
  import opened TurnPause
  import opened TurnPauseRuns

  // ---------- A stretch of passes ----------

  // A run that may have paused stands at `a`. The other run, from `start` on, is as far after some
  // passes; or it has one more pass before it that ends as `a` does once its call is approved.
  ghost predicate Catches(counter: bool, a: (Session, Flow), start: Session, g: Passing, env: Env, y: Calling) {
    exists n :: AsFar(counter, a, Loop(start, g, n), g, env, y)
  }

  predicate AsFar(counter: bool, a: (Session, Flow), b: (Session, Flow), g: Passing, env: Env, y: Calling) {
    if Waits(a.1) then b.1.Again? && PassTwins(counter, a, g(b.0), env, y)
    else NearFlow(counter, a, b) && a.0.pending.None?
  }

  // Both runs go on from like states, and part in the next pass.
  predicate PartsAt(counter: bool, a: (Session, Flow), b: (Session, Flow), parts: Parting) {
    a.1.Again? && b.1.Again? && Near(counter, a.0, b.0) && a.0.pending.None? && parts(a.0, b.0)
  }

  // The run at `a` parts from the one from `start` on at some point of that.
  ghost predicate Parted(counter: bool, a: (Session, Flow), start: Session, g: Passing, parts: Parting) {
    exists n :: PartsAt(counter, a, Loop(start, g, n), parts)
  }

  // The passes after `n` that all went on.
  lemma {:induction false} LoopLater(s: Session, g: Passing, n: nat, m: nat)
    requires Loop(s, g, n).1.Again?
    ensures Loop(s, g, n + m) == Loop(Loop(s, g, n).0, g, m)
    decreases n
  {
    if n > 0 { LoopLater(g(s).0, g, n - 1, m); }
  }

  lemma {:induction false} OnePass(t: Session, g: Passing)
    ensures Loop(t, g, 1) == g(t)
  {
    assert g(t).1.Again? ==> Loop(g(t).0, g, 0) == g(t);
  }

  lemma {:induction false} CatchesLater(counter: bool, a: (Session, Flow), start: Session, n: nat, g: Passing, env: Env,
                                        y: Calling)
    requires Loop(start, g, n).1.Again? && Catches(counter, a, Loop(start, g, n).0, g, env, y)
    ensures Catches(counter, a, start, g, env, y)
  {
    var m :| AsFar(counter, a, Loop(Loop(start, g, n).0, g, m), g, env, y);
    LoopLater(start, g, n, m);
    assert AsFar(counter, a, Loop(start, g, n + m), g, env, y);
  }

  lemma {:induction false} PartedLater(counter: bool, a: (Session, Flow), start: Session, n: nat, g: Passing,
                                       parts: Parting)
    requires Loop(start, g, n).1.Again? && Parted(counter, a, Loop(start, g, n).0, g, parts)
    ensures Parted(counter, a, start, g, parts)
  {
    var m :| PartsAt(counter, a, Loop(Loop(start, g, n).0, g, m), parts);
    LoopLater(start, g, n, m);
    assert PartsAt(counter, a, Loop(start, g, n + m), parts);
  }

  lemma {:induction false} HaltedCatches(counter: bool, a: (Session, Flow), t: Session, g: Passing, env: Env,
                                         y: Calling)
    requires PassTwins(counter, a, g(t), env, y) && !a.1.Again?
    ensures Catches(counter, a, t, g, env, y)
  {
    OnePass(t, g);
    if Waits(a.1) {
      assert AsFar(counter, a, Loop(t, g, 0), g, env, y);
    } else {
      assert AsFar(counter, a, Loop(t, g, 1), g, env, y);
    }
  }

  lemma {:induction false} PartedNow(counter: bool, s: Session, t: Session, f: Passing, g: Passing, parts: Parting)
    requires Near(counter, s, t) && s.pending.None? && parts(s, t)
    ensures Parted(counter, Loop(s, f, 0), t, g, parts)
  {
    assert PartsAt(counter, Loop(s, f, 0), Loop(t, g, 0), parts);
  }

  // Somewhere in the first `fuel` passes the run from `s` parts from the one from `t`.
  ghost predicate PartsWithin(counter: bool, s: Session, t: Session, f: Passing, g: Passing, parts: Parting,
                              fuel: nat)
  {
    exists m :: 0 <= m < fuel && Parted(counter, Loop(s, f, m), t, g, parts)
  }

  lemma {:induction false} PartsLater(counter: bool, s: Session, t: Session, f: Passing, g: Passing, parts: Parting,
                                      fuel: nat)
    requires f(s).1.Again? && g(t).1.Again? && PartsWithin(counter, f(s).0, g(t).0, f, g, parts, fuel)
    ensures PartsWithin(counter, s, t, f, g, parts, fuel + 1)
  {
    var m :| 0 <= m < fuel && Parted(counter, Loop(f(s).0, f, m), g(t).0, g, parts);
    OnePass(t, g);
    PartedLater(counter, Loop(f(s).0, f, m), t, 1, g, parts);
    assert Loop(s, f, m + 1) == Loop(f(s).0, f, m);
  }

  lemma {:induction false} LoopTwins(counter: bool, s: Session, t: Session, f: Passing, g: Passing, parts: Parting,
                                     env: Env, y: Calling, fuel: nat)
    requires PassAlike(counter, f, g, parts, env, y) && Near(counter, s, t) && s.pending.None?
    ensures Catches(counter, Loop(s, f, fuel), t, g, env, y) || PartsWithin(counter, s, t, f, g, parts, fuel)
    decreases fuel
  {
    if fuel == 0 {
      assert AsFar(counter, Loop(s, f, 0), Loop(t, g, 0), g, env, y);
    } else if parts(s, t) {
      PartedNow(counter, s, t, f, g, parts);
    } else {
      assert PassTwins(counter, f(s), g(t), env, y);
      if f(s).1.Again? {
        GoneOnTwins(counter, s, t, f, g, parts, env, y, fuel);
      } else {
        HaltedCatches(counter, f(s), t, g, env, y);
      }
    }
  }

  lemma {:induction false} GoneOnTwins(counter: bool, s: Session, t: Session, f: Passing, g: Passing, parts: Parting,
                                       env: Env, y: Calling, fuel: nat)
    requires PassAlike(counter, f, g, parts, env, y) && PassTwins(counter, f(s), g(t), env, y)
    requires fuel > 0 && f(s).1.Again?
    ensures Catches(counter, Loop(s, f, fuel), t, g, env, y) || PartsWithin(counter, s, t, f, g, parts, fuel)
    decreases fuel, 0
  {
    var s1, t1 := f(s).0, g(t).0;
    LoopTwins(counter, s1, t1, f, g, parts, env, y, fuel - 1);
    OnePass(t, g);
    if Catches(counter, Loop(s1, f, fuel - 1), t1, g, env, y) {
      CatchesLater(counter, Loop(s1, f, fuel - 1), t, 1, g, env, y);
    } else {
      PartsLater(counter, s, t, f, g, parts, fuel - 1);
    }
  }

  // What follows a resumed step.
  function Continued(a: (Session, Flow), f: Passing, fuel: nat): (Session, Flow) {
    if a.1.Again? then Loop(a.0, f, fuel) else a
  }

  ghost predicate PartsOn(counter: bool, a: (Session, Flow), f: Passing, start: Session, g: Passing, parts: Parting,
                          fuel: nat)
  {
    exists m :: 0 <= m < fuel && Parted(counter, Continued(a, f, m), start, g, parts)
  }

  // A resumed step that ends as the other run's next pass goes on in step with it, or parts from it.
  lemma {:induction false} ContinuedCatches(counter: bool, a: (Session, Flow), start: Session, n: nat, f: Passing,
                                            g: Passing, parts: Parting, env: Env, y: Calling, fuel: nat)
    requires PassAlike(counter, f, g, parts, env, y) && Loop(start, g, n).1.Again?
    requires PassTwins(counter, a, g(Loop(start, g, n).0), env, y)
    ensures Catches(counter, Continued(a, f, fuel), start, g, env, y) || PartsOn(counter, a, f, start, g, parts, fuel)
  {
    var t := Loop(start, g, n).0;
    if a.1.Again? {
      LoopLater(start, g, n, 1);
      OnePass(t, g);
      LoopTwins(counter, a.0, g(t).0, f, g, parts, env, y, fuel);
      GoneOnCatches(counter, a.0, start, n + 1, f, g, parts, env, y, fuel);
    } else {
      HaltedCatches(counter, a, t, g, env, y);
      CatchesLater(counter, a, start, n, g, env, y);
    }
  }

  lemma {:induction false} GoneOnCatches(counter: bool, s: Session, start: Session, n: nat, f: Passing, g: Passing,
                                         parts: Parting, env: Env, y: Calling, fuel: nat)
    requires Loop(start, g, n).1.Again?
    requires var t := Loop(start, g, n).0;
      Catches(counter, Loop(s, f, fuel), t, g, env, y) || PartsWithin(counter, s, t, f, g, parts, fuel)
    ensures Catches(counter, Loop(s, f, fuel), start, g, env, y)
      || PartsOn(counter, (s, Again), f, start, g, parts, fuel)
  {
    var t := Loop(start, g, n).0;
    if Catches(counter, Loop(s, f, fuel), t, g, env, y) {
      CatchesLater(counter, Loop(s, f, fuel), start, n, g, env, y);
    } else {
      var m :| 0 <= m < fuel && Parted(counter, Loop(s, f, m), t, g, parts);
      PartedLater(counter, Loop(s, f, m), start, n, g, parts);
      assert Parted(counter, Continued((s, Again), f, m), start, g, parts);
    }
  }

  // ---------- Runs with pauses, whatever starts and resumes them ----------

  type Starting = nat -> (Session, Flow)

  type Resuming = (Session, nat) -> (Session, Flow)

  // A start, then one resume after each pause, each watched for some passes.
  function Runs(first: Starting, resume: Resuming, fuels: seq<nat>): (Session, Flow)
    requires fuels != []
    decreases |fuels|
  {
    if |fuels| == 1 then first(fuels[0])
    else
      var (s, flow) := Runs(first, resume, fuels[..|fuels| - 1]);
      if Waits(flow) then resume(s, fuels[|fuels| - 1]) else (s, flow)
  }

  lemma {:induction false} RunSnoc(first: Starting, resume: Resuming, fuels: seq<nat>, m: nat)
    requires fuels != []
    ensures var (s, flow) := Runs(first, resume, fuels);
      Runs(first, resume, fuels + [m]) == if Waits(flow) then resume(s, m) else (s, flow)
  {
    assert (fuels + [m])[..|fuels + [m]| - 1] == fuels;
  }

  type Judgement = ((Session, Flow)) -> bool

  // Some point of the run so far, seen from its start or its last pause, is such a one.
  ghost predicate Somewhere(first: Starting, resume: Resuming, fuels: seq<nat>, at: Judgement) {
    exists k, m :: 0 <= k < |fuels| && 0 <= m < fuels[k] && at(Runs(first, resume, fuels[..k] + [m]))
  }

  lemma {:induction false} SomewhereLonger(first: Starting, resume: Resuming, fuels: seq<nat>, last: nat, at: Judgement)
    requires Somewhere(first, resume, fuels, at)
    ensures Somewhere(first, resume, fuels + [last], at)
  {
    var k, m :| 0 <= k < |fuels| && 0 <= m < fuels[k] && at(Runs(first, resume, fuels[..k] + [m]));
    var all := fuels + [last];
    assert all[..k] == fuels[..k] && all[k] == fuels[k];
    assert at(Runs(first, resume, all[..k] + [m]));
  }

  lemma {:induction false} SomewhereLast(first: Starting, resume: Resuming, fuels: seq<nat>, last: nat, m: nat,
                                         at: Judgement)
    requires m < last && at(Runs(first, resume, fuels + [m]))
    ensures Somewhere(first, resume, fuels + [last], at)
  {
    var all := fuels + [last];
    assert all[..|fuels|] == fuels && all[|fuels|] == last;
    assert at(Runs(first, resume, all[..|fuels|] + [m]));
  }

  // What happens somewhere in the beginning of a run happens somewhere in it.
  lemma {:induction false} SomewhereEarlier(first: Starting, resume: Resuming, fuels: seq<nat>, k: nat, m: nat,
                                            at: Judgement)
    requires k < |fuels| && m < fuels[k] && Somewhere(first, resume, fuels[..k] + [m], at)
    ensures Somewhere(first, resume, fuels, at)
  {
    var part := fuels[..k] + [m];
    var k', m' :| 0 <= k' < |part| && 0 <= m' < part[k'] && at(Runs(first, resume, part[..k'] + [m']));
    SameBefore(fuels, k, m, k');
    assert at(Runs(first, resume, fuels[..k'] + [m']));
  }

  lemma {:induction false} SameBefore(fuels: seq<nat>, k: nat, m: nat, j: nat)
    requires j <= k < |fuels| && m < fuels[k]
    ensures (fuels[..k] + [m])[..j] == fuels[..j] && (fuels[..k] + [m])[j] <= fuels[j]
  {
  }

  ghost predicate StartsWell(first: Starting, caught: Judgement, apart: Judgement) {
    forall fuel :: caught(first(fuel)) || StartsApart(first, fuel, apart)
  }

  ghost predicate StartsApart(first: Starting, fuel: nat, apart: Judgement) {
    exists m :: 0 <= m < fuel && apart(first(m))
  }

  ghost predicate ResumesWell(resume: Resuming, calm: Session -> bool, caught: Judgement, apart: Judgement) {
    forall s, flow, fuel :: Waits(flow) && calm(s) && caught((s, flow)) ==>
      caught(resume(s, fuel)) || ResumesApart(resume, s, fuel, apart)
  }

  ghost predicate ResumesApart(resume: Resuming, s: Session, fuel: nat, apart: Judgement) {
    exists m :: 0 <= m < fuel && apart(resume(s, m))
  }

  // Every pause so far was a calm one.
  predicate CalmPauses(first: Starting, resume: Resuming, fuels: seq<nat>, calm: Session -> bool) {
    forall k :: 1 <= k <= |fuels| ==>
      var (s, flow) := Runs(first, resume, fuels[..k]);
      Waits(flow) ==> calm(s)
  }

  lemma {:induction false} RunsCaught(first: Starting, resume: Resuming, fuels: seq<nat>, calm: Session -> bool,
                                      caught: Judgement, apart: Judgement)
    requires StartsWell(first, caught, apart) && ResumesWell(resume, calm, caught, apart)
    requires fuels != [] && CalmPauses(first, resume, fuels, calm)
    ensures caught(Runs(first, resume, fuels)) || Somewhere(first, resume, fuels, apart)
    decreases |fuels|
  {
    if |fuels| == 1 {
      FirstCaught(first, resume, fuels[0], caught, apart);
      assert fuels == [fuels[0]];
    } else {
      var earlier, last := fuels[..|fuels| - 1], fuels[|fuels| - 1];
      assert fuels == earlier + [last] && earlier[..|earlier|] == earlier;
      assert forall k :: 0 <= k <= |earlier| ==> earlier[..k] == fuels[..k];
      RunsCaught(first, resume, earlier, calm, caught, apart);
      if Somewhere(first, resume, earlier, apart) {
        SomewhereLonger(first, resume, earlier, last, apart);
      } else {
        LastCaught(first, resume, earlier, last, calm, caught, apart);
      }
    }
  }

  lemma {:induction false} FirstCaught(first: Starting, resume: Resuming, fuel: nat, caught: Judgement,
                                       apart: Judgement)
    requires StartsWell(first, caught, apart)
    ensures caught(Runs(first, resume, [fuel])) || Somewhere(first, resume, [fuel], apart)
  {
    if !caught(first(fuel)) {
      var m :| 0 <= m < fuel && apart(first(m));
      assert [] + [m] == [m] && [] + [fuel] == [fuel];
      SomewhereLast(first, resume, [], fuel, m, apart);
    }
  }

  lemma {:induction false} LastCaught(first: Starting, resume: Resuming, earlier: seq<nat>, last: nat,
                                      calm: Session -> bool, caught: Judgement, apart: Judgement)
    requires earlier != [] && ResumesWell(resume, calm, caught, apart)
    requires caught(Runs(first, resume, earlier))
    requires Waits(Runs(first, resume, earlier).1) ==> calm(Runs(first, resume, earlier).0)
    ensures caught(Runs(first, resume, earlier + [last])) || Somewhere(first, resume, earlier + [last], apart)
  {
    var (s, flow) := Runs(first, resume, earlier);
    RunSnoc(first, resume, earlier, last);
    if Waits(flow) && !caught(resume(s, last)) {
      assert ResumesApart(resume, s, last, apart);
      var m :| 0 <= m < last && apart(resume(s, m));
      RunSnoc(first, resume, earlier, m);
      SomewhereLast(first, resume, earlier, last, m, apart);
    }
  }

  // ---------- From where they part, the event streams differ for good ----------

  predicate Diverged(a: Session, b: Session) {
    exists i :: 0 <= i < |a.events| && i < |b.events| && a.events[i] != b.events[i]
  }

  lemma {:induction false} DivergedForGood(a: Session, a': Session, b: Session, b': Session)
    requires Diverged(a, b) && Grows(a, a') && Grows(b, b')
    ensures a'.events != b'.events
  {
    var i :| 0 <= i < |a.events| && i < |b.events| && a.events[i] != b.events[i];
    assert a'.events[i] == a.events[i] && b'.events[i] == b.events[i];
  }

  lemma {:induction false} LoopPast(start: Session, f: Passing, m: nat, n: nat)
    requires PassesGrow(f) && Loop(start, f, m).1.Again? && m < n
    ensures Grows(f(Loop(start, f, m).0).0, Loop(start, f, n).0)
  {
    var s := Loop(start, f, m).0;
    LoopLater(start, f, m, n - m);
    assert Loop(s, f, n - m) == if f(s).1.Again? then Loop(f(s).0, f, n - m - 1) else f(s);
    LoopGrows(f(s).0, f, n - m - 1);
  }

  lemma {:induction false} LoopUpTo(start: Session, g: Passing, m: nat, n: nat)
    requires m <= n && Loop(start, g, n).1.Again?
    ensures Loop(start, g, m).1.Again?
    decreases m
  {
    if m > 0 { LoopUpTo(g(start).0, g, m - 1, n - 1); }
  }

  ghost predicate ResumesGrow(resume: Resuming) {
    forall s, fuel :: Grows(s, resume(s, fuel).0)
  }

  // What a longer run adds.
  lemma {:induction false} RunsGrow(first: Starting, resume: Resuming, fuels: seq<nat>, j: nat)
    requires ResumesGrow(resume) && 1 <= j <= |fuels|
    ensures Grows(Runs(first, resume, fuels[..j]).0, Runs(first, resume, fuels).0)
    ensures !Waits(Runs(first, resume, fuels[..j]).1) ==> Runs(first, resume, fuels) == Runs(first, resume, fuels[..j])
    decreases |fuels|
  {
    if j == |fuels| {
      assert fuels[..j] == fuels;
    } else {
      var earlier, last := fuels[..|fuels| - 1], fuels[|fuels| - 1];
      assert fuels == earlier + [last] && earlier[..j] == fuels[..j];
      RunsGrow(first, resume, earlier, j);
      RunSnoc(first, resume, earlier, last);
      var s := Runs(first, resume, earlier).0;
      assert Grows(s, resume(s, last).0);
    }
  }

  // A run that goes on at some point does its next pass there.
  lemma {:induction false} GoesOnPast(start: Session, first: Starting, approve: Passing, resume: Resuming, f: Passing,
                                      fuels: seq<nat>, k: nat, m: nat)
    requires forall fuel: nat :: first(fuel) == Loop(start, f, fuel)
    requires forall s, fuel: nat :: resume(s, fuel) == Continued(approve(s), f, fuel)
    requires PassesGrow(f) && ResumesGrow(resume)
    requires k < |fuels| && m < fuels[k] && Runs(first, resume, fuels[..k] + [m]).1.Again?
    requires !Runs(first, resume, fuels).1.Again?
    ensures Grows(f(Runs(first, resume, fuels[..k] + [m]).0).0, Runs(first, resume, fuels).0)
  {
    var before := fuels[..k];
    assert fuels[..k + 1] == before + [fuels[k]];
    RunsGrow(first, resume, fuels, k + 1);
    if k > 0 {
      RunsGrow(first, resume, fuels, k);
      RunSnoc(first, resume, before, m);
    }
    StretchGoesOn(start, first, approve, resume, f, before, m, fuels[k]);
  }

  lemma {:induction false} StretchGoesOn(start: Session, first: Starting, approve: Passing, resume: Resuming,
                                         f: Passing, before: seq<nat>, m: nat, n: nat)
    requires forall fuel: nat :: first(fuel) == Loop(start, f, fuel)
    requires forall s, fuel: nat :: resume(s, fuel) == Continued(approve(s), f, fuel)
    requires PassesGrow(f) && m < n && Runs(first, resume, before + [m]).1.Again?
    requires before != [] ==> Waits(Runs(first, resume, before).1)
    ensures Grows(f(Runs(first, resume, before + [m]).0).0, Runs(first, resume, before + [n]).0)
  {
    if before == [] {
      assert before + [m] == [m] && before + [n] == [n];
      LoopPast(start, f, m, n);
    } else {
      RunSnoc(first, resume, before, m);
      RunSnoc(first, resume, before, n);
      LoopPast(approve(Runs(first, resume, before).0).0, f, m, n);
    }
  }

  // Two runs whose event streams part in the next pass never end alike.
  lemma {:induction false} NeverAlike(start: Session, first: Starting, approve: Passing, resume: Resuming, f: Passing,
                                      g: Passing, fuels: seq<nat>, k: nat, m: nat, n: nat, j: nat)
    requires forall fuel: nat :: first(fuel) == Loop(start, f, fuel)
    requires forall s, fuel: nat :: resume(s, fuel) == Continued(approve(s), f, fuel)
    requires PassesGrow(f) && PassesGrow(g) && ResumesGrow(resume)
    requires k < |fuels| && m < fuels[k] && Runs(first, resume, fuels[..k] + [m]).1.Again?
    requires !Runs(first, resume, fuels).1.Again? && Loop(start, g, n).1.Again?
    requires Diverged(f(Runs(first, resume, fuels[..k] + [m]).0).0, g(Loop(start, g, n).0).0)
    ensures !LikeFlow(Runs(first, resume, fuels), Loop(start, g, j))
  {
    var s, t := Runs(first, resume, fuels[..k] + [m]).0, Loop(start, g, n).0;
    if j <= n {
      LoopUpTo(start, g, j, n);
    } else {
      GoesOnPast(start, first, approve, resume, f, fuels, k, m);
      LoopPast(start, g, n, j);
      DivergedForGood(f(s).0, Runs(first, resume, fuels).0, g(t).0, Loop(start, g, j).0);
    }
  }
}
