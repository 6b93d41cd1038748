// The bounded queue between the engine and its host (bridge engine.rs): a mutex, three condition
// variables, and what each critical section does to the state they guard.
module EventChannel {

  datatype EngineEvent = EngineEvent(json: string)

  datatype Channel = Channel(queue: seq<EngineEvent>, cap: nat, pushed: nat, delivered: nat, closed: bool)

  // How a pass through the wait loop of `send`, `recv` or `wait_caught_up` ends; `MustWait` means
  // that the thread goes to sleep on the condition variable.
  datatype Sent = Accepted | Refused | SendMustWait
  datatype Received = Event(event: EngineEvent) | NoMore | RecvMustWait

  function Opened(cap: nat): Channel {
    Channel([], cap, 0, 0, false)
  }

  function SendPass(c: Channel, e: EngineEvent): (Channel, Sent) {
    if |c.queue| >= c.cap && !c.closed then (c, SendMustWait)
    else if c.closed then (c, Refused)
    else (c.(queue := c.queue + [e], pushed := c.pushed + 1), Accepted)
  }

  function RecvPass(c: Channel): (Channel, Received) {
    if c.queue == [] && !c.closed then (c, RecvMustWait)
    else if c.queue == [] then (c, NoMore)
    else (c.(queue := c.queue[1..]), Event(c.queue[0]))
  }

  function Marked(c: Channel): Channel {
    c.(delivered := c.delivered + 1)
  }

  function Closed(c: Channel): Channel {
    c.(closed := true)
  }

  // Whether `wait_caught_up` may return.
  predicate CaughtUp(c: Channel) {
    c.delivered >= c.pushed || c.closed
  }

  // The channel as it is written. A method is one critical section: what a thread does between
  // taking the mutex and either returning or going to sleep.
  class EngineEventChannel {
    var queue: seq<EngineEvent>
    const cap: nat
    var pushed: nat
    var delivered: nat
    var closed: bool

    ghost function State(): Channel
      reads this
    {
      Channel(queue, cap, pushed, delivered, closed)
    }

    constructor (cap: nat)
      ensures State() == Opened(cap)
    {
      queue, this.cap, pushed, delivered, closed := [], cap, 0, 0, false;
    }

    method Send(event: EngineEvent) returns (sent: Sent)
      modifies this
      ensures (State(), sent) == SendPass(old(State()), event)
    {
      if |queue| >= cap && !closed {
        return SendMustWait;
      }
      if closed {
        return Refused;
      }
      queue := queue + [event];
      pushed := pushed + 1;
      sent := Accepted;
    }

    method Recv() returns (received: Received)
      modifies this
      ensures (State(), received) == RecvPass(old(State()))
    {
      if queue == [] && !closed {
        return RecvMustWait;
      }
      if queue == [] {
        return NoMore;
      }
      received := Event(queue[0]);
      queue := queue[1..];
    }

    method MarkDelivered()
      modifies this
      ensures State() == Marked(old(State()))
    {
      delivered := delivered + 1;
    }

    method WaitCaughtUp() returns (caughtUp: bool)
      ensures caughtUp == CaughtUp(State())
    {
      caughtUp := !(delivered < pushed && !closed);
    }

    method Close()
      modifies this
      ensures State() == Closed(old(State()))
    {
      closed := true;
    }
  }
}

// The threads around the channel: any number of senders and waiters, and one forwarder. A step is
// one critical section, or one submission to the host; steps interleave in any order.
module ChannelThreads {
  import opened Wrappers
  import opened EventChannel

  // Where a thread is in its wait loop. A parked thread is in the wait set of its condition
  // variable, and moves on only when woken.
  datatype Place = Entering | Parked | Woken

  datatype Thread =
    | Free
    | Sending(event: EngineEvent, place: Place)
    | Waiting(place: Place)

  datatype Forwarder =
    | Receiving(place: Place)
    | Submitting(event: EngineEvent)
    | Marking
    | Closing
    | Exited

  // `accepted`, `submitted` and `lost` only record: the events `send` took, those handed to the host
  // (an event that cannot be serialised counts too), and the one the host refused.
  datatype System = System(
    chan: Channel,
    threads: seq<Thread>,
    forwarder: Forwarder,
    accepted: seq<EngineEvent>,
    submitted: seq<EngineEvent>,
    lost: seq<EngineEvent>)

  datatype Step =
    | StartSend(t: nat, event: EngineEvent)
    | StartWait(t: nat)
    | SendStep(t: nat)
    | WaitStep(t: nat)
    | RecvStep(wakes: nat)
    | SubmitStep(hostGone: bool)
    | MarkStep
    | CloseStep
    | ForwarderCloseStep
    | SpuriousWake(t: nat)
    | SpuriousForwarderWake

  predicate ParkedSender(t: Thread) {
    t.Sending? && t.place.Parked?
  }

  predicate ParkedWaiter(t: Thread) {
    t.Waiting? && t.place.Parked?
  }

  predicate WokenSender(t: Thread) {
    t.Sending? && t.place.Woken?
  }

  function Count(threads: seq<Thread>): nat {
    if threads == [] then 0 else Count(threads[1..]) + if WokenSender(threads[0]) then 1 else 0
  }

  function Wake(t: Thread): Thread {
    if ParkedSender(t) || ParkedWaiter(t) then t.(place := Woken) else t
  }

  // notify_all
  function WakeAll(threads: seq<Thread>): (woken: seq<Thread>)
    ensures |woken| == |threads|
    ensures forall t :: 0 <= t < |threads| ==> woken[t] == Wake(threads[t])
  {
    if threads == [] then [] else [Wake(threads[0])] + WakeAll(threads[1..])
  }

  function WakeWaiter(t: Thread): Thread {
    if ParkedWaiter(t) then Waiting(Woken) else t
  }

  function WakeWaiters(threads: seq<Thread>): (woken: seq<Thread>)
    ensures |woken| == |threads|
    ensures forall t :: 0 <= t < |threads| ==> woken[t] == WakeWaiter(threads[t])
  {
    if threads == [] then [] else [WakeWaiter(threads[0])] + WakeWaiters(threads[1..])
  }

  function WakeForwarder(f: Forwarder): Forwarder {
    if f == Receiving(Parked) then Receiving(Woken) else f
  }

  // Whether the thread is about to take the mutex.
  predicate Ready(p: Place) {
    p.Entering? || p.Woken?
  }

  predicate Enabled(s: System, step: Step) {
    match step
    case StartSend(t, _) => t < |s.threads| && s.threads[t].Free?
    case StartWait(t) => t < |s.threads| && s.threads[t].Free?
    case SendStep(t) => t < |s.threads| && s.threads[t].Sending? && Ready(s.threads[t].place)
    case WaitStep(t) => t < |s.threads| && s.threads[t].Waiting? && Ready(s.threads[t].place)
    // notify_one wakes some parked sender if there is one
    case RecvStep(wakes) =>
      && s.forwarder.Receiving? && Ready(s.forwarder.place)
      && ((exists t :: 0 <= t < |s.threads| && ParkedSender(s.threads[t])) ==>
            wakes < |s.threads| && ParkedSender(s.threads[wakes]))
    case SubmitStep(_) => s.forwarder.Submitting?
    case MarkStep => s.forwarder.Marking?
    case CloseStep => true
    case ForwarderCloseStep => s.forwarder.Closing?
    case SpuriousWake(t) => t < |s.threads| && Wake(s.threads[t]) != s.threads[t]
    case SpuriousForwarderWake => s.forwarder == Receiving(Parked)
  }

  function Send(s: System, t: nat): System
    requires Enabled(s, SendStep(t))
  {
    var e := s.threads[t].event;
    var (chan, sent) := SendPass(s.chan, e);
    match sent
    case SendMustWait => s.(threads := s.threads[t := Sending(e, Parked)])
    case Refused => s.(threads := s.threads[t := Free])
    case Accepted =>
      s.(chan := chan, threads := s.threads[t := Free], accepted := s.accepted + [e],
         forwarder := WakeForwarder(s.forwarder))
  }

  function WakeOneSender(threads: seq<Thread>, t: nat): seq<Thread> {
    if t < |threads| && ParkedSender(threads[t]) then threads[t := Wake(threads[t])] else threads
  }

  function Recv(s: System, wakes: nat): System {
    var (chan, received) := RecvPass(s.chan);
    match received
    case RecvMustWait => s.(forwarder := Receiving(Parked))
    case NoMore => s.(forwarder := Exited)
    case Event(e) => s.(chan := chan, forwarder := Submitting(e), threads := WakeOneSender(s.threads, wakes))
  }

  function Submit(s: System, hostGone: bool): System
    requires s.forwarder.Submitting?
  {
    if hostGone then s.(forwarder := Closing, lost := s.lost + [s.forwarder.event])
    else s.(forwarder := Marking, submitted := s.submitted + [s.forwarder.event])
  }

  function Close(s: System): System {
    s.(chan := Closed(s.chan), threads := WakeAll(s.threads), forwarder := WakeForwarder(s.forwarder))
  }

  function Next(s: System, step: Step): System
    requires Enabled(s, step)
  {
    match step
    case StartSend(t, e) => s.(threads := s.threads[t := Sending(e, Entering)])
    case StartWait(t) => s.(threads := s.threads[t := Waiting(Entering)])
    case SendStep(t) => Send(s, t)
    case WaitStep(t) => s.(threads := s.threads[t := if CaughtUp(s.chan) then Free else Waiting(Parked)])
    case RecvStep(wakes) => Recv(s, wakes)
    case SubmitStep(hostGone) => Submit(s, hostGone)
    case MarkStep =>
      s.(chan := Marked(s.chan), threads := WakeWaiters(s.threads), forwarder := Receiving(Entering))
    case CloseStep => Close(s)
    case ForwarderCloseStep => Close(s).(forwarder := Exited)
    case SpuriousWake(t) => s.(threads := s.threads[t := Wake(s.threads[t])])
    case SpuriousForwarderWake => s.(forwarder := Receiving(Woken))
  }

  // ---------- The invariant ----------

  function InFlight(f: Forwarder): seq<EngineEvent> {
    if f.Submitting? then [f.event] else []
  }

  // No event is dropped, doubled or reordered; counters, capacity and the closing protocol.
  ghost predicate Conserved(s: System) {
    && s.accepted == s.submitted + s.lost + InFlight(s.forwarder) + s.chan.queue
    && |s.lost| <= 1
    && (s.lost != [] ==> s.forwarder.Closing? || (s.forwarder.Exited? && s.chan.closed))
    && |s.chan.queue| <= s.chan.cap
    && s.chan.pushed == |s.accepted|
    && s.chan.delivered + (if s.forwarder.Marking? then 1 else 0) == |s.submitted|
    && (s.forwarder.Closing? ==> |s.lost| == 1)
    && (s.forwarder.Exited? ==> s.chan.closed)
  }

  // Nobody sleeps through what it waits for.
  ghost predicate NoLostWakeup(s: System) {
    && (!s.chan.closed ==>
          && (forall t :: 0 <= t < |s.threads| && ParkedWaiter(s.threads[t]) ==> s.chan.delivered < s.chan.pushed)
          && (forall t :: 0 <= t < |s.threads| && ParkedSender(s.threads[t]) ==>
                |s.chan.queue| + Count(s.threads) >= s.chan.cap)
          && (s.forwarder == Receiving(Parked) ==> s.chan.queue == []))
    && (s.chan.closed ==>
          && (forall t :: 0 <= t < |s.threads| ==> !ParkedWaiter(s.threads[t]) && !ParkedSender(s.threads[t]))
          && s.forwarder != Receiving(Parked))
  }

  ghost predicate Inv(s: System) {
    Conserved(s) && NoLostWakeup(s)
  }

  predicate Initial(s: System) {
    && s.chan == Opened(s.chan.cap) && s.forwarder == Receiving(Entering)
    && s.accepted == [] && s.submitted == [] && s.lost == []
    && forall t :: 0 <= t < |s.threads| ==> s.threads[t].Free?
  }

  lemma {:induction false} InitialInv(s: System)
    requires Initial(s)
    ensures Inv(s)
  {
  }

  lemma {:induction false} CountUpdate(threads: seq<Thread>, t: nat, new1: Thread)
    requires t < |threads|
    ensures Count(threads[t := new1]) + (if WokenSender(threads[t]) then 1 else 0)
      == Count(threads) + if WokenSender(new1) then 1 else 0
  {
    if t == 0 {
      assert threads[0 := new1][1..] == threads[1..];
    } else {
      CountUpdate(threads[1..], t - 1, new1);
      assert threads[t := new1][1..] == threads[1..][t - 1 := new1];
    }
  }

  lemma {:induction false} CountWaitersWoken(threads: seq<Thread>)
    ensures Count(WakeWaiters(threads)) == Count(threads)
  {
    if threads != [] {
      CountWaitersWoken(threads[1..]);
      assert WakeWaiters(threads)[1..] == WakeWaiters(threads[1..]);
    }
  }

  lemma {:induction false} SendConserved(s: System, t: nat)
    requires Conserved(s) && Enabled(s, SendStep(t))
    ensures Conserved(Send(s, t))
  {
    Regroup(s.submitted + s.lost + InFlight(s.forwarder), s.chan.queue, [s.threads[t].event]);
  }

  lemma {:induction false} RecvConserved(s: System, wakes: nat)
    requires Conserved(s) && Enabled(s, RecvStep(wakes))
    ensures Conserved(Recv(s, wakes))
  {
    if s.chan.queue != [] {
      var e, rest := s.chan.queue[0], s.chan.queue[1..];
      TakenFromQueue(s.submitted + s.lost, e, rest);
      assert s.chan.queue == [e] + rest;
    }
  }

  lemma {:induction false} TakenFromQueue(before: seq<EngineEvent>, e: EngineEvent, rest: seq<EngineEvent>)
    ensures before + [] + ([e] + rest) == before + [e] + rest
  {
  }

  lemma {:induction false} SubmitConserved(s: System, hostGone: bool)
    requires Conserved(s) && Enabled(s, SubmitStep(hostGone))
    ensures Conserved(Submit(s, hostGone))
  {
    assert s.lost == [];
    HandedOver(s.submitted, s.forwarder.event, s.chan.queue);
  }

  lemma {:induction false} HandedOver(before: seq<EngineEvent>, e: EngineEvent, queue: seq<EngineEvent>)
    ensures before + [] + [e] + queue == before + [e] + [] + queue
    ensures before + [] + [e] + queue == (before + [e]) + [] + [] + queue
    ensures before + [] + [e] + queue == before + ([] + [e]) + [] + queue
  {
  }

  // No event is lost, doubled or reordered by any step.
  lemma {:induction false} ConservedNext(s: System, step: Step)
    requires Conserved(s) && Enabled(s, step)
    ensures Conserved(Next(s, step))
  {
    match step
    case SendStep(t) => SendConserved(s, t);
    case RecvStep(wakes) => RecvConserved(s, wakes);
    case SubmitStep(hostGone) => SubmitConserved(s, hostGone);
    case _ =>
  }

  lemma {:induction false} SendWakes(s: System, t: nat)
    requires Inv(s) && Enabled(s, SendStep(t))
    ensures NoLostWakeup(Send(s, t))
  {
    CountUpdate(s.threads, t, Free);
    CountUpdate(s.threads, t, Sending(s.threads[t].event, Parked));
  }

  lemma {:induction false} RecvWakes(s: System, wakes: nat)
    requires Inv(s) && Enabled(s, RecvStep(wakes))
    ensures NoLostWakeup(Recv(s, wakes))
  {
    if wakes < |s.threads| {
      CountUpdate(s.threads, wakes, Wake(s.threads[wakes]));
    }
  }

  lemma {:induction false} ThreadWakes(s: System, t: nat, new1: Thread)
    requires NoLostWakeup(s) && t < |s.threads| && !ParkedSender(new1)
    requires WokenSender(s.threads[t]) ==> WokenSender(new1)
    requires ParkedWaiter(new1) ==> !CaughtUp(s.chan)
    ensures NoLostWakeup(s.(threads := s.threads[t := new1]))
  {
    CountUpdate(s.threads, t, new1);
  }

  lemma {:induction false} WakesNext(s: System, step: Step)
    requires Inv(s) && Enabled(s, step)
    ensures NoLostWakeup(Next(s, step))
  {
    match step
    case StartSend(t, e) => ThreadWakes(s, t, Sending(e, Entering));
    case StartWait(t) => ThreadWakes(s, t, Waiting(Entering));
    case SendStep(t) => SendWakes(s, t);
    case WaitStep(t) => ThreadWakes(s, t, if CaughtUp(s.chan) then Free else Waiting(Parked));
    case RecvStep(wakes) => RecvWakes(s, wakes);
    case MarkStep => CountWaitersWoken(s.threads);
    case SpuriousWake(t) => ThreadWakes(s, t, Wake(s.threads[t]));
    case _ =>
  }

  // ---------- Every interleaving ----------

  ghost predicate IsRun(s: System, steps: seq<Step>)
    decreases |steps|
  {
    steps == [] || (Enabled(s, steps[0]) && IsRun(Next(s, steps[0]), steps[1..]))
  }

  function After(s: System, steps: seq<Step>): System
    requires IsRun(s, steps)
    decreases |steps|
  {
    if steps == [] then s else After(Next(s, steps[0]), steps[1..])
  }

  // The invariant holds after every run, whatever the interleaving.
  lemma {:induction false} EveryRunKeepsInv(s: System, steps: seq<Step>)
    requires Inv(s) && IsRun(s, steps)
    ensures Inv(After(s, steps))
    decreases |steps|
  {
    if steps != [] {
      ConservedNext(s, steps[0]);
      WakesNext(s, steps[0]);
      EveryRunKeepsInv(Next(s, steps[0]), steps[1..]);
    }
  }

  predicate IsPrefix(a: seq<EngineEvent>, b: seq<EngineEvent>) {
    |a| <= |b| && a == b[..|a|]
  }

  // First in, first out: the host got a prefix of what was accepted, in order; as long as it never
  // refused an event, the rest is in flight or queued.
  lemma {:induction false} HostSeesPrefix(s0: System, steps: seq<Step>)
    requires Initial(s0) && IsRun(s0, steps)
    ensures var s := After(s0, steps);
      && IsPrefix(s.submitted, s.accepted)
      && (s.lost == [] ==> s.accepted == s.submitted + InFlight(s.forwarder) + s.chan.queue)
      && |s.chan.queue| <= s.chan.cap && s.chan.delivered <= s.chan.pushed
  {
    InitialInv(s0);
    EveryRunKeepsInv(s0, steps);
    var s := After(s0, steps);
    Regroup(s.submitted, s.lost, InFlight(s.forwarder));
    Regroup(s.submitted, s.lost + InFlight(s.forwarder), s.chan.queue);
    assert s.accepted == s.submitted + (s.lost + InFlight(s.forwarder) + s.chan.queue);
    assert s.submitted + [] == s.submitted;
  }

  // The delivery barrier: `wait_caught_up` returns only when every accepted event was submitted, or
  // the channel is closed.
  lemma {:induction false} WaitIsBarrier(s: System, t: nat)
    requires Inv(s) && Enabled(s, WaitStep(t)) && Next(s, WaitStep(t)).threads[t].Free?
    ensures s.chan.closed || s.submitted == s.accepted
  {
    if !s.chan.closed {
      assert |s.submitted| >= |s.accepted|;
      assert s.lost == [] && InFlight(s.forwarder) == [] && s.chan.queue == [];
      assert s.submitted + [] + [] + [] == s.submitted;
    }
  }

  // A send ends in one of three ways, and fails only on a closed channel.
  lemma {:induction false} SendEnds(s: System, t: nat)
    requires Enabled(s, SendStep(t))
    ensures var s' := Next(s, SendStep(t));
      var e := s.threads[t].event;
      || (s'.threads[t].Free? && s'.accepted == s.accepted + [e] && !s.chan.closed && |s.chan.queue| < s.chan.cap)
      || (s'.threads[t].Free? && s'.accepted == s.accepted && s.chan.closed)
      || (ParkedSender(s'.threads[t]) && s'.accepted == s.accepted && !s.chan.closed && |s.chan.queue| >= s.chan.cap)
  {
  }

  // Once the channel is closed nobody sleeps: every send and wait returns at the thread's next step,
  // and `recv` still hands out what is queued before it ends.
  lemma {:induction false} ClosedReleases(s: System, t: nat)
    requires Inv(s) && s.chan.closed && t < |s.threads|
    ensures s.threads[t].Sending? ==> Enabled(s, SendStep(t)) && Next(s, SendStep(t)).threads[t].Free?
    ensures s.threads[t].Waiting? ==> Enabled(s, WaitStep(t)) && Next(s, WaitStep(t)).threads[t].Free?
    ensures s.forwarder.Receiving? ==>
      Enabled(s, RecvStep(t))
      && Next(s, RecvStep(t)).forwarder == (if s.chan.queue == [] then Exited else Submitting(s.chan.queue[0]))
  {
  }

  // ---------- Progress ----------

  // Steps that wait for nobody: neither new calls, nor a close, nor a wake-up out of nowhere.
  predicate Productive(s: System, step: Step) {
    match step
    case SendStep(t) => t < |s.threads| && s.threads[t].Sending? && s.threads[t].place.Woken?
    case RecvStep(_) => true
    case SubmitStep(_) => true
    case MarkStep => true
    case ForwarderCloseStep => true
    case _ => false
  }

  // No thread is stuck: while one sleeps, the forwarder or an already woken sender can move.
  lemma {:induction false} NobodyIsStuck(s: System, t: nat)
    requires Inv(s) && s.chan.cap > 0 && t < |s.threads| && (ParkedSender(s.threads[t]) || ParkedWaiter(s.threads[t]))
    ensures exists step :: Enabled(s, step) && Productive(s, step)
  {
    if s.forwarder.Receiving? {
      if s.forwarder.place.Parked? {
        assert s.submitted + [] + [] + [] == s.submitted;
        assert ParkedSender(s.threads[t]) && Count(s.threads) > 0;
        var w := WokenIndex(s.threads);
        assert Enabled(s, SendStep(w)) && Productive(s, SendStep(w));
      } else {
        var w := ToWake(s);
        assert Enabled(s, RecvStep(w)) && Productive(s, RecvStep(w));
      }
    } else if s.forwarder.Submitting? {
      assert Enabled(s, SubmitStep(false)) && Productive(s, SubmitStep(false));
    } else if s.forwarder.Marking? {
      assert Enabled(s, MarkStep) && Productive(s, MarkStep);
    } else {
      assert Enabled(s, ForwarderCloseStep) && Productive(s, ForwarderCloseStep);
    }
  }

  function WokenIndex(threads: seq<Thread>): (t: nat)
    requires Count(threads) > 0
    ensures t < |threads| && WokenSender(threads[t])
  {
    if WokenSender(threads[0]) then 0 else 1 + WokenIndex(threads[1..])
  }

  // The first parked sender, if there is one.
  function FirstParked(threads: seq<Thread>): (t: nat)
    ensures t <= |threads|
    ensures t < |threads| ==> ParkedSender(threads[t])
    ensures t == |threads| ==> forall k :: 0 <= k < |threads| ==> !ParkedSender(threads[k])
  {
    if threads == [] || ParkedSender(threads[0]) then 0 else 1 + FirstParked(threads[1..])
  }

  function ToWake(s: System): nat {
    FirstParked(s.threads)
  }

  // What the forwarder does next while the host takes its events.
  function ForwarderStep(s: System): Step {
    if s.forwarder.Receiving? then RecvStep(ToWake(s))
    else if s.forwarder.Submitting? then SubmitStep(false)
    else MarkStep
  }

  // How many of its own steps the forwarder needs to have submitted everything.
  function Work(s: System): nat {
    3 * |s.chan.queue| + if s.forwarder.Submitting? then 2 else if s.forwarder.Marking? then 1 else 0
  }

  function Drained(s: System, n: nat): System
    decreases n
  {
    if n == 0 || !Enabled(s, ForwarderStep(s)) then s else Drained(Next(s, ForwarderStep(s)), n - 1)
  }

  // From every reachable state of an open channel whose host is alive, the forwarder's own steps
  // lead to a state where all that was accepted is submitted and no waiter sleeps; how many steps
  // that takes depends only on the events not yet submitted.
  lemma {:induction false} ForwarderCatchesUp(s: System)
    requires Inv(s) && !s.chan.closed && !s.forwarder.Closing?
    ensures var s' := Drained(s, Work(s));
      && Inv(s') && s'.accepted == s.accepted && s'.submitted == s'.accepted
      && CaughtUp(s'.chan)
      && forall t :: 0 <= t < |s'.threads| ==> !ParkedWaiter(s'.threads[t])
    decreases Work(s)
  {
    var step := ForwarderStep(s);
    if Work(s) == 0 {
      assert s.submitted + [] + [] + [] == s.submitted;
    } else {
      assert Enabled(s, step);
      var s1 := Next(s, step);
      ConservedNext(s, step);
      WakesNext(s, step);
      assert Work(s1) == Work(s) - 1;
      ForwarderCatchesUp(s1);
    }
  }

  // ---------- Senders get through ----------

  function Senders(threads: seq<Thread>): nat {
    if threads == [] then 0 else Senders(threads[1..]) + if threads[0].Sending? then 1 else 0
  }

  lemma {:induction false} SendersUpdate(threads: seq<Thread>, t: nat, new1: Thread)
    requires t < |threads|
    ensures Senders(threads[t := new1]) + (if threads[t].Sending? then 1 else 0)
      == Senders(threads) + if new1.Sending? then 1 else 0
  {
    if t == 0 {
      assert threads[0 := new1][1..] == threads[1..];
    } else {
      SendersUpdate(threads[1..], t - 1, new1);
      assert threads[t := new1][1..] == threads[1..][t - 1 := new1];
    }
  }

  lemma {:induction false} SendersWoken(threads: seq<Thread>)
    ensures Senders(WakeWaiters(threads)) == Senders(threads)
  {
    if threads != [] {
      SendersWoken(threads[1..]);
      assert WakeWaiters(threads)[1..] == WakeWaiters(threads[1..]);
    }
  }

  lemma {:induction false} SendersAllWoken(threads: seq<Thread>)
    ensures Senders(WakeAll(threads)) == Senders(threads)
  {
    if threads != [] {
      SendersAllWoken(threads[1..]);
      assert WakeAll(threads)[1..] == WakeAll(threads[1..]);
    }
  }

  predicate SomeoneWaits(s: System) {
    exists t :: 0 <= t < |s.threads| && ParkedSender(s.threads[t])
  }

  // How many productive steps are needed at most until every sender is through: a woken sender's
  // event costs the forwarder three.
  function ToDo(s: System): nat {
    Work(s) + 4 * Senders(s.threads) + if s.forwarder.Closing? then 1 else 0
  }

  // The forwarder works while it has something to do; then a woken sender goes on.
  function Advance(s: System): Step
    requires s.forwarder.Receiving? && s.chan.queue == [] ==> Count(s.threads) > 0
  {
    if s.forwarder.Closing? then ForwarderCloseStep
    else if s.forwarder.Receiving? && s.chan.queue == [] then SendStep(WokenIndex(s.threads))
    else ForwarderStep(s)
  }

  // While a sender sleeps there is a productive step that brings all of them closer.
  lemma {:induction false} AdvanceHelps(s: System)
    requires Inv(s) && !s.chan.closed && s.chan.cap > 0 && SomeoneWaits(s)
    ensures s.forwarder.Receiving? && s.chan.queue == [] ==> Count(s.threads) > 0
    ensures var step := Advance(s);
      && Enabled(s, step) && Productive(s, step) && ToDo(Next(s, step)) < ToDo(s)
      && Next(s, step).chan.cap == s.chan.cap
      && (Next(s, step).chan.closed ==> step.ForwarderCloseStep?)
  {
    if s.forwarder.Receiving? && s.chan.queue == [] {
      var t :| 0 <= t < |s.threads| && ParkedSender(s.threads[t]);
      assert |s.chan.queue| + Count(s.threads) >= s.chan.cap;
      SendersUpdate(s.threads, WokenIndex(s.threads), Free);
    } else if s.forwarder.Receiving? {
      var w := ToWake(s);
      if w < |s.threads| { SendersUpdate(s.threads, w, Wake(s.threads[w])); }
    } else if s.forwarder.Marking? {
      SendersWoken(s.threads);
    } else if s.forwarder.Closing? {
      SendersAllWoken(s.threads);
    }
  }

  // Every step of the run is productive.
  ghost predicate ProductiveRun(s: System, steps: seq<Step>)
    requires IsRun(s, steps)
    decreases |steps|
  {
    steps == [] || (Productive(s, steps[0]) && ProductiveRun(Next(s, steps[0]), steps[1..]))
  }

  ghost predicate GetsThrough(s: System, steps: seq<Step>) {
    && IsRun(s, steps) && ProductiveRun(s, steps) && |steps| <= ToDo(s)
    && !SomeoneWaits(After(s, steps))
  }

  // From every reachable open state some productive steps, no more than fixed by what is outstanding,
  // lead to a state in which no sender sleeps; and nobody else has to move for that.
  lemma {:induction false} SendersGetThrough(s: System)
    requires Inv(s) && !s.chan.closed && s.chan.cap > 0
    ensures exists steps :: GetsThrough(s, steps)
    decreases ToDo(s)
  {
    if !SomeoneWaits(s) {
      assert GetsThrough(s, []);
    } else {
      AdvanceHelps(s);
      var step := Advance(s);
      var s1 := Next(s, step);
      ConservedNext(s, step);
      WakesNext(s, step);
      if s1.chan.closed {
        assert GetsThrough(s1, []);
        OneMoreStep(s, step, []);
      } else {
        SendersGetThrough(s1);
        var rest :| GetsThrough(s1, rest);
        OneMoreStep(s, step, rest);
      }
    }
  }

  lemma {:induction false} OneMoreStep(s: System, step: Step, rest: seq<Step>)
    requires Enabled(s, step) && Productive(s, step) && ToDo(Next(s, step)) < ToDo(s)
    requires GetsThrough(Next(s, step), rest)
    ensures GetsThrough(s, [step] + rest)
  {
    var steps := [step] + rest;
    assert steps[0] == step && steps[1..] == rest;
  }
}
