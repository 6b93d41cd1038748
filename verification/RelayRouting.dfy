// Where data goes in the relay room: from a device to the live bridge under the device's own id only,
// from a bridge to the device it names, and nowhere else.
module RelayRouting {
  import opened Relay

  // Exactly this frame is added to exactly this inbox.
  predicate Delivered(sockets: seq<Socket>, after: seq<Socket>, to: nat, frame: Frame) {
    && to < |sockets| && |after| == |sockets|
    && after[to] == sockets[to].(inbox := sockets[to].inbox + [frame])
    && forall k :: 0 <= k < |sockets| && k != to ==> after[k] == sockets[k]
  }

  predicate NoBridge(sockets: seq<Socket>) {
    forall k :: 0 <= k < |sockets| ==> !LiveBridge(sockets[k])
  }

  predicate NoDevice(sockets: seq<Socket>, deviceId: string) {
    forall k :: 0 <= k < |sockets| ==> !LiveAs(sockets[k], deviceId)
  }

  ghost predicate ReachesBridge(sockets: seq<Socket>, after: seq<Socket>, frame: Frame) {
    exists to: nat :: to < |sockets| && LiveBridge(sockets[to]) && Delivered(sockets, after, to, frame)
  }

  ghost predicate ReachesDevice(sockets: seq<Socket>, after: seq<Socket>, deviceId: string, frame: Frame) {
    exists to: nat :: to < |sockets| && LiveAs(sockets[to], deviceId) && Delivered(sockets, after, to, frame)
  }

  // A device's data under a foreign id changes nothing; under its own it reaches a live bridge, if
  // there is one, and nobody else.
  lemma {:induction false} DeviceDataGoes(sockets: seq<Socket>, self: nat, deviceId: string, payload: string)
    requires Possible(sockets, Receive(self, Valid(Data(deviceId, payload))))
    requires sockets[self].registered && sockets[self].connection.Device?
    ensures var after := Next(sockets, Receive(self, Valid(Data(deviceId, payload))));
      if deviceId != sockets[self].connection.deviceId || NoBridge(sockets) then after == sockets
      else ReachesBridge(sockets, after, Data(deviceId, payload))
  {
    if deviceId == sockets[self].connection.deviceId {
      var frame, to := Data(deviceId, payload), FindBridge(sockets);
      if to < |sockets| { assert Delivered(sockets, Sent(sockets, to, frame), to, frame); }
    }
  }

  // A bridge's data reaches a live socket of the device it names, if there is one, and nobody else.
  lemma {:induction false} BridgeDataGoes(sockets: seq<Socket>, self: nat, deviceId: string, payload: string)
    requires Possible(sockets, Receive(self, Valid(Data(deviceId, payload))))
    requires sockets[self].registered && sockets[self].connection.Bridge?
    ensures var after := Next(sockets, Receive(self, Valid(Data(deviceId, payload))));
      if NoDevice(sockets, deviceId) then after == sockets
      else ReachesDevice(sockets, after, deviceId, Data(deviceId, payload))
  {
    var frame, to := Data(deviceId, payload), FindDevice(sockets, deviceId);
    if to < |sockets| { assert Delivered(sockets, Sent(sockets, to, frame), to, frame); }
  }

  // What arrives before a socket has registered closes it unless it is its register frame; what is no
  // text or too large closes it at any time; everything else but data is ignored once it has.
  lemma {:induction false} MisfitsGo(sockets: seq<Socket>, self: nat, message: Incoming)
    requires Possible(sockets, Receive(self, message))
    ensures var s, after := sockets[self], Next(sockets, Receive(self, message));
      && (message.NotText? || message.TooLarge? ==> IsClosed(sockets, after, self))
      && (message.NoFrame? ==> after == sockets)
      && (message.Valid? && !s.registered && message.frame != Register(s.connection) ==>
            IsClosed(sockets, after, self))
      && (message.Valid? && s.registered && !message.frame.Data? ==> after == sockets)
  {
  }

  predicate IsClosed(sockets: seq<Socket>, after: seq<Socket>, self: nat)
    requires self < |sockets|
  {
    && |after| == |sockets| && after[self] == sockets[self].(life := Closing)
    && forall k :: 0 <= k < |sockets| && k != self ==> after[k] == sockets[k]
  }

  // ---------- Where data comes from ----------

  // The frame arrives on socket `from` and may go on to socket `to`.
  predicate Passes(sockets: seq<Socket>, from: nat, to: nat, deviceId: string) {
    && from < |sockets| && to < |sockets| && sockets[from].registered && Live(sockets[to])
    && match sockets[from].connection
       case Device(_, own) => own == deviceId && sockets[to].connection.Bridge?
       case Bridge(_) => LiveAs(sockets[to], deviceId)
  }

  ghost predicate BroughtBy(sockets: seq<Socket>, a: Action, to: nat, deviceId: string, payload: string) {
    a.Receive? && a.message == Valid(Data(deviceId, payload)) && Passes(sockets, a.self, to, deviceId)
  }

  // What a step adds to an inbox holds no data but what came from the other side.
  ghost predicate Adds(sockets: seq<Socket>, a: Action, to: nat, before: seq<Frame>, after: seq<Frame>) {
    && before <= after
    && forall n :: |before| <= n < |after| && after[n].Data? ==>
         BroughtBy(sockets, a, to, after[n].deviceId, after[n].payload)
  }

  function InboxOf(sockets: seq<Socket>, k: nat): seq<Frame> {
    if k < |sockets| then sockets[k].inbox else []
  }

  predicate NoData(frames: seq<Frame>) {
    forall n :: 0 <= n < |frames| ==> !frames[n].Data?
  }

  // An inbox grows by frames that are no data.
  predicate Mentioned(a: Socket, b: Socket) {
    a.inbox <= b.inbox && NoData(b.inbox[|a.inbox|..]) && b.connection == a.connection
  }

  ghost predicate OnlyMentioned(sockets: seq<Socket>, after: seq<Socket>) {
    |after| >= |sockets| && (forall k :: 0 <= k < |sockets| ==> Mentioned(sockets[k], after[k]))
    && forall k :: |sockets| <= k < |after| ==> after[k].inbox == []
  }

  lemma {:induction false} PresencesMention(sockets: seq<Socket>)
    ensures NoData(Presences(sockets))
  {
    if sockets != [] { PresencesMention(sockets[1..]); }
  }

  lemma {:induction false} MentionedOn(a: Socket, b: Socket, c: Socket)
    requires Mentioned(a, b) && Mentioned(b, c)
    ensures Mentioned(a, c)
  {
    assert c.inbox[..|a.inbox|] == c.inbox[..|b.inbox|][..|a.inbox|];
    forall n | 0 <= n < |c.inbox| - |a.inbox|
      ensures !c.inbox[|a.inbox|..][n].Data?
    {
      var m := |a.inbox| + n;
      if m < |b.inbox| {
        assert c.inbox[m] == b.inbox[m] == b.inbox[|a.inbox|..][n];
      } else {
        assert c.inbox[m] == c.inbox[|b.inbox|..][m - |b.inbox|];
      }
    }
  }

  lemma {:induction false} PushMentions(s: Socket, frames: seq<Frame>)
    requires NoData(frames)
    ensures Mentioned(s, Push(s, frames))
  {
    assert (s.inbox + frames)[|s.inbox|..] == frames && s.inbox[|s.inbox|..] == [];
  }

  lemma {:induction false} SameMentioned(s: Socket, t: Socket)
    requires t.inbox == s.inbox && t.connection == s.connection
    ensures Mentioned(s, t)
  {
    assert s.inbox[|s.inbox|..] == [];
  }

  lemma {:induction false} SentMentions(sockets: seq<Socket>, i: nat, frame: Frame)
    requires !frame.Data?
    ensures OnlyMentioned(sockets, Sent(sockets, i, frame))
  {
    var after := Sent(sockets, i, frame);
    forall k | 0 <= k < |sockets|
      ensures Mentioned(sockets[k], after[k])
    {
      if k == i { PushMentions(sockets[k], [frame]); } else { SameMentioned(sockets[k], after[k]); }
    }
  }

  lemma {:induction false} OnlyMentionedOn(a: seq<Socket>, b: seq<Socket>, c: seq<Socket>)
    requires |a| == |b| == |c| && OnlyMentioned(a, b) && OnlyMentioned(b, c)
    ensures OnlyMentioned(a, c)
  {
    forall k | 0 <= k < |a|
      ensures Mentioned(a[k], c[k])
    {
      MentionedOn(a[k], b[k], c[k]);
    }
  }

  lemma {:induction false} JoinedMentions(sockets: seq<Socket>, self: nat)
    requires self < |sockets|
    ensures OnlyMentioned(sockets, Joined(sockets, self))
  {
    match sockets[self].connection
    case Bridge(_) =>
      PresencesMention(sockets);
      var after := BridgeJoined(sockets, self);
      forall k | 0 <= k < |sockets|
        ensures Mentioned(sockets[k], after[k])
      {
        PushMentions(sockets[k], Presences(sockets) + [Registered(true)]);
        PushMentions(sockets[k], [Registered(true)]);
        SameMentioned(sockets[k], Shut(sockets[k]));
        SameMentioned(sockets[k], sockets[k]);
      }
    case Device(_, deviceId) =>
      var replaced := DevicesReplaced(sockets, self, deviceId);
      var bridge := FindBridge(replaced);
      var told := Sent(replaced, bridge, Presence(deviceId, true));
      forall k | 0 <= k < |sockets|
        ensures Mentioned(sockets[k], replaced[k])
      {
        SameMentioned(sockets[k], replaced[k]);
      }
      SentMentions(replaced, bridge, Presence(deviceId, true));
      SentMentions(told, self, Registered(bridge < |replaced|));
      OnlyMentionedOn(sockets, replaced, told);
      OnlyMentionedOn(sockets, told, DeviceJoined(sockets, self, deviceId));
  }

  lemma {:induction false} LeftMentions(sockets: seq<Socket>, self: nat, life: Life)
    requires self < |sockets|
    ensures OnlyMentioned(sockets, WithLife(Disconnected(sockets, self), self, life))
  {
    var left := Disconnected(sockets, self);
    var after := WithLife(left, self, life);
    if sockets[self].registered && sockets[self].connection.Device? {
      SentMentions(sockets, FindBridge(sockets), Presence(sockets[self].connection.deviceId, false));
    }
    forall k | 0 <= k < |sockets|
      ensures Mentioned(sockets[k], left[k])
    {
      PushMentions(sockets[k], [Registered(false)]);
      SameMentioned(sockets[k], sockets[k]);
    }
    forall k | 0 <= k < |sockets|
      ensures Mentioned(left[k], after[k])
    {
      SameMentioned(left[k], after[k]);
    }
    OnlyMentionedOn(sockets, left, after);
  }

  lemma {:induction false} StillMentions(sockets: seq<Socket>, after: seq<Socket>)
    requires |after| >= |sockets|
    requires forall k :: 0 <= k < |sockets| ==>
      after[k].inbox == sockets[k].inbox && after[k].connection == sockets[k].connection
    requires forall k :: |sockets| <= k < |after| ==> after[k].inbox == []
    ensures OnlyMentioned(sockets, after)
  {
    forall k | 0 <= k < |sockets|
      ensures Mentioned(sockets[k], after[k])
    {
      SameMentioned(sockets[k], after[k]);
    }
  }

  lemma {:induction false} MentionedAdds(sockets: seq<Socket>, a: Action, after: seq<Socket>, to: nat)
    requires OnlyMentioned(sockets, after)
    ensures Adds(sockets, a, to, InboxOf(sockets, to), InboxOf(after, to))
  {
    if to < |sockets| {
      var old1, new1 := sockets[to].inbox, after[to].inbox;
      forall n | |old1| <= n < |new1|
        ensures !new1[n].Data?
      {
        assert new1[n] == new1[|old1|..][n - |old1|];
      }
    }
  }

  lemma {:induction false} SentAdds(sockets: seq<Socket>, a: Action, i: nat, frame: Frame, to: nat)
    requires i < |sockets| && frame.Data? ==> BroughtBy(sockets, a, i, frame.deviceId, frame.payload)
    ensures Adds(sockets, a, to, InboxOf(sockets, to), InboxOf(Sent(sockets, i, frame), to))
  {
  }

  lemma {:induction false} NextAdds(sockets: seq<Socket>, a: Action, to: nat)
    requires Possible(sockets, a)
    ensures Adds(sockets, a, to, InboxOf(sockets, to), InboxOf(Next(sockets, a), to))
  {
    var after := Next(sockets, a);
    if a.Receive? && a.message.Valid? && a.message.frame.Data? && sockets[a.self].registered {
      var frame := a.message.frame;
      match sockets[a.self].connection
      case Device(_, own) =>
        if frame.deviceId == own { SentAdds(sockets, a, FindBridge(sockets), frame, to); }
      case Bridge(_) => SentAdds(sockets, a, FindDevice(sockets, frame.deviceId), frame, to);
    } else {
      OtherMentions(sockets, a);
      MentionedAdds(sockets, a, after, to);
    }
  }

  lemma {:induction false} OtherMentions(sockets: seq<Socket>, a: Action)
    requires Possible(sockets, a)
    requires !(a.Receive? && a.message.Valid? && a.message.frame.Data? && sockets[a.self].registered)
    ensures OnlyMentioned(sockets, Next(sockets, a))
  {
    var after := Next(sockets, a);
    match a
    case CloseEvent(i) => LeftMentions(sockets, i, Gone);
    case ErrorEvent(i) => LeftMentions(sockets, i, Errored);
    case Receive(i, message) =>
      var s := sockets[i];
      if message.Valid? && !s.registered && message.frame == Register(s.connection) {
        var listed := sockets[i := s.(registered := true)];
        StillMentions(sockets, listed);
        JoinedMentions(listed, i);
        OnlyMentionedOn(sockets, listed, after);
      } else {
        StillMentions(sockets, after);
      }
    case _ => StillMentions(sockets, after);
  }

  // ---------- Over whole runs ----------

  // The `j`-th action of the run brought the frame.
  ghost predicate BroughtAt(sockets: seq<Socket>, actions: seq<Action>, j: nat, to: nat, deviceId: string,
                            payload: string)
  {
    && j < |actions| && IsRun(sockets, actions[..j])
    && BroughtBy(After(sockets, actions[..j]), actions[j], to, deviceId, payload)
  }

  lemma {:induction false} BroughtFirst(sockets: seq<Socket>, actions: seq<Action>, to: nat, deviceId: string,
                                        payload: string)
    requires actions != [] && BroughtBy(sockets, actions[0], to, deviceId, payload)
    ensures BroughtAt(sockets, actions, 0, to, deviceId, payload)
  {
    assert actions[..0] == [];
  }

  lemma {:induction false} BroughtLater(sockets: seq<Socket>, actions: seq<Action>, j: nat, to: nat,
                                        deviceId: string, payload: string)
    requires actions != [] && Possible(sockets, actions[0])
    requires BroughtAt(Next(sockets, actions[0]), actions[1..], j, to, deviceId, payload)
    ensures BroughtAt(sockets, actions, j + 1, to, deviceId, payload)
  {
    var part := actions[..j + 1];
    assert part[0] == actions[0] && part[1..] == actions[1..][..j];
  }

  // In every run: every data frame in an inbox was received as it is, on a socket of the other side; in
  // a bridge's inbox, under id `d`, on a socket registered as device `d`; in a device's inbox, under
  // that device's id, on a bridge's socket.
  lemma {:induction false} DataHasItsSource(sockets: seq<Socket>, actions: seq<Action>, to: nat, n: nat)
    requires IsRun(sockets, actions)
    requires |InboxOf(sockets, to)| <= n < |InboxOf(After(sockets, actions), to)|
    ensures var frame := InboxOf(After(sockets, actions), to)[n];
      frame.Data? ==> exists j :: BroughtAt(sockets, actions, j, to, frame.deviceId, frame.payload)
    decreases |actions|
  {
    var frame := InboxOf(After(sockets, actions), to)[n];
    if frame.Data? {
      var a, rest := actions[0], actions[1..];
      var next := Next(sockets, a);
      NextAdds(sockets, a, to);
      if n < |InboxOf(next, to)| {
        InboxKept(next, rest, to);
        assert InboxOf(next, to)[n] == frame;
        BroughtFirst(sockets, actions, to, frame.deviceId, frame.payload);
      } else {
        DataHasItsSource(next, rest, to, n);
        var j: nat :| BroughtAt(next, rest, j, to, frame.deviceId, frame.payload);
        BroughtLater(sockets, actions, j, to, frame.deviceId, frame.payload);
      }
    }
  }

  lemma {:induction false} InboxKept(sockets: seq<Socket>, actions: seq<Action>, to: nat)
    requires IsRun(sockets, actions)
    ensures InboxOf(sockets, to) <= InboxOf(After(sockets, actions), to)
    decreases |actions|
  {
    if actions != [] {
      NextAdds(sockets, actions[0], to);
      InboxKept(Next(sockets, actions[0]), actions[1..], to);
    }
  }
}
