// The peers' views of the room converge.
module RelayTheorems {
  import opened Wrappers
  import opened Relay

  // ---------- What a peer believes, from what it was sent ----------

  // The devices a bridge takes to be connected.
  function Known(inbox: seq<Frame>): set<string> {
    if inbox == [] then {}
    else
      var before := Known(inbox[..|inbox| - 1]);
      match inbox[|inbox| - 1]
      case Presence(d, connected) => if connected then before + {d} else before - {d}
      case _ => before
  }

  // Whether a device takes the bridge to be online, if it was told.
  function Online(inbox: seq<Frame>): Option<bool> {
    if inbox == [] then None
    else
      match inbox[|inbox| - 1]
      case Registered(online) => Some(online)
      case _ => Online(inbox[..|inbox| - 1])
  }

  lemma {:induction false} OneMore(inbox: seq<Frame>, f: Frame)
    ensures Known(inbox + [f]) ==
      match f
      case Presence(d, connected) => if connected then Known(inbox) + {d} else Known(inbox) - {d}
      case _ => Known(inbox)
    ensures Online(inbox + [f]) == match f case Registered(online) => Some(online) case _ => Online(inbox)
  {
    assert (inbox + [f])[..|inbox + [f]| - 1] == inbox;
  }

  // ---------- The invariant ----------

  predicate Backs(s: Socket, deviceId: string) {
    s.registered && s.connection.Device? && s.connection.deviceId == deviceId && (s.life.Open? || s.life.Closing?)
  }

  predicate BacksBridge(s: Socket) {
    s.registered && s.connection.Bridge? && (s.life.Open? || s.life.Closing?)
  }

  predicate TwoBridges(s: Socket, s': Socket) {
    LiveBridge(s) && LiveBridge(s')
  }

  predicate SameDevice(s: Socket, s': Socket) {
    LiveDevice(s) && LiveDevice(s') && s.connection.deviceId == s'.connection.deviceId
  }

  // At most one live bridge, and at most one live socket for each device.
  predicate Unique(sockets: seq<Socket>) {
    && (forall i, j :: 0 <= i < |sockets| && 0 <= j < |sockets| && TwoBridges(sockets[i], sockets[j]) ==> i == j)
    && (forall i, j :: 0 <= i < |sockets| && 0 <= j < |sockets| && SameDevice(sockets[i], sockets[j]) ==> i == j)
  }

  predicate Backed(sockets: seq<Socket>, deviceId: string) {
    exists i :: 0 <= i < |sockets| && Backs(sockets[i], deviceId)
  }

  predicate BridgeBacked(sockets: seq<Socket>) {
    exists i :: 0 <= i < |sockets| && BacksBridge(sockets[i])
  }

  predicate Knows(bridge: Socket, deviceId: string) {
    deviceId in Known(bridge.inbox)
  }

  predicate KnowsLive(sockets: seq<Socket>, bridge: Socket) {
    forall i :: 0 <= i < |sockets| && LiveDevice(sockets[i]) ==> Knows(bridge, sockets[i].connection.deviceId)
  }

  ghost predicate KnowsBacked(sockets: seq<Socket>, bridge: Socket) {
    forall d :: Knows(bridge, d) ==> Backed(sockets, d)
  }

  // The bridge knows every live device; a device it knows is live, or its close is still to come.
  ghost predicate BridgeViews(sockets: seq<Socket>) {
    forall b :: 0 <= b < |sockets| && LiveBridge(sockets[b]) ==>
      KnowsLive(sockets, sockets[b]) && KnowsBacked(sockets, sockets[b])
  }

  // A live device knows of a live bridge; a bridge it believes in is live, or its close is still to come.
  ghost predicate DeviceViews(sockets: seq<Socket>) {
    forall i :: 0 <= i < |sockets| && LiveDevice(sockets[i]) ==> ViewsBridge(sockets, sockets[i])
  }

  ghost predicate ViewsBridge(sockets: seq<Socket>, s: Socket) {
    && Online(s.inbox).Some?
    && (forall b :: 0 <= b < |sockets| && LiveBridge(sockets[b]) ==> Online(s.inbox).value)
    && (Online(s.inbox).value ==> BridgeBacked(sockets))
  }

  predicate Quiet(sockets: seq<Socket>) {
    forall i :: 0 <= i < |sockets| && !sockets[i].registered ==> sockets[i].inbox == []
  }

  ghost predicate Inv(sockets: seq<Socket>) {
    Unique(sockets) && BridgeViews(sockets) && DeviceViews(sockets) && Quiet(sockets)
  }

  // ---------- What carries over from one room to the next ----------

  // Nothing is more alive than it was.
  predicate NoLivelier(s: Socket, s': Socket) {
    s'.connection == s.connection && (Live(s') ==> Live(s))
  }

  lemma {:induction false} UniqueKept(a: seq<Socket>, b: seq<Socket>)
    requires Unique(a) && |a| == |b| && forall i :: 0 <= i < |a| ==> NoLivelier(a[i], b[i])
    ensures Unique(b)
  {
    forall i, j | 0 <= i < |b| && 0 <= j < |b| && SameDevice(b[i], b[j])
      ensures i == j
    {
      assert SameDevice(a[i], a[j]);
    }
    forall i, j | 0 <= i < |b| && 0 <= j < |b| && TwoBridges(b[i], b[j])
      ensures i == j
    {
      assert TwoBridges(a[i], a[j]);
    }
  }

  lemma {:induction false} BackedKept(a: seq<Socket>, b: seq<Socket>, d: string)
    requires |a| <= |b| && forall i :: 0 <= i < |a| && Backs(a[i], d) ==> Backs(b[i], d)
    ensures Backed(a, d) ==> Backed(b, d)
  {
    if i :| 0 <= i < |a| && Backs(a[i], d) {
      assert Backs(b[i], d);
    }
  }

  lemma {:induction false} BridgeBackedKept(a: seq<Socket>, b: seq<Socket>)
    requires |a| <= |b| && forall i :: 0 <= i < |a| && BacksBridge(a[i]) ==> BacksBridge(b[i])
    ensures BridgeBacked(a) ==> BridgeBacked(b)
  {
    if i :| 0 <= i < |a| && BacksBridge(a[i]) {
      assert BacksBridge(b[i]);
    }
  }

  // A device that was told nothing new keeps its view, if bridges only left whose leave was told.
  lemma {:induction false} ViewKept(a: seq<Socket>, b: seq<Socket>, s: Socket, s': Socket)
    requires ViewsBridge(a, s) && Online(s'.inbox) == Online(s.inbox)
    requires |a| <= |b| && (BridgeBacked(a) ==> BridgeBacked(b))
    requires forall k :: 0 <= k < |b| && LiveBridge(b[k]) ==> k < |a| && LiveBridge(a[k])
    ensures ViewsBridge(b, s')
  {
    forall k | 0 <= k < |b| && LiveBridge(b[k])
      ensures Online(s'.inbox).value
    {
      assert LiveBridge(a[k]);
    }
  }

  // ---------- Steps that tell nobody anything ----------

  // The same socket, perhaps closing now, its peer believing what it believed.
  predicate Fades(s: Socket, s': Socket) {
    && s'.connection == s.connection && s'.registered == s.registered
    && (s'.life == s.life || (s.life.Open? && s'.life.Closing?))
    && Known(s'.inbox) == Known(s.inbox) && Online(s'.inbox) == Online(s.inbox)
    && (s.inbox == [] && !s.registered ==> s'.inbox == [])
  }

  predicate AllFade(a: seq<Socket>, b: seq<Socket>) {
    |a| == |b| && forall i :: 0 <= i < |a| ==> Fades(a[i], b[i])
  }

  lemma {:induction false} FadingBridges(a: seq<Socket>, b: seq<Socket>)
    requires BridgeViews(a) && AllFade(a, b)
    ensures BridgeViews(b)
  {
    forall k | 0 <= k < |b| && LiveBridge(b[k])
      ensures KnowsLive(b, b[k]) && KnowsBacked(b, b[k])
    {
      assert Fades(a[k], b[k]) && KnowsLive(a, a[k]) && KnowsBacked(a, a[k]);
      forall i | 0 <= i < |b| && LiveDevice(b[i])
        ensures Knows(b[k], b[i].connection.deviceId)
      {
        assert Fades(a[i], b[i]);
      }
      forall d | Knows(b[k], d)
        ensures Backed(b, d)
      {
        assert Knows(a[k], d);
        BackedKept(a, b, d);
      }
    }
  }

  lemma {:induction false} FadingDevices(a: seq<Socket>, b: seq<Socket>)
    requires DeviceViews(a) && AllFade(a, b)
    ensures DeviceViews(b)
  {
    BridgeBackedKept(a, b);
    forall i | 0 <= i < |b| && LiveDevice(b[i])
      ensures ViewsBridge(b, b[i])
    {
      assert Fades(a[i], b[i]);
      ViewKept(a, b, a[i], b[i]);
    }
  }

  lemma {:induction false} FadingKeepsInv(a: seq<Socket>, b: seq<Socket>)
    requires Inv(a) && AllFade(a, b)
    ensures Inv(b)
  {
    UniqueKept(a, b);
    FadingBridges(a, b);
    FadingDevices(a, b);
  }

  lemma {:induction false} DataFades(s: Socket, deviceId: string, payload: string)
    requires s.registered
    ensures Fades(s, Push(s, [Data(deviceId, payload)]))
  {
    OneMore(s.inbox, Data(deviceId, payload));
  }

  lemma {:induction false} RoutedKeepsInv(sockets: seq<Socket>, self: nat, deviceId: string, payload: string)
    requires Inv(sockets) && self < |sockets|
    ensures Inv(Routed(sockets, self, deviceId, payload))
  {
    var to := if sockets[self].connection.Device? then FindBridge(sockets) else FindDevice(sockets, deviceId);
    if to < |sockets| {
      DataFades(sockets[to], deviceId, payload);
      FadingKeepsInv(sockets, Sent(sockets, to, Data(deviceId, payload)));
    }
  }

  lemma {:induction false} ShutKeepsInv(sockets: seq<Socket>, self: nat)
    requires Inv(sockets) && self < |sockets|
    ensures Inv(sockets[self := Shut(sockets[self])])
  {
    FadingKeepsInv(sockets, sockets[self := Shut(sockets[self])]);
  }

  // ---------- A socket connects ----------

  lemma {:induction false} ConnectedBridges(a: seq<Socket>, s: Socket)
    requires BridgeViews(a) && !s.registered
    ensures BridgeViews(a + [s])
  {
    var b := a + [s];
    forall k | 0 <= k < |b| && LiveBridge(b[k])
      ensures KnowsLive(b, b[k]) && KnowsBacked(b, b[k])
    {
      assert b[k] == a[k] && KnowsLive(a, a[k]) && KnowsBacked(a, a[k]);
      forall i | 0 <= i < |b| && LiveDevice(b[i])
        ensures Knows(b[k], b[i].connection.deviceId)
      {
        assert b[i] == a[i];
      }
      forall d | Knows(b[k], d)
        ensures Backed(b, d)
      {
        BackedKept(a, b, d);
      }
    }
  }

  lemma {:induction false} ConnectedDevices(a: seq<Socket>, s: Socket)
    requires DeviceViews(a) && !s.registered
    ensures DeviceViews(a + [s])
  {
    var b := a + [s];
    BridgeBackedKept(a, b);
    forall i | 0 <= i < |b| && LiveDevice(b[i])
      ensures ViewsBridge(b, b[i])
    {
      assert b[i] == a[i];
      ViewKept(a, b, a[i], b[i]);
    }
  }

  lemma {:induction false} ConnectedUnique(a: seq<Socket>, s: Socket)
    requires Unique(a) && !s.registered
    ensures Unique(a + [s])
  {
    var b := a + [s];
    forall i, j | 0 <= i < |b| && 0 <= j < |b| && SameDevice(b[i], b[j])
      ensures i == j
    {
      assert SameDevice(a[i], a[j]);
    }
    forall i, j | 0 <= i < |b| && 0 <= j < |b| && TwoBridges(b[i], b[j])
      ensures i == j
    {
      assert TwoBridges(a[i], a[j]);
    }
  }

  lemma {:induction false} ConnectKeepsInv(a: seq<Socket>, c: Connection)
    requires Inv(a)
    ensures Inv(a + [Socket(c, false, Open, [])])
  {
    var s := Socket(c, false, Open, []);
    ConnectedUnique(a, s);
    ConnectedBridges(a, s);
    ConnectedDevices(a, s);
  }

  // ---------- A bridge joins ----------

  predicate Present(sockets: seq<Socket>, d: string) {
    exists i :: 0 <= i < |sockets| && LiveAs(sockets[i], d)
  }

  lemma {:induction false} PresentIff(sockets: seq<Socket>, d: string)
    requires sockets != []
    ensures Present(sockets, d) <==> LiveAs(sockets[0], d) || Present(sockets[1..], d)
  {
    if i :| 0 <= i < |sockets| && LiveAs(sockets[i], d) {
      assert i > 0 ==> sockets[1..][i - 1] == sockets[i];
    }
    if i :| 0 <= i < |sockets[1..]| && LiveAs(sockets[1..][i], d) {
      assert sockets[i + 1] == sockets[1..][i];
    }
  }

  lemma {:induction false} KnownPresences(before: seq<Frame>, sockets: seq<Socket>, d: string)
    ensures d in Known(before + Presences(sockets)) <==> d in Known(before) || Present(sockets, d)
    decreases |sockets|
  {
    if sockets == [] {
      assert before + [] == before;
    } else {
      var first := if LiveDevice(sockets[0]) then [Presence(sockets[0].connection.deviceId, true)] else [];
      Regroup(before, first, Presences(sockets[1..]));
      PresentIff(sockets, d);
      KnownPresences(before + first, sockets[1..], d);
      if first == [] {
        assert before + first == before;
      } else {
        OneMore(before, first[0]);
      }
    }
  }

  // What a new bridge is told makes it know exactly the devices that are present.
  lemma {:induction false} IntroducedKnows(sockets: seq<Socket>, d: string)
    ensures d in Known(Presences(sockets) + [Registered(true)]) <==> Present(sockets, d)
  {
    KnownPresences([], sockets, d);
    assert [] + Presences(sockets) == Presences(sockets);
    OneMore(Presences(sockets), Registered(true));
  }

  // Socket `self` was just marked as registered, and nobody was told yet.
  ghost predicate Registers(before: seq<Socket>, a: seq<Socket>, self: nat) {
    && self < |a| == |before|
    && !before[self].registered && a == before[self := before[self].(registered := true)]
    && before[self].inbox == []
    && (before[self].life.Open? || before[self].life.Closing?)
  }

  lemma {:induction false} PresentStaysBacked(a: seq<Socket>, self: nat, d: string)
    requires self < |a| && a[self].connection.Bridge? && Present(a, d)
    ensures Backed(BridgeJoined(a, self), d)
  {
    var i :| 0 <= i < |a| && LiveAs(a[i], d);
    assert Backs(BridgeJoined(a, self)[i], d);
  }

  lemma {:induction false} BridgeJoinedViews(a: seq<Socket>, self: nat)
    requires self < |a| && a[self].connection.Bridge? && a[self].inbox == []
    ensures BridgeViews(BridgeJoined(a, self))
  {
    var b := BridgeJoined(a, self);
    if LiveBridge(b[self]) {
      assert b[self].inbox == Presences(a) + [Registered(true)] by {
        assert [] + (Presences(a) + [Registered(true)]) == Presences(a) + [Registered(true)];
      }
      forall d
        ensures Knows(b[self], d) <==> Present(a, d)
      {
        IntroducedKnows(a, d);
      }
      forall i | 0 <= i < |b| && LiveDevice(b[i])
        ensures Knows(b[self], b[i].connection.deviceId)
      {
        assert LiveAs(a[i], b[i].connection.deviceId);
      }
      forall d | Knows(b[self], d)
        ensures Backed(b, d)
      {
        PresentStaysBacked(a, self, d);
      }
    }
    assert forall i :: 0 <= i < |b| && LiveBridge(b[i]) ==> i == self;
  }

  lemma {:induction false} BridgeJoinedDeviceViews(a: seq<Socket>, self: nat)
    requires self < |a| && a[self].registered && a[self].connection.Bridge?
    requires a[self].life.Open? || a[self].life.Closing?
    ensures DeviceViews(BridgeJoined(a, self))
  {
    var b := BridgeJoined(a, self);
    assert BacksBridge(b[self]);
    forall i | 0 <= i < |b| && LiveDevice(b[i])
      ensures ViewsBridge(b, b[i])
    {
      OneMore(a[i].inbox, Registered(true));
    }
  }

  lemma {:induction false} BridgeJoinedUnique(before: seq<Socket>, a: seq<Socket>, self: nat)
    requires Unique(before) && Registers(before, a, self) && a[self].connection.Bridge?
    ensures Unique(BridgeJoined(a, self))
  {
    var b := BridgeJoined(a, self);
    assert forall i :: 0 <= i < |b| && i != self ==> before[i] == a[i] && !LiveBridge(b[i]);
    forall i, j | 0 <= i < |b| && 0 <= j < |b| && SameDevice(b[i], b[j])
      ensures i == j
    {
      assert SameDevice(before[i], before[j]);
    }
  }

  lemma {:induction false} BridgeJoinedKeepsInv(before: seq<Socket>, a: seq<Socket>, self: nat)
    requires Inv(before) && Registers(before, a, self) && a[self].connection.Bridge?
    ensures Inv(BridgeJoined(a, self))
  {
    BridgeJoinedUnique(before, a, self);
    BridgeJoinedViews(a, self);
    BridgeJoinedDeviceViews(a, self);
  }

  // ---------- A device joins ----------

  // The older sockets of the device are closing now.
  lemma {:induction false} ReplacedKeepsInv(before: seq<Socket>, a: seq<Socket>, self: nat, deviceId: string)
    requires Inv(before) && Registers(before, a, self)
    ensures var b := DevicesReplaced(a, self, deviceId);
      var before' := b[self := before[self]]; Inv(before') && Registers(before', b, self)
  {
    var b := DevicesReplaced(a, self, deviceId);
    FadingKeepsInv(before, b[self := before[self]]);
  }

  // The bridge and the new device are told of each other.
  function DeviceTold(a: seq<Socket>, self: nat, deviceId: string): seq<Socket> {
    Sent(Sent(a, FindBridge(a), Presence(deviceId, true)), self, Registered(FindBridge(a) < |a|))
  }

  // The same socket, only told something.
  predicate Hears(s: Socket, s': Socket) {
    s' == s.(inbox := s'.inbox)
  }

  lemma {:induction false} DeviceToldHears(before: seq<Socket>, a: seq<Socket>, self: nat, deviceId: string)
    requires Registers(before, a, self) && a[self].connection.Device?
    ensures var b := DeviceTold(a, self, deviceId);
      && |b| == |a| && Hears(a[self], b[self])
      && (forall i :: 0 <= i < |a| && i != self ==> Hears(before[i], b[i]))
      && (forall i :: 0 <= i < |a| && i != self && i != FindBridge(a) ==> b[i] == before[i])
      && FindBridge(a) != self
      && (FindBridge(a) < |a| ==> b[FindBridge(a)] == Push(before[FindBridge(a)], [Presence(deviceId, true)]))
  {
  }

  lemma {:induction false} DeviceToldKnowsLive(before: seq<Socket>, a: seq<Socket>, self: nat, deviceId: string)
    requires Registers(before, a, self) && a[self].connection.Device? && a[self].connection.deviceId == deviceId
    requires FindBridge(a) < |a| && KnowsLive(before, before[FindBridge(a)])
    ensures KnowsLive(DeviceTold(a, self, deviceId), DeviceTold(a, self, deviceId)[FindBridge(a)])
  {
    var bridge := FindBridge(a);
    var b := DeviceTold(a, self, deviceId);
    DeviceToldHears(before, a, self, deviceId);
    OneMore(before[bridge].inbox, Presence(deviceId, true));
    forall i | 0 <= i < |b| && LiveDevice(b[i])
      ensures Knows(b[bridge], b[i].connection.deviceId)
    {
      assert i != self ==> Hears(before[i], b[i]) && Knows(before[bridge], before[i].connection.deviceId);
    }
  }

  lemma {:induction false} DeviceToldKnowsBacked(before: seq<Socket>, a: seq<Socket>, self: nat, deviceId: string)
    requires Registers(before, a, self) && a[self].connection.Device? && a[self].connection.deviceId == deviceId
    requires FindBridge(a) < |a| && KnowsBacked(before, before[FindBridge(a)])
    ensures KnowsBacked(DeviceTold(a, self, deviceId), DeviceTold(a, self, deviceId)[FindBridge(a)])
  {
    var bridge := FindBridge(a);
    var b := DeviceTold(a, self, deviceId);
    DeviceToldHears(before, a, self, deviceId);
    OneMore(before[bridge].inbox, Presence(deviceId, true));
    assert Backs(b[self], deviceId);
    forall d | Knows(b[bridge], d)
      ensures Backed(b, d)
    {
      if d != deviceId {
        assert Knows(before[bridge], d);
        HearingBacked(before, b, self, d);
      }
    }
  }

  lemma {:induction false} HearingBacked(a: seq<Socket>, b: seq<Socket>, self: nat, d: string)
    requires |a| == |b| && self < |a| && !Backs(a[self], d) && Backed(a, d)
    requires forall i :: 0 <= i < |a| && i != self ==> Hears(a[i], b[i])
    ensures Backed(b, d)
  {
    var i :| 0 <= i < |a| && Backs(a[i], d);
    assert Hears(a[i], b[i]) && Backs(b[i], d);
  }

  lemma {:induction false} DeviceToldBridgeViews(before: seq<Socket>, a: seq<Socket>, self: nat, deviceId: string)
    requires Unique(before) && BridgeViews(before) && Registers(before, a, self)
    requires a[self].connection.Device? && a[self].connection.deviceId == deviceId
    ensures BridgeViews(DeviceTold(a, self, deviceId))
  {
    var bridge := FindBridge(a);
    var b := DeviceTold(a, self, deviceId);
    DeviceToldHears(before, a, self, deviceId);
    if bridge < |a| {
      assert LiveBridge(before[bridge]);
      DeviceToldKnowsLive(before, a, self, deviceId);
      DeviceToldKnowsBacked(before, a, self, deviceId);
    }
    forall i | 0 <= i < |b| && LiveBridge(b[i])
      ensures i == bridge
    {
      assert Hears(before[i], b[i]) && LiveBridge(a[i]);
      assert bridge < |a| ==> TwoBridges(before[i], before[bridge]);
    }
  }

  lemma {:induction false} DeviceToldUnique(before: seq<Socket>, a: seq<Socket>, self: nat, deviceId: string)
    requires Unique(before) && Registers(before, a, self)
    requires a[self].connection.Device? && a[self].connection.deviceId == deviceId && !OtherDevice(a, self, deviceId)
    ensures Unique(DeviceTold(a, self, deviceId))
  {
    var b := DeviceTold(a, self, deviceId);
    DeviceToldHears(before, a, self, deviceId);
    assert forall k :: 0 <= k < |b| && k != self ==> !LiveAs(a[k], deviceId) && Hears(a[k], b[k]);
    forall i, j | 0 <= i < |b| && 0 <= j < |b| && SameDevice(b[i], b[j])
      ensures i == j
    {
      assert LiveAs(b[i], deviceId) <==> LiveAs(b[j], deviceId);
      if i != self && j != self {
        assert SameDevice(before[i], before[j]);
      }
    }
    DeviceToldOneBridge(before, a, self, deviceId);
  }

  lemma {:induction false} DeviceToldOneBridge(before: seq<Socket>, a: seq<Socket>, self: nat, deviceId: string)
    requires Unique(before) && Registers(before, a, self) && a[self].connection.Device?
    ensures var b := DeviceTold(a, self, deviceId);
      forall i, j :: 0 <= i < |b| && 0 <= j < |b| && TwoBridges(b[i], b[j]) ==> i == j
  {
    var b := DeviceTold(a, self, deviceId);
    DeviceToldHears(before, a, self, deviceId);
    forall i, j | 0 <= i < |b| && 0 <= j < |b| && TwoBridges(b[i], b[j])
      ensures i == j
    {
      assert Hears(before[i], b[i]) && Hears(before[j], b[j]) && TwoBridges(before[i], before[j]);
    }
  }

  lemma {:induction false} DeviceToldViews(before: seq<Socket>, a: seq<Socket>, self: nat, deviceId: string)
    requires DeviceViews(before) && Registers(before, a, self) && a[self].connection.Device?
    ensures DeviceViews(DeviceTold(a, self, deviceId))
  {
    var bridge := FindBridge(a);
    var b := DeviceTold(a, self, deviceId);
    DeviceToldHears(before, a, self, deviceId);
    BridgeBackedKept(before, b);
    assert bridge < |a| ==> BacksBridge(b[bridge]);
    assert forall k :: 0 <= k < |b| && LiveBridge(b[k]) ==> LiveBridge(before[k]) && LiveBridge(a[k]);
    forall i | 0 <= i < |b| && LiveDevice(b[i])
      ensures ViewsBridge(b, b[i])
    {
      if i == self {
        OneMore([], Registered(bridge < |a|));
        assert [] + [Registered(bridge < |a|)] == [Registered(bridge < |a|)];
      } else {
        assert b[i] == before[i];
        ViewKept(before, b, before[i], b[i]);
      }
    }
  }

  lemma {:induction false} DeviceToldKeepsInv(before: seq<Socket>, a: seq<Socket>, self: nat, deviceId: string)
    requires Inv(before) && Registers(before, a, self)
    requires a[self].connection.Device? && a[self].connection.deviceId == deviceId && !OtherDevice(a, self, deviceId)
    ensures Inv(DeviceTold(a, self, deviceId))
  {
    DeviceToldUnique(before, a, self, deviceId);
    DeviceToldBridgeViews(before, a, self, deviceId);
    DeviceToldViews(before, a, self, deviceId);
    DeviceToldHears(before, a, self, deviceId);
  }

  lemma {:induction false} RegisteringKeepsInv(sockets: seq<Socket>, self: nat)
    requires Inv(sockets) && self < |sockets| && !sockets[self].registered
    requires sockets[self].life.Open? || sockets[self].life.Closing?
    ensures Inv(Joined(sockets[self := sockets[self].(registered := true)], self))
  {
    var a := sockets[self := sockets[self].(registered := true)];
    match a[self].connection
    case Bridge(_) => BridgeJoinedKeepsInv(sockets, a, self);
    case Device(_, deviceId) =>
      ReplacedKeepsInv(sockets, a, self, deviceId);
      var b := DevicesReplaced(a, self, deviceId);
      DeviceToldKeepsInv(b[self := sockets[self]], b, self, deviceId);
  }

  // ---------- Leaving ----------

  predicate Away(life: Life) {
    life.Gone? || life.Errored?
  }

  // Nobody but `self` is less than it was, and what `self` backed is backed by another.
  lemma {:induction false} LeaverBacked(a: seq<Socket>, self: nat, life: Life, d: string)
    requires self < |a| && Backed(a, d)
    requires Backs(a[self], d) ==> OtherDevice(a, self, d)
    ensures Backed(WithLife(a, self, life), d)
  {
    var b := WithLife(a, self, life);
    var i :| 0 <= i < |a| && Backs(a[i], d);
    if i == self {
      var k :| 0 <= k < |a| && k != self && LiveAs(a[k], d);
      assert Backs(b[k], d);
    } else {
      assert Backs(b[i], d);
    }
  }

  lemma {:induction false} LeaverBridgeBacked(a: seq<Socket>, self: nat, life: Life)
    requires self < |a| && BridgeBacked(a)
    requires BacksBridge(a[self]) ==> OtherBridge(a, self)
    ensures BridgeBacked(WithLife(a, self, life))
  {
    var b := WithLife(a, self, life);
    var i :| 0 <= i < |a| && BacksBridge(a[i]);
    if i == self {
      var k :| 0 <= k < |a| && k != self && LiveBridge(a[k]);
      assert BacksBridge(b[k]);
    } else {
      assert BacksBridge(b[i]);
    }
  }

  lemma {:induction false} SilentLeaveBridgeViews(a: seq<Socket>, self: nat, life: Life)
    requires BridgeViews(a) && self < |a| && Away(life)
    requires a[self].registered && a[self].connection.Device? ==> OtherDevice(a, self, a[self].connection.deviceId)
    ensures BridgeViews(WithLife(a, self, life))
  {
    var b := WithLife(a, self, life);
    forall k | 0 <= k < |b| && LiveBridge(b[k])
      ensures KnowsLive(b, b[k]) && KnowsBacked(b, b[k])
    {
      assert b[k] == a[k] && KnowsLive(a, a[k]) && KnowsBacked(a, a[k]);
      forall i | 0 <= i < |b| && LiveDevice(b[i])
        ensures Knows(b[k], b[i].connection.deviceId)
      {
        assert b[i] == a[i];
      }
      forall d | Knows(b[k], d)
        ensures Backed(b, d)
      {
        LeaverBacked(a, self, life, d);
      }
    }
  }

  lemma {:induction false} SilentLeaveDeviceViews(a: seq<Socket>, self: nat, life: Life)
    requires DeviceViews(a) && self < |a| && Away(life)
    requires BacksBridge(a[self]) ==> OtherBridge(a, self)
    ensures DeviceViews(WithLife(a, self, life))
  {
    var b := WithLife(a, self, life);
    if BridgeBacked(a) { LeaverBridgeBacked(a, self, life); }
    forall i | 0 <= i < |b| && LiveDevice(b[i])
      ensures ViewsBridge(b, b[i])
    {
      assert b[i] == a[i];
      ViewKept(a, b, a[i], b[i]);
    }
  }

  // A socket leaves that backs nothing on its own.
  lemma {:induction false} SilentLeaveKeepsInv(a: seq<Socket>, self: nat, life: Life)
    requires Inv(a) && self < |a| && Away(life)
    requires BacksBridge(a[self]) ==> OtherBridge(a, self)
    requires a[self].registered && a[self].connection.Device? ==> OtherDevice(a, self, a[self].connection.deviceId)
    ensures Inv(WithLife(a, self, life))
  {
    UniqueKept(a, WithLife(a, self, life));
    SilentLeaveBridgeViews(a, self, life);
    SilentLeaveDeviceViews(a, self, life);
  }

  lemma {:induction false} BridgeLeaveDeviceViews(a: seq<Socket>, self: nat, life: Life)
    requires self < |a| && Away(life) && !OtherBridge(a, self) && a[self].connection.Bridge?
    ensures DeviceViews(WithLife(TellDevices(a), self, life))
    ensures forall i :: 0 <= i < |a| ==> !LiveBridge(WithLife(TellDevices(a), self, life)[i])
  {
    var b := WithLife(TellDevices(a), self, life);
    assert forall i :: 0 <= i < |b| ==> !LiveBridge(b[i]);
    forall i | 0 <= i < |b| && LiveDevice(b[i])
      ensures ViewsBridge(b, b[i])
    {
      OneMore(a[i].inbox, Registered(false));
    }
  }

  lemma {:induction false} BridgeLeaveKeepsInv(a: seq<Socket>, self: nat, life: Life)
    requires Inv(a) && self < |a| && Away(life)
    requires a[self].registered && a[self].connection.Bridge? && !OtherBridge(a, self)
    ensures Inv(WithLife(TellDevices(a), self, life))
  {
    UniqueKept(a, WithLife(TellDevices(a), self, life));
    BridgeLeaveDeviceViews(a, self, life);
  }

  // The room after the last socket of a device left.
  function DeviceGone(a: seq<Socket>, self: nat, life: Life, deviceId: string): seq<Socket>
    requires self < |a|
  {
    WithLife(Sent(a, FindBridge(a), Presence(deviceId, false)), self, life)
  }

  lemma {:induction false} DeviceGoneHears(a: seq<Socket>, self: nat, life: Life, deviceId: string)
    requires self < |a| && a[self].connection.Device?
    ensures var b := DeviceGone(a, self, life, deviceId);
      && |b| == |a| && b[self] == a[self].(life := life)
      && (forall i :: 0 <= i < |a| && i != self ==> Hears(a[i], b[i]))
      && (forall i :: 0 <= i < |a| && i != self && i != FindBridge(a) ==> b[i] == a[i])
      && FindBridge(a) != self
      && (FindBridge(a) < |a| ==> b[FindBridge(a)] == Push(a[FindBridge(a)], [Presence(deviceId, false)]))
  {
  }

  lemma {:induction false} DeviceGoneKnows(a: seq<Socket>, self: nat, life: Life, deviceId: string)
    requires self < |a| && Away(life) && FindBridge(a) < |a|
    requires a[self].registered && a[self].connection.Device? && a[self].connection.deviceId == deviceId
    requires !OtherDevice(a, self, deviceId)
    requires KnowsLive(a, a[FindBridge(a)]) && KnowsBacked(a, a[FindBridge(a)])
    ensures var b := DeviceGone(a, self, life, deviceId);
      KnowsLive(b, b[FindBridge(a)]) && KnowsBacked(b, b[FindBridge(a)])
  {
    var bridge := FindBridge(a);
    var b := DeviceGone(a, self, life, deviceId);
    DeviceGoneHears(a, self, life, deviceId);
    OneMore(a[bridge].inbox, Presence(deviceId, false));
    forall i | 0 <= i < |b| && LiveDevice(b[i])
      ensures Knows(b[bridge], b[i].connection.deviceId)
    {
      assert Hears(a[i], b[i]) && !LiveAs(a[i], deviceId);
    }
    forall d | Knows(b[bridge], d)
      ensures Backed(b, d)
    {
      assert Knows(a[bridge], d) && d != deviceId;
      HearingBacked(a, b, self, d);
    }
  }

  lemma {:induction false} DeviceGoneBridgeViews(a: seq<Socket>, self: nat, life: Life, deviceId: string)
    requires Unique(a) && BridgeViews(a) && self < |a| && Away(life)
    requires a[self].registered && a[self].connection.Device? && a[self].connection.deviceId == deviceId
    requires !OtherDevice(a, self, deviceId)
    ensures BridgeViews(DeviceGone(a, self, life, deviceId))
  {
    var bridge := FindBridge(a);
    var b := DeviceGone(a, self, life, deviceId);
    DeviceGoneHears(a, self, life, deviceId);
    if bridge < |a| { DeviceGoneKnows(a, self, life, deviceId); }
    forall i | 0 <= i < |b| && LiveBridge(b[i])
      ensures i == bridge
    {
      assert Hears(a[i], b[i]) && LiveBridge(a[i]);
      assert bridge < |a| ==> TwoBridges(a[i], a[bridge]);
    }
  }

  lemma {:induction false} DeviceGoneDeviceViews(a: seq<Socket>, self: nat, life: Life, deviceId: string)
    requires DeviceViews(a) && self < |a| && Away(life) && a[self].connection.Device?
    ensures DeviceViews(DeviceGone(a, self, life, deviceId))
  {
    var b := DeviceGone(a, self, life, deviceId);
    DeviceGoneHears(a, self, life, deviceId);
    BridgeBackedKept(a, b);
    assert forall k :: 0 <= k < |b| && LiveBridge(b[k]) ==> LiveBridge(a[k]);
    forall i | 0 <= i < |b| && LiveDevice(b[i])
      ensures ViewsBridge(b, b[i])
    {
      assert b[i] == a[i];
      ViewKept(a, b, a[i], b[i]);
    }
  }

  lemma {:induction false} DeviceLeaveKeepsInv(a: seq<Socket>, self: nat, life: Life, deviceId: string)
    requires Inv(a) && self < |a| && Away(life)
    requires a[self].registered && a[self].connection.Device? && a[self].connection.deviceId == deviceId
    requires !OtherDevice(a, self, deviceId)
    ensures Inv(DeviceGone(a, self, life, deviceId))
  {
    DeviceGoneHears(a, self, life, deviceId);
    UniqueKept(a, DeviceGone(a, self, life, deviceId));
    DeviceGoneBridgeViews(a, self, life, deviceId);
    DeviceGoneDeviceViews(a, self, life, deviceId);
  }

  lemma {:induction false} LeaveKeepsInv(a: seq<Socket>, self: nat, life: Life)
    requires Inv(a) && self < |a| && Away(life)
    ensures Inv(WithLife(Disconnected(a, self), self, life))
  {
    var s := a[self];
    if !s.registered {
      SilentLeaveKeepsInv(a, self, life);
    } else {
      match s.connection
      case Bridge(_) =>
        if OtherBridge(a, self) { SilentLeaveKeepsInv(a, self, life); } else { BridgeLeaveKeepsInv(a, self, life); }
      case Device(_, deviceId) =>
        if OtherDevice(a, self, deviceId) {
          SilentLeaveKeepsInv(a, self, life);
        } else {
          DeviceLeaveKeepsInv(a, self, life, deviceId);
        }
    }
  }

  // ---------- Every run ----------

  lemma {:induction false} NextKeepsInv(sockets: seq<Socket>, a: Action)
    requires Inv(sockets) && Possible(sockets, a)
    ensures Inv(Next(sockets, a))
  {
    match a
    case Connect(c) => ConnectKeepsInv(sockets, c);
    case Receive(i, message) => ReceiveKeepsInv(sockets, i, message);
    case PeerCloses(i) => ShutKeepsInv(sockets, i);
    case CloseEvent(i) => LeaveKeepsInv(sockets, i, Gone);
    case ErrorEvent(i) => LeaveKeepsInv(sockets, i, Errored);
  }

  lemma {:induction false} ReceiveKeepsInv(sockets: seq<Socket>, self: nat, message: Incoming)
    requires Inv(sockets) && self < |sockets| && (sockets[self].life.Open? || sockets[self].life.Closing?)
    ensures Inv(Received(sockets, self, message))
  {
    ShutKeepsInv(sockets, self);
    if message.Valid? {
      if !sockets[self].registered {
        RegisteringKeepsInv(sockets, self);
      } else if message.frame.Data? {
        RoutedKeepsInv(sockets, self, message.frame.deviceId, message.frame.payload);
      }
    }
  }

  lemma {:induction false} EveryRunKeepsInv(sockets: seq<Socket>, actions: seq<Action>)
    requires Inv(sockets) && IsRun(sockets, actions)
    ensures Inv(After(sockets, actions))
    decreases |actions|
  {
    if actions != [] {
      NextKeepsInv(sockets, actions[0]);
      EveryRunKeepsInv(Next(sockets, actions[0]), actions[1..]);
    }
  }

  // ---------- Convergence ----------

  // No registered socket still owes its close event.
  predicate Settled(sockets: seq<Socket>) {
    forall i :: 0 <= i < |sockets| ==> !(sockets[i].registered && sockets[i].life.Closing?)
  }

  // The live bridge knows exactly the live devices, and every live device knows whether there is one.
  ghost predicate Converged(sockets: seq<Socket>) {
    && (forall b, d :: 0 <= b < |sockets| && LiveBridge(sockets[b]) ==>
          (d in Known(sockets[b].inbox) <==> FindDevice(sockets, d) < |sockets|))
    && (forall i :: 0 <= i < |sockets| && LiveDevice(sockets[i]) ==>
          Online(sockets[i].inbox) == Some(HasBridge(sockets)))
  }

  lemma {:induction false} SettledConverged(sockets: seq<Socket>)
    requires Inv(sockets) && Settled(sockets)
    ensures Converged(sockets)
  {
    forall b, d | 0 <= b < |sockets| && LiveBridge(sockets[b])
      ensures d in Known(sockets[b].inbox) <==> FindDevice(sockets, d) < |sockets|
    {
      if d in Known(sockets[b].inbox) {
        assert Backed(sockets, d);
        var i :| 0 <= i < |sockets| && Backs(sockets[i], d);
        assert LiveAs(sockets[i], d);
      }
    }
    forall i | 0 <= i < |sockets| && LiveDevice(sockets[i])
      ensures Online(sockets[i].inbox) == Some(HasBridge(sockets))
    {
      assert ViewsBridge(sockets, sockets[i]);
      if BridgeBacked(sockets) {
        var k :| 0 <= k < |sockets| && BacksBridge(sockets[k]);
        assert LiveBridge(sockets[k]);
      }
    }
  }

  // Whatever was connected, replaced, broken or closed late, in any order: there is at most one live
  // bridge and one live socket for each device, and once no close is outstanding all views are right.
  lemma {:induction false} RoomConverges(actions: seq<Action>)
    requires IsRun([], actions)
    ensures Unique(After([], actions))
    ensures Settled(After([], actions)) ==> Converged(After([], actions))
  {
    EveryRunKeepsInv([], actions);
    if Settled(After([], actions)) { SettledConverged(After([], actions)); }
  }

  // The outstanding close events of the first `n` sockets, delivered.
  function CloseAll(sockets: seq<Socket>, n: nat): seq<Socket>
    requires n <= |sockets|
    ensures |CloseAll(sockets, n)| == |sockets|
  {
    if n == 0 then sockets
    else
      var rest := CloseAll(sockets, n - 1);
      if rest[n - 1].life.Closing? then Next(rest, CloseEvent(n - 1)) else rest
  }

  // From any reachable state the outstanding close events alone make the views right.
  lemma {:induction false} ClosesConverge(sockets: seq<Socket>)
    requires Inv(sockets)
    ensures Converged(CloseAll(sockets, |sockets|))
  {
    CloseAllSettles(sockets, |sockets|);
    SettledConverged(CloseAll(sockets, |sockets|));
  }

  // A close event ends its own socket only.
  lemma {:induction false} CloseKeepsLives(sockets: seq<Socket>, self: nat)
    requires Possible(sockets, CloseEvent(self))
    ensures var after := Next(sockets, CloseEvent(self));
      && |after| == |sockets| && after[self].life.Gone?
      && (forall i :: 0 <= i < |sockets| && i != self ==> after[i].life == sockets[i].life)
  {
  }

  lemma {:induction false} CloseAllSettles(sockets: seq<Socket>, n: nat)
    requires Inv(sockets) && n <= |sockets|
    ensures Inv(CloseAll(sockets, n)) && ClosedUpTo(sockets, CloseAll(sockets, n), n)
  {
    if n > 0 {
      CloseAllSettles(sockets, n - 1);
      OneMoreClosed(sockets, CloseAll(sockets, n - 1), n);
    }
  }

  // The first `n` sockets owe nothing any more, and the others are as they were.
  predicate ClosedUpTo(sockets: seq<Socket>, after: seq<Socket>, n: nat) {
    && n <= |sockets| == |after|
    && (forall i :: 0 <= i < n ==> !after[i].life.Closing?)
    && (forall i :: n <= i < |sockets| ==> after[i].life == sockets[i].life)
  }

  lemma {:induction false} OneMoreClosed(sockets: seq<Socket>, rest: seq<Socket>, n: nat)
    requires 0 < n <= |sockets| && Inv(rest) && ClosedUpTo(sockets, rest, n - 1)
    ensures var after := if rest[n - 1].life.Closing? then Next(rest, CloseEvent(n - 1)) else rest;
      Inv(after) && ClosedUpTo(sockets, after, n)
  {
    if rest[n - 1].life.Closing? {
      NextKeepsInv(rest, CloseEvent(n - 1));
      CloseKeepsLives(rest, n - 1);
    }
  }

  // The late close of a socket that was replaced is no news to anybody.
  lemma {:induction false} ReplacedLeavesSilently(sockets: seq<Socket>, self: nat)
    requires self < |sockets| && !sockets[self].life.Gone? && sockets[self].registered
    ensures var c := sockets[self].connection;
      (if c.Bridge? then OtherBridge(sockets, self) else OtherDevice(sockets, self, c.deviceId)) ==>
        Next(sockets, CloseEvent(self)) == sockets[self := sockets[self].(life := Gone)]
  {
  }
}
