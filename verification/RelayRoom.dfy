// The relay room as it is written (apps/relay index.ts): handlers that walk over the live sockets,
// closing some and sending to others.
module RelayRooms {
  import opened Wrappers
  import opened Relay

  class RelayRoom {
    var sockets: seq<Socket>

    constructor ()
      ensures sockets == []
    {
      sockets := [];
    }

    method Fetch(connection: Connection)
      modifies this
      ensures sockets == Next(old(sockets), Connect(connection))
    {
      sockets := sockets + [Socket(connection, false, Open, [])];
    }

    method CloseSocket(i: nat)
      requires i < |sockets|
      modifies this
      ensures sockets == old(sockets)[i := Shut(old(sockets)[i])]
    {
      if sockets[i].life.Open? {
        sockets := sockets[i := sockets[i].(life := Closing)];
      }
    }

    method SendFrame(i: nat, frame: Frame)
      requires i < |sockets|
      modifies this
      ensures sockets == old(sockets)[i := Push(old(sockets)[i], [frame])]
    {
      if sockets[i].life.Open? {
        sockets := sockets[i := sockets[i].(inbox := sockets[i].inbox + [frame])];
      }
    }

    method CurrentBridge() returns (i: nat)
      ensures i == FindBridge(sockets)
    {
      i := 0;
      assert sockets[0..] == sockets;
      while i < |sockets| && !LiveBridge(sockets[i])
        invariant i <= |sockets| && FindBridge(sockets) == i + FindBridge(sockets[i..])
      {
        assert sockets[i..][1..] == sockets[i + 1..];
        i := i + 1;
      }
    }

    method CurrentDevice(deviceId: string) returns (i: nat)
      ensures i == FindDevice(sockets, deviceId)
    {
      i := 0;
      assert sockets[0..] == sockets;
      while i < |sockets| && !LiveAs(sockets[i], deviceId)
        invariant i <= |sockets| && FindDevice(sockets, deviceId) == i + FindDevice(sockets[i..], deviceId)
      {
        assert sockets[i..][1..] == sockets[i + 1..];
        i := i + 1;
      }
    }

    method HasOtherBridge(self: nat) returns (found: bool)
      ensures found == OtherBridge(sockets, self)
    {
      for i := 0 to |sockets|
        invariant forall k :: 0 <= k < i && k != self ==> !LiveBridge(sockets[k])
      {
        if i != self && LiveBridge(sockets[i]) {
          return true;
        }
      }
      found := false;
    }

    method HasOtherDevice(self: nat, deviceId: string) returns (found: bool)
      ensures found == OtherDevice(sockets, self, deviceId)
    {
      for i := 0 to |sockets|
        invariant forall k :: 0 <= k < i && k != self ==> !LiveAs(sockets[k], deviceId)
      {
        if i != self && LiveAs(sockets[i], deviceId) {
          return true;
        }
      }
      found := false;
    }

    // ---------- Registering ----------

    method ReplaceBridges(self: nat)
      requires self < |sockets|
      modifies this
      ensures |sockets| == |old(sockets)|
      ensures forall k :: 0 <= k < |sockets| ==>
        sockets[k] == if k != self && LiveBridge(old(sockets)[k]) then Shut(old(sockets)[k]) else old(sockets)[k]
    {
      for i := 0 to |sockets|
        invariant |sockets| == |old(sockets)|
        invariant forall k :: 0 <= k < i ==>
          sockets[k] == if k != self && LiveBridge(old(sockets)[k]) then Shut(old(sockets)[k]) else old(sockets)[k]
        invariant forall k :: i <= k < |sockets| ==> sockets[k] == old(sockets)[k]
      {
        if i != self && LiveBridge(sockets[i]) {
          CloseSocket(i);
        }
      }
    }

    method IntroduceDevices(self: nat)
      requires self < |sockets| && sockets[self].connection.Bridge?
      modifies this
      ensures |sockets| == |old(sockets)|
      ensures sockets[self] == Push(old(sockets)[self], Presences(old(sockets)))
      ensures forall k :: 0 <= k < |sockets| && k != self ==>
        sockets[k] == if LiveDevice(old(sockets)[k]) then Push(old(sockets)[k], [Registered(true)]) else old(sockets)[k]
    {
      ghost var before := sockets;
      assert before[0..] == before;
      for i := 0 to |sockets|
        invariant |sockets| == |before|
        invariant sockets[self].connection.Bridge?
        invariant Push(sockets[self], Presences(before[i..])) == Push(before[self], Presences(before))
        invariant forall k :: 0 <= k < i && k != self ==>
          sockets[k] == if LiveDevice(before[k]) then Push(before[k], [Registered(true)]) else before[k]
        invariant forall k :: i <= k < |sockets| && k != self ==> sockets[k] == before[k]
      {
        PresencesFrom(sockets[self], before, i);
        if LiveDevice(sockets[i]) {
          SendFrame(self, Presence(sockets[i].connection.deviceId, true));
          SendFrame(i, Registered(true));
        }
      }
    }

    method RegisterBridge(self: nat)
      requires self < |sockets| && sockets[self].connection.Bridge?
      modifies this
      ensures sockets == BridgeJoined(old(sockets), self)
    {
      ReplaceBridges(self);
      SamePresences(old(sockets), sockets);
      IntroduceDevices(self);
      Regroup(old(sockets)[self].inbox, Presences(old(sockets)), [Registered(true)]);
      SendFrame(self, Registered(true));
    }

    method ReplaceDevices(self: nat, deviceId: string)
      requires self < |sockets|
      modifies this
      ensures sockets == DevicesReplaced(old(sockets), self, deviceId)
    {
      for i := 0 to |sockets|
        invariant |sockets| == |old(sockets)|
        invariant forall k :: 0 <= k < i ==> sockets[k] == DevicesReplaced(old(sockets), self, deviceId)[k]
        invariant forall k :: i <= k < |sockets| ==> sockets[k] == old(sockets)[k]
      {
        if i != self && LiveAs(sockets[i], deviceId) {
          CloseSocket(i);
        }
      }
    }

    method RegisterDevice(self: nat, deviceId: string)
      requires self < |sockets|
      modifies this
      ensures sockets == DeviceJoined(old(sockets), self, deviceId)
    {
      ReplaceDevices(self, deviceId);
      var bridge := CurrentBridge();
      var online := bridge < |sockets|;
      if online {
        SendFrame(bridge, Presence(deviceId, true));
      }
      SendFrame(self, Registered(online));
    }

    // ---------- The handlers ----------

    method RouteData(self: nat, deviceId: string, payload: string)
      requires self < |sockets|
      modifies this
      ensures sockets == Routed(old(sockets), self, deviceId, payload)
    {
      var connection := sockets[self].connection;
      var to;
      if connection.Device? {
        if deviceId != connection.deviceId {
          return;
        }
        to := CurrentBridge();
      } else {
        to := CurrentDevice(deviceId);
      }
      if to < |sockets| {
        SendFrame(to, Data(deviceId, payload));
      }
    }

    method WebSocketMessage(self: nat, message: Incoming)
      requires Possible(sockets, Receive(self, message))
      modifies this
      ensures sockets == Next(old(sockets), Receive(self, message))
    {
      var s := sockets[self];
      match message {
        case NotText => CloseSocket(self);
        case TooLarge => CloseSocket(self);
        case NoFrame =>
        case Valid(frame) =>
          if !s.registered {
            if frame != Register(s.connection) {
              CloseSocket(self);
              return;
            }
            sockets := sockets[self := s.(registered := true)];
            if s.connection.Bridge? {
              RegisterBridge(self);
            } else {
              RegisterDevice(self, s.connection.deviceId);
            }
          } else if frame.Data? {
            RouteData(self, frame.deviceId, frame.payload);
          }
      }
    }

    method TellOffline()
      modifies this
      ensures sockets == TellDevices(old(sockets))
    {
      for i := 0 to |sockets|
        invariant |sockets| == |old(sockets)|
        invariant forall k :: 0 <= k < i ==> sockets[k] == BridgeLeft(old(sockets)[k])
        invariant forall k :: i <= k < |sockets| ==> sockets[k] == old(sockets)[k]
      {
        if LiveDevice(sockets[i]) {
          SendFrame(i, Registered(false));
        }
      }
    }

    method Disconnect(self: nat)
      requires self < |sockets|
      modifies this
      ensures sockets == Disconnected(old(sockets), self)
    {
      var s := sockets[self];
      if !s.registered {
        return;
      }
      if s.connection.Bridge? {
        var replaced := HasOtherBridge(self);
        if !replaced {
          TellOffline();
        }
        return;
      }
      var replaced := HasOtherDevice(self, s.connection.deviceId);
      if !replaced {
        var bridge := CurrentBridge();
        if bridge < |sockets| {
          SendFrame(bridge, Presence(s.connection.deviceId, false));
        }
      }
    }

    method WebSocketClose(self: nat)
      requires Possible(sockets, CloseEvent(self))
      modifies this
      ensures sockets == Next(old(sockets), CloseEvent(self))
    {
      Disconnect(self);
      sockets := sockets[self := sockets[self].(life := Gone)];
    }

    method WebSocketError(self: nat)
      requires Possible(sockets, ErrorEvent(self))
      modifies this
      ensures sockets == Next(old(sockets), ErrorEvent(self))
    {
      Disconnect(self);
      sockets := sockets[self := sockets[self].(life := Errored)];
    }
  }

  // Being told of the devices from `i` on is being told of device `i`, then of the rest.
  lemma {:induction false} PresencesFrom(s: Socket, sockets: seq<Socket>, i: nat)
    requires i < |sockets|
    ensures Push(s, Presences(sockets[i..])) ==
      if LiveDevice(sockets[i])
      then Push(Push(s, [Presence(sockets[i].connection.deviceId, true)]), Presences(sockets[i + 1..]))
      else Push(s, Presences(sockets[i + 1..]))
  {
    assert sockets[i..][1..] == sockets[i + 1..];
    if LiveDevice(sockets[i]) {
      Regroup(s.inbox, [Presence(sockets[i].connection.deviceId, true)], Presences(sockets[i + 1..]));
    } else {
      assert [] + Presences(sockets[i + 1..]) == Presences(sockets[i + 1..]);
    }
  }

  // Closing bridges does not change what a new bridge is told.
  lemma {:induction false} SamePresences(a: seq<Socket>, b: seq<Socket>)
    requires |a| == |b|
    requires forall k :: 0 <= k < |a| ==> b[k] == a[k] || (b[k] == Shut(a[k]) && a[k].connection.Bridge?)
    ensures Presences(b) == Presences(a)
  {
    if a != [] {
      SamePresences(a[1..], b[1..]);
    }
  }
}
