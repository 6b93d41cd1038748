// The relay room (apps/relay index.ts): one bridge, many devices, and sockets that are replaced,
// fail, or close late.
module Relay {

  datatype Connection =
    | Bridge(runtimeId: string)
    | Device(runtimeId: string, deviceId: string)

  datatype Frame =
    | Register(connection: Connection)
    | Registered(bridgeOnline: bool)
    | Presence(deviceId: string, connected: bool)
    | Data(deviceId: string, payload: string)
    | ErrorFrame(message: string)

  // What arrives on a socket: a frame, or something that is no frame.
  datatype Incoming = NotText | TooLarge | NoFrame | Valid(frame: Frame)

  // A closing socket still owes the room its close event, and may still deliver frames; after an
  // error no frames come, and a close event may or may not.
  datatype Life = Open | Closing | Errored | Gone

  // `inbox` is what was sent to the peer.
  datatype Socket = Socket(connection: Connection, registered: bool, life: Life, inbox: seq<Frame>)

  predicate Live(s: Socket) {
    s.life.Open? && s.registered
  }

  predicate LiveBridge(s: Socket) {
    Live(s) && s.connection.Bridge?
  }

  predicate LiveDevice(s: Socket) {
    Live(s) && s.connection.Device?
  }

  predicate LiveAs(s: Socket, deviceId: string) {
    LiveDevice(s) && s.connection.deviceId == deviceId
  }

  function Push(s: Socket, frames: seq<Frame>): Socket {
    if s.life.Open? then s.(inbox := s.inbox + frames) else s
  }

  function Shut(s: Socket): Socket {
    if s.life.Open? then s.(life := Closing) else s
  }

  function Sent(sockets: seq<Socket>, i: nat, frame: Frame): seq<Socket> {
    if i < |sockets| then sockets[i := Push(sockets[i], [frame])] else sockets
  }

  // The first socket that is a live bridge; `|sockets|` if there is none.
  function FindBridge(sockets: seq<Socket>): (i: nat)
    ensures i <= |sockets|
    ensures i < |sockets| ==> LiveBridge(sockets[i])
    ensures forall k :: 0 <= k < i ==> !LiveBridge(sockets[k])
  {
    if sockets == [] || LiveBridge(sockets[0]) then 0 else 1 + FindBridge(sockets[1..])
  }

  function FindDevice(sockets: seq<Socket>, deviceId: string): (i: nat)
    ensures i <= |sockets|
    ensures i < |sockets| ==> LiveAs(sockets[i], deviceId)
    ensures forall k :: 0 <= k < i ==> !LiveAs(sockets[k], deviceId)
  {
    if sockets == [] || LiveAs(sockets[0], deviceId) then 0 else 1 + FindDevice(sockets[1..], deviceId)
  }

  predicate HasBridge(sockets: seq<Socket>) {
    FindBridge(sockets) < |sockets|
  }

  // ---------- Registering ----------

  // What a new bridge hears about the devices that are there.
  function Presences(sockets: seq<Socket>): seq<Frame> {
    if sockets == [] then []
    else
      var rest := Presences(sockets[1..]);
      if LiveDevice(sockets[0]) then [Presence(sockets[0].connection.deviceId, true)] + rest else rest
  }

  function MetByBridge(s: Socket): Socket {
    if LiveBridge(s) then Shut(s) else if LiveDevice(s) then Push(s, [Registered(true)]) else s
  }

  function BridgeJoined(sockets: seq<Socket>, self: nat): (after: seq<Socket>)
    requires self < |sockets|
    ensures |after| == |sockets|
    ensures forall i :: 0 <= i < |sockets| ==>
      after[i] == if i == self then Push(sockets[self],
                                         Presences(sockets) + [Registered(true)]) else MetByBridge(sockets[i])
  {
    seq(|sockets|, i requires 0 <= i < |sockets| =>
      if i == self then Push(sockets[self], Presences(sockets) + [Registered(true)]) else MetByBridge(sockets[i]))
  }

  function DevicesReplaced(sockets: seq<Socket>, self: nat, deviceId: string): (after: seq<Socket>)
    requires self < |sockets|
    ensures |after| == |sockets|
    ensures forall i :: 0 <= i < |sockets| ==>
      after[i] == if i != self && LiveAs(sockets[i], deviceId) then Shut(sockets[i]) else sockets[i]
  {
    seq(|sockets|, i requires 0 <= i < |sockets| =>
      if i != self && LiveAs(sockets[i], deviceId) then Shut(sockets[i]) else sockets[i])
  }

  function DeviceJoined(sockets: seq<Socket>, self: nat, deviceId: string): seq<Socket>
    requires self < |sockets|
  {
    var replaced := DevicesReplaced(sockets, self, deviceId);
    var bridge := FindBridge(replaced);
    var told := Sent(replaced, bridge, Presence(deviceId, true));
    Sent(told, self, Registered(bridge < |replaced|))
  }

  function Joined(sockets: seq<Socket>, self: nat): seq<Socket>
    requires self < |sockets|
  {
    match sockets[self].connection
    case Bridge(_) => BridgeJoined(sockets, self)
    case Device(_, deviceId) => DeviceJoined(sockets, self, deviceId)
  }

  // ---------- Frames ----------

  function Routed(sockets: seq<Socket>, self: nat, deviceId: string, payload: string): seq<Socket>
    requires self < |sockets|
  {
    match sockets[self].connection
    case Device(_, own) =>
      if deviceId != own then sockets else Sent(sockets, FindBridge(sockets), Data(deviceId, payload))
    case Bridge(_) => Sent(sockets, FindDevice(sockets, deviceId), Data(deviceId, payload))
  }

  function Received(sockets: seq<Socket>, self: nat, message: Incoming): seq<Socket>
    requires self < |sockets|
  {
    var s := sockets[self];
    match message
    case NotText => sockets[self := Shut(s)]
    case TooLarge => sockets[self := Shut(s)]
    case NoFrame => sockets
    case Valid(frame) =>
      if !s.registered then
        if frame != Register(s.connection) then sockets[self := Shut(s)]
        else Joined(sockets[self := s.(registered := true)], self)
      else if frame.Data? then Routed(sockets, self, frame.deviceId, frame.payload)
      else sockets
  }

  // ---------- Leaving ----------

  function BridgeLeft(s: Socket): Socket {
    if LiveDevice(s) then Push(s, [Registered(false)]) else s
  }

  function TellDevices(sockets: seq<Socket>): (after: seq<Socket>)
    ensures |after| == |sockets|
    ensures forall i :: 0 <= i < |sockets| ==> after[i] == BridgeLeft(sockets[i])
  {
    seq(|sockets|, i requires 0 <= i < |sockets| => BridgeLeft(sockets[i]))
  }

  predicate OtherBridge(sockets: seq<Socket>, self: nat) {
    exists i :: 0 <= i < |sockets| && i != self && LiveBridge(sockets[i])
  }

  predicate OtherDevice(sockets: seq<Socket>, self: nat, deviceId: string) {
    exists i :: 0 <= i < |sockets| && i != self && LiveAs(sockets[i], deviceId)
  }

  // What leaving means for the others. The leaving socket itself may still count as open.
  function Disconnected(sockets: seq<Socket>, self: nat): seq<Socket>
    requires self < |sockets|
  {
    var s := sockets[self];
    if !s.registered then sockets
    else
      match s.connection
      case Bridge(_) => if OtherBridge(sockets, self) then sockets else TellDevices(sockets)
      case Device(_, deviceId) =>
        if OtherDevice(sockets, self, deviceId) then sockets
        else Sent(sockets, FindBridge(sockets), Presence(deviceId, false))
  }

  function WithLife(sockets: seq<Socket>, self: nat, life: Life): seq<Socket>
    requires self < |sockets|
  {
    sockets[self := sockets[self].(life := life)]
  }

  // ---------- The room's history ----------

  datatype Action =
    | Connect(connection: Connection)
    | Receive(self: nat, message: Incoming)
    | PeerCloses(self: nat)
    | CloseEvent(self: nat)
    | ErrorEvent(self: nat)

  predicate Possible(sockets: seq<Socket>, a: Action) {
    match a
    case Connect(_) => true
    case Receive(i, _) => i < |sockets| && (sockets[i].life.Open? || sockets[i].life.Closing?)
    case PeerCloses(i) => i < |sockets| && sockets[i].life.Open?
    case CloseEvent(i) => i < |sockets| && !sockets[i].life.Gone?
    case ErrorEvent(i) => i < |sockets| && (sockets[i].life.Open? || sockets[i].life.Closing?)
  }

  function Next(sockets: seq<Socket>, a: Action): seq<Socket>
    requires Possible(sockets, a)
  {
    match a
    case Connect(c) => sockets + [Socket(c, false, Open, [])]
    case Receive(i, message) => Received(sockets, i, message)
    case PeerCloses(i) => WithLife(sockets, i, Closing)
    case CloseEvent(i) => WithLife(Disconnected(sockets, i), i, Gone)
    case ErrorEvent(i) => WithLife(Disconnected(sockets, i), i, Errored)
  }

  ghost predicate IsRun(sockets: seq<Socket>, actions: seq<Action>)
    decreases |actions|
  {
    actions == [] || (Possible(sockets, actions[0]) && IsRun(Next(sockets, actions[0]), actions[1..]))
  }

  function After(sockets: seq<Socket>, actions: seq<Action>): seq<Socket>
    requires IsRun(sockets, actions)
    decreases |actions|
  {
    if actions == [] then sockets else After(Next(sockets, actions[0]), actions[1..])
  }
}
