/** The discovery client: the browser side of the signalling connection. It keeps the list
    of devices the relay has announced, the local device, the socket and two flags
    (`isConnected`, `shouldReconnect`), and reconnects five seconds after the socket closes
    unless the user disconnected on purpose.

    The socket's own events (open, message, error, close) and the firing of the reconnect
    timer are events of the model; the timer is counted, not timed. `Step` specifies every
    event and every entry point; the class `DiscoveryClient` performs them in place. */
module Discovery {
  import opened Types
  import opened Text
  import opened DeviceList

  /** `getPlatform`: `None` stands for a run without a browser window. Mobile platforms are
      tested before desktop ones. */
  function PlatformOf(userAgent: Option<string>): string
  {
    if userAgent.None? then "Server"
    else
      var ua := Lower(userAgent.value);
      if Contains(ua, "android") then "Android"
      else if Contains(ua, "iphone") || Contains(ua, "ipad") then "iOS"
      else if Contains(ua, "win") then "Windows"
      else if Contains(ua, "mac") then "macOS"
      else if Contains(ua, "linux") then "Linux"
      else "Unknown"
  }

  /** An Android user agent is Android even though it also names Linux, and an iPhone or
      iPad one is iOS even though it also names Mac OS. */
  lemma MobileBeforeDesktop(ua: string)
    ensures Contains(Lower(ua), "android") ==> PlatformOf(Some(ua)) == "Android"
    ensures !Contains(Lower(ua), "android") && (Contains(Lower(ua), "iphone") || Contains(Lower(ua), "ipad"))
      ==> PlatformOf(Some(ua)) == "iOS"
  {
  }

  /** A desktop answer is given only when no mobile keyword occurs, and `Unknown` exactly
      when no keyword does. */
  lemma DesktopOnlyWithoutMobile(ua: string)
    ensures var p := PlatformOf(Some(ua)); var l := Lower(ua);
      (p == "Windows" || p == "macOS" || p == "Linux") ==>
        !Contains(l, "android") && !Contains(l, "iphone") && !Contains(l, "ipad")
    ensures var l := Lower(ua);
      PlatformOf(Some(ua)) == "Unknown" <==>
        !Contains(l, "android") && !Contains(l, "iphone") && !Contains(l, "ipad")
        && !Contains(l, "win") && !Contains(l, "mac") && !Contains(l, "linux")
  {
  }

  /** A frame from the relay, as parsed. */
  datatype ServerMsg =
    | InitMsg(assignedId: string)
    | PeerJoinedMsg(deviceInfo: Option<Device>)
    | PeerLeftMsg(peerId: Option<string>)
    | OtherMsg
    | Unparseable

  datatype ReadyState = Connecting | Open | Closing | Closed

  /** Everything the client's events can change. `timers` counts scheduled reconnect
      timers, `connects` counts sockets created, `sent` lists the devices announced on the
      socket, and `storedId` stands for the `deviceId` entry of the browser's storage. */
  datatype DiscoveryState = DiscoveryState(
    devices: seq<Device>,
    local: Option<Device>,
    socket: Option<ReadyState>,
    isConnected: bool,
    shouldReconnect: bool,
    timers: nat,
    connects: nat,
    sent: seq<Device>,
    storedId: Option<string>)

  datatype Event =
    | Connect
    | Opened
    | Received(msg: ServerMsg)
    | Errored
    | SocketClosed
    | TimerFired
    | SetLocalPeerId(peerId: string)
    | AnnounceNow
    | Disconnect
    | InitDevice(generatedId: string, name: string, platform: string, now: int)

  /** `announce`: send the local device only on an open socket and with a PeerJS id. */
  function Announced(s: DiscoveryState): DiscoveryState
  {
    if s.socket == Some(Open) && s.local.Some? && Truthy(s.local.value.peerId)
    then s.(sent := s.sent + [s.local.value])
    else s
  }

  /** `connect`: re-enable reconnection and open a new socket. */
  function Connected(s: DiscoveryState): DiscoveryState
  {
    s.(shouldReconnect := true, socket := Some(Connecting), connects := s.connects + 1)
  }

  function Step(s: DiscoveryState, e: Event): DiscoveryState
  {
    match e
    case Connect => Connected(s)
    case Opened =>
      var s1 := s.(socket := if s.socket.Some? then Some(Open) else None, isConnected := true);
      if s1.local.Some? && Truthy(s1.local.value.peerId) then Announced(s1) else s1
    case Received(m) =>
      (match m
       case PeerJoinedMsg(info) =>
         if info.Some? && (s.local.None? || info.value.id != s.local.value.id)
         then s.(devices := UpsertById(s.devices, info.value))
         else s
       case PeerLeftMsg(p) =>
         if Truthy(p) then s.(devices := WithoutPeerId(s.devices, p.value)) else s
       case InitMsg(_) => s
       case OtherMsg => s
       case Unparseable => s)
    case Errored => s.(isConnected := false)
    case SocketClosed =>
      s.(socket := if s.socket.Some? then Some(Closed) else None,
         isConnected := false,
         timers := if s.shouldReconnect then s.timers + 1 else s.timers)
    case TimerFired =>
      if s.timers == 0 then s
      else
        var s1 := s.(timers := s.timers - 1);
        if !s1.isConnected && s1.shouldReconnect then Connected(s1) else s1
    case SetLocalPeerId(p) =>
      if s.local.None? then s
      else
        var s1 := s.(local := Some(s.local.value.(peerId := Some(p))));
        if s1.socket == Some(Open) then Announced(s1) else s1
    case AnnounceNow => Announced(s)
    case Disconnect =>
      s.(shouldReconnect := false, socket := None, isConnected := false, devices := [], local := None)
    case InitDevice(generated, name, platform, now) =>
      var id := if Truthy(s.storedId) then s.storedId.value else generated;
      s.(local := Some(Device(id, name, platform, None, now, None)), storedId := Some(id))
  }

  function Run(s: DiscoveryState, es: seq<Event>): DiscoveryState
    decreases |es|
  {
    if es == [] then s else Run(Step(s, es[0]), es[1..])
  }

  // ---------------------------------------------------------------------------------------
  // Properties
  // ---------------------------------------------------------------------------------------

  /** The device list never holds two entries with one id. */
  lemma StepKeepsDistinct(s: DiscoveryState, e: Event)
    requires DistinctIds(s.devices)
    ensures DistinctIds(Step(s, e).devices)
  {
    if e.Received? && e.msg.PeerJoinedMsg? && e.msg.deviceInfo.Some? {
      UpsertKeepsDistinct(s.devices, e.msg.deviceInfo.value);
    }
    if e.Received? && e.msg.PeerLeftMsg? && Truthy(e.msg.peerId) {
      WithoutPeerIdKeepsDistinct(s.devices, e.msg.peerId.value);
    }
  }

  /** A `peer-joined` for the local device's own id leaves the list alone; any other
      device is upserted by id. */
  lemma PeerJoinedEffect(s: DiscoveryState, d: Device)
    ensures s.local.Some? && d.id == s.local.value.id ==>
      Step(s, Received(PeerJoinedMsg(Some(d)))) == s
    ensures (s.local.None? || d.id != s.local.value.id) ==>
      var t := Step(s, Received(PeerJoinedMsg(Some(d))));
      && d in t.devices
      && |t.devices| == (if IndexOfId(s.devices, d.id).Some? then |s.devices| else |s.devices| + 1)
      && forall j :: 0 <= j < |s.devices| && s.devices[j].id != d.id ==> t.devices[j] == s.devices[j]
  {
    UpsertShape(s.devices, d);
    if (s.local.None? || d.id != s.local.value.id) {
      var t := Step(s, Received(PeerJoinedMsg(Some(d))));
      assert t.devices == UpsertById(s.devices, d);
      match IndexOfId(s.devices, d.id) {
        case Some(i) =>
          forall j | 0 <= j < |s.devices| && s.devices[j].id != d.id
            ensures t.devices[j] == s.devices[j]
          {
            assert j != i;
          }
        case None =>
      }
    }
  }

  /** A `peer-left` with a PeerJS id drops exactly the devices carrying that id. */
  lemma PeerLeftEffect(s: DiscoveryState, p: string)
    requires p != ""
    ensures var t := Step(s, Received(PeerLeftMsg(Some(p))));
      forall d :: d in t.devices <==> d in s.devices && d.peerId != Some(p)
  {
    WithoutPeerIdMembers(s.devices, p);
  }

  /** Nothing but the device list ever changes on a relay frame. */
  lemma MessagesTouchOnlyDevices(s: DiscoveryState, m: ServerMsg)
    ensures Step(s, Received(m)) == s.(devices := Step(s, Received(m)).devices)
  {
  }

  /** Whatever the event, an announcement goes out only on an open socket, and it carries
      the local device with a non-empty PeerJS id; at most one goes out per event. */
  lemma AnnouncesOnlyWhenOpen(s: DiscoveryState, e: Event)
    ensures var t := Step(s, e);
      |t.sent| == |s.sent| || (|t.sent| == |s.sent| + 1 && t.sent == s.sent + [t.local.value]
                                && t.socket == Some(Open) && t.local.Some? && Truthy(t.local.value.peerId))
  {
  }

  /** `setLocalPeerId` does nothing without a local device; otherwise it sets the PeerJS id
      and announces exactly when the socket is open (and the id is not empty). */
  lemma SetLocalPeerIdEffect(s: DiscoveryState, p: string)
    ensures s.local.None? ==> Step(s, SetLocalPeerId(p)) == s
    ensures s.local.Some? ==>
      var t := Step(s, SetLocalPeerId(p));
      && t.local == Some(s.local.value.(peerId := Some(p)))
      && (t.sent == if s.socket == Some(Open) && p != "" then s.sent + [t.local.value] else s.sent)
  {
  }

  /** On close, a reconnect is scheduled exactly when reconnection is wanted; when the
      timer fires, a new socket is made exactly when still disconnected and still wanted. */
  lemma ReconnectRule(s: DiscoveryState)
    ensures var t := Step(s, SocketClosed);
      !t.isConnected && (t.timers == if s.shouldReconnect then s.timers + 1 else s.timers)
    ensures s.timers > 0 ==>
      var t := Step(s, TimerFired);
      && t.timers == s.timers - 1
      && (t.connects == if !s.isConnected && s.shouldReconnect then s.connects + 1 else s.connects)
  {
  }

  /** `disconnect` forgets the devices and the local device, drops the socket and turns
      reconnection off. */
  lemma DisconnectEffect(s: DiscoveryState)
    ensures var t := Step(s, Disconnect);
      && !t.shouldReconnect && t.socket.None? && !t.isConnected
      && t.devices == [] && t.local.None?
      && t.connects == s.connects && t.timers == s.timers
  {
  }

  /** After `disconnect`, no socket event and no timer ever reconnects, and nothing is
      announced, until the application calls `connect` again. */
  lemma {:induction false} NoReconnectAfterDisconnect(s: DiscoveryState, es: seq<Event>)
    requires !s.shouldReconnect && s.socket.None?
    requires forall i :: 0 <= i < |es| ==> es[i] != Connect
    ensures Run(s, es).connects == s.connects
    ensures !Run(s, es).shouldReconnect && Run(s, es).socket.None?
    ensures Run(s, es).sent == s.sent
    decreases |es|
  {
    if es != [] {
      var t := Step(s, es[0]);
      assert t.connects == s.connects && !t.shouldReconnect && t.socket.None? && t.sent == s.sent;
      assert forall i :: 0 <= i < |es[1..]| ==> es[1..][i] == es[i + 1];
      NoReconnectAfterDisconnect(t, es[1..]);
    }
  }

  /** `initDevice` reuses a non-empty stored id and otherwise takes the generated one; either
      way the id is written back to storage, and the device has no PeerJS id yet. */
  lemma InitDeviceEffect(s: DiscoveryState, generated: string, name: string, platform: string, now: int)
    ensures var t := Step(s, InitDevice(generated, name, platform, now));
      && t.local.Some?
      && t.local.value.id == (if Truthy(s.storedId) then s.storedId.value else generated)
      && t.storedId == Some(t.local.value.id)
      && t.local.value.peerId.None?
      && t.devices == s.devices
  {
  }

  // ---------------------------------------------------------------------------------------
  // The composable, in place
  // ---------------------------------------------------------------------------------------

  class DiscoveryClient {
    var devices: seq<Device>
    var localDevice: Option<Device>
    var socket: Option<ReadyState>
    var isConnected: bool
    var shouldReconnect: bool
    var timers: nat
    var connects: nat
    var sent: seq<Device>
    var storedId: Option<string>

    function State(): DiscoveryState
      reads this
    {
      DiscoveryState(devices, localDevice, socket, isConnected, shouldReconnect, timers, connects, sent, storedId)
    }

    /** The module's initial values; `storedId` is whatever the browser's storage holds. */
    constructor (storedId: Option<string>)
      ensures State() == DiscoveryState([], None, None, false, true, 0, 0, [], storedId)
    {
      devices, localDevice, socket := [], None, None;
      isConnected, shouldReconnect := false, true;
      timers, connects, sent := 0, 0, [];
      this.storedId := storedId;
    }

    method AddDevice(d: Device)
      modifies this`devices
      ensures devices == UpsertById(old(devices), d)
    {
      var existing := IndexOfId(devices, d.id);
      if existing.Some? {
        devices := devices[existing.value := d];
      } else {
        devices := devices + [d];
      }
    }

    method RemoveDevice(p: string)
      modifies this`devices
      ensures devices == WithoutPeerId(old(devices), p)
    {
      devices := WithoutPeerId(devices, p);
    }

    method Announce()
      modifies this`sent
      ensures State() == Announced(old(State()))
    {
      if socket == Some(Open) && localDevice.Some? && Truthy(localDevice.value.peerId) {
        sent := sent + [localDevice.value];
      }
    }

    method Connect()
      modifies this
      ensures State() == Step(old(State()), Event.Connect)
    {
      shouldReconnect := true;
      socket := Some(Connecting);
      connects := connects + 1;
    }

    method OnOpen()
      modifies this
      ensures State() == Step(old(State()), Opened)
    {
      if socket.Some? {
        socket := Some(Open);
      }
      isConnected := true;
      if localDevice.Some? && Truthy(localDevice.value.peerId) {
        Announce();
      }
    }

    method OnMessage(m: ServerMsg)
      modifies this
      ensures State() == Step(old(State()), Received(m))
    {
      match m {
        case PeerJoinedMsg(info) =>
          if info.Some? && (localDevice.None? || info.value.id != localDevice.value.id) {
            AddDevice(info.value);
          }
        case PeerLeftMsg(p) =>
          if Truthy(p) {
            RemoveDevice(p.value);
          }
        case InitMsg(_) =>
        case OtherMsg =>
        case Unparseable =>
      }
    }

    method OnError()
      modifies this
      ensures State() == Step(old(State()), Errored)
    {
      isConnected := false;
    }

    method OnClose()
      modifies this
      ensures State() == Step(old(State()), SocketClosed)
    {
      if socket.Some? {
        socket := Some(Closed);
      }
      isConnected := false;
      if shouldReconnect {
        timers := timers + 1;
      }
    }

    /** A scheduled reconnect timer fires. */
    method FireReconnectTimer()
      requires timers > 0
      modifies this
      ensures State() == Step(old(State()), TimerFired)
    {
      timers := timers - 1;
      if !isConnected && shouldReconnect {
        Connect();
      }
    }

    method SetLocalPeerId(p: string)
      modifies this
      ensures State() == Step(old(State()), Event.SetLocalPeerId(p))
    {
      if localDevice.Some? {
        localDevice := Some(localDevice.value.(peerId := Some(p)));
        if socket == Some(Open) {
          Announce();
        }
      }
    }

    method Disconnect()
      modifies this
      ensures State() == Step(old(State()), Event.Disconnect)
    {
      shouldReconnect := false;
      if socket.Some? {
        socket := None;
      }
      isConnected := false;
      devices := [];
      localDevice := None;
    }

    /** `initDevice`, with the generated id, the device name and the platform as inputs. */
    method InitDevice(generated: string, name: string, platform: string, now: int)
      modifies this
      ensures State() == Step(old(State()), Event.InitDevice(generated, name, platform, now))
    {
      var id := if Truthy(storedId) then storedId.value else generated;
      localDevice := Some(Device(id, name, platform, None, now, None));
      storedId := Some(id);
    }
  }
}
