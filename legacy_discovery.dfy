/** The older discovery client. It differs from `Discovery` in four ways: every close
    schedules a reconnect (there is no `shouldReconnect` flag), `disconnect` only closes the
    socket, `initDevice` always generates a new id, and the platform test looks at desktop
    keywords before mobile ones. */
module LegacyDiscovery {
  import opened Types
  import opened Text
  import opened DeviceList
  import Discovery

  /** `getPlatform`, desktop keywords first. */
  function PlatformOf(userAgent: Option<string>): string
  {
    if userAgent.None? then "Server"
    else
      var ua := Lower(userAgent.value);
      if Contains(ua, "win") then "Windows"
      else if Contains(ua, "mac") then "macOS"
      else if Contains(ua, "linux") then "Linux"
      else if Contains(ua, "android") then "Android"
      else if Contains(ua, "iphone") || Contains(ua, "ipad") then "iOS"
      else "Unknown"
  }

  /** The two orders agree on every user agent that names no desktop keyword, and on every
      one that names no mobile keyword. */
  lemma PlatformOrdersAgreeWithoutOverlap(ua: string)
    ensures var l := Lower(ua);
      (!Contains(l, "win") && !Contains(l, "mac") && !Contains(l, "linux")) ||
      (!Contains(l, "android") && !Contains(l, "iphone") && !Contains(l, "ipad"))
      ==> PlatformOf(Some(ua)) == Discovery.PlatformOf(Some(ua))
  {
  }

  /** An Android user agent also names Linux; unless it names Windows or Mac as well, the
      desktop-first order reads it as Linux where the mobile-first order reads Android. */
  lemma AndroidReadAsLinux(ua: string)
    requires Contains(Lower(ua), "android") && Contains(Lower(ua), "linux")
    requires !Contains(Lower(ua), "win") && !Contains(Lower(ua), "mac")
    ensures PlatformOf(Some(ua)) == "Linux"
    ensures Discovery.PlatformOf(Some(ua)) == "Android"
  {
  }

  /** An iPhone or iPad user agent also names Mac OS; unless it names Windows, the
      desktop-first order reads it as macOS where the mobile-first order reads iOS. */
  lemma IOSReadAsMac(ua: string)
    requires Contains(Lower(ua), "iphone") || Contains(Lower(ua), "ipad")
    requires Contains(Lower(ua), "mac") && !Contains(Lower(ua), "win") && !Contains(Lower(ua), "android")
    ensures PlatformOf(Some(ua)) == "macOS"
    ensures Discovery.PlatformOf(Some(ua)) == "iOS"
  {
  }

  /** A string lacking one of `t`'s characters does not contain `t`. */
  lemma MissingCharNotContained(s: string, t: string, k: nat)
    requires k < |t| && t[k] !in s
    ensures !Contains(s, t)
  {
  }

  /** Lower-casing leaves a string without capitals unchanged. */
  lemma LowerOfLowercase(s: string)
    requires forall i :: 0 <= i < |s| ==> !('A' <= s[i] <= 'Z')
    ensures Lower(s) == s
  {
  }

  /** Which keywords the two sample user agents name. */
  lemma SampleKeywords()
    ensures var a := "linux; android";
      Contains(a, "android") && Contains(a, "linux") && !Contains(a, "win") && !Contains(a, "mac")
    ensures var i := "iphone; mac os";
      Contains(i, "iphone") && Contains(i, "mac") && !Contains(i, "win") && !Contains(i, "android")
  {
    var a := "linux; android";
    assert OccursAt(a, "linux", 0);
    assert OccursAt(a, "android", 7);
    MissingCharNotContained(a, "win", 0);
    MissingCharNotContained(a, "mac", 0);
    var i := "iphone; mac os";
    assert OccursAt(i, "iphone", 0);
    assert OccursAt(i, "mac", 8);
    MissingCharNotContained(i, "win", 0);
    MissingCharNotContained(i, "android", 6);
  }

  lemma AndroidSampleIsLowercase()
    ensures Lower("linux; android") == "linux; android"
  {
    LowerOfLowercase("linux; android");
  }

  lemma IPhoneSampleIsLowercase()
    ensures Lower("iphone; mac os") == "iphone; mac os"
  {
    LowerOfLowercase("iphone; mac os");
  }

  /** Concrete user agents (already in lower case) for `AndroidReadAsLinux` and
      `IOSReadAsMac`. */
  lemma MisreadExamples()
    ensures PlatformOf(Some("linux; android")) == "Linux"
    ensures Discovery.PlatformOf(Some("linux; android")) == "Android"
    ensures PlatformOf(Some("iphone; mac os")) == "macOS"
    ensures Discovery.PlatformOf(Some("iphone; mac os")) == "iOS"
  {
    SampleKeywords();
    AndroidSampleIsLowercase();
    IPhoneSampleIsLowercase();
    AndroidReadAsLinux("linux; android");
    IOSReadAsMac("iphone; mac os");
  }

  datatype LegacyState = LegacyState(
    devices: seq<Device>,
    local: Option<Device>,
    socket: Option<Discovery.ReadyState>,
    isConnected: bool,
    timers: nat,
    connects: nat,
    sent: seq<Device>,
    storedId: Option<string>)

  datatype Event =
    | Connect
    | Opened
    | Received(msg: Discovery.ServerMsg)
    | Errored
    | SocketClosed
    | TimerFired
    | SetLocalPeerId(peerId: string)
    | AnnounceNow
    | Disconnect
    | InitDevice(generatedId: string, name: string, platform: string, now: int)

  function Announced(s: LegacyState): LegacyState
  {
    if s.socket == Some(Discovery.Open) && s.local.Some? && Truthy(s.local.value.peerId)
    then s.(sent := s.sent + [s.local.value])
    else s
  }

  function Connected(s: LegacyState): LegacyState
  {
    s.(socket := Some(Discovery.Connecting), connects := s.connects + 1)
  }

  function Step(s: LegacyState, e: Event): LegacyState
  {
    match e
    case Connect => Connected(s)
    case Opened =>
      var s1 := s.(socket := if s.socket.Some? then Some(Discovery.Open) else None, isConnected := true);
      if s1.local.Some? && Truthy(s1.local.value.peerId) then Announced(s1) else s1
    case Received(m) =>
      (match m
       case PeerJoinedMsg(info) =>
         if info.Some? && (s.local.None? || info.value.id != s.local.value.id)
         then s.(devices := UpsertById(s.devices, info.value))
         else s
       case PeerLeftMsg(p) =>
         if Truthy(p) then s.(devices := WithoutPeerId(s.devices, p.value)) else s
       case InitMsg(_) => s
       case OtherMsg => s
       case Unparseable => s)
    case Errored => s.(isConnected := false)
    case SocketClosed =>
      s.(socket := if s.socket.Some? then Some(Discovery.Closed) else None,
         isConnected := false,
         timers := s.timers + 1)
    case TimerFired =>
      if s.timers == 0 then s
      else
        var s1 := s.(timers := s.timers - 1);
        if !s1.isConnected then Connected(s1) else s1
    case SetLocalPeerId(p) =>
      if s.local.None? then s
      else
        var s1 := s.(local := Some(s.local.value.(peerId := Some(p))));
        if s1.socket == Some(Discovery.Open) then Announced(s1) else s1
    case AnnounceNow => Announced(s)
    case Disconnect => s.(socket := None, isConnected := false)
    case InitDevice(generated, name, platform, now) =>
      s.(local := Some(Device(generated, name, platform, None, now, None)), storedId := Some(generated))
  }

  function Run(s: LegacyState, es: seq<Event>): LegacyState
    decreases |es|
  {
    if es == [] then s else Run(Step(s, es[0]), es[1..])
  }

  /** The device list never holds two entries with one id. */
  lemma StepKeepsDistinct(s: LegacyState, e: Event)
    requires DistinctIds(s.devices)
    ensures DistinctIds(Step(s, e).devices)
  {
    if e.Received? && e.msg.PeerJoinedMsg? && e.msg.deviceInfo.Some? {
      UpsertKeepsDistinct(s.devices, e.msg.deviceInfo.value);
    }
    if e.Received? && e.msg.PeerLeftMsg? && Truthy(e.msg.peerId) {
      WithoutPeerIdKeepsDistinct(s.devices, e.msg.peerId.value);
    }
  }

  /** `disconnect` drops the socket but keeps the device list and the local device. */
  lemma DisconnectKeepsDevices(s: LegacyState)
    ensures var t := Step(s, Disconnect);
      t.socket.None? && !t.isConnected && t.devices == s.devices && t.local == s.local
      && t.timers == s.timers && t.connects == s.connects
  {
  }

  /** Every close schedules a reconnect, and a timer reconnects whenever the client is not
      connected. */
  lemma ReconnectRule(s: LegacyState)
    ensures Step(s, SocketClosed).timers == s.timers + 1
    ensures s.timers > 0 ==>
      Step(s, TimerFired).connects == if s.isConnected then s.connects else s.connects + 1
  {
  }

  /** `initDevice` ignores the stored id: the device gets the newly generated one. */
  lemma InitDeviceIgnoresStoredId(s: LegacyState, generated: string, name: string, platform: string, now: int)
    ensures var t := Step(s, InitDevice(generated, name, platform, now));
      t.local == Some(Device(generated, name, platform, None, now, None)) && t.storedId == Some(generated)
  {
  }

  /** An intentional disconnect does not stick: the closing socket's `close` event
      schedules a reconnect, and when that timer fires a new socket is opened, while the
      old device list is still shown. */
  lemma ReconnectsAfterDisconnect(s: LegacyState)
    ensures var t := Run(s, [Disconnect, SocketClosed, TimerFired]);
      t.connects == s.connects + 1 && t.socket == Some(Discovery.Connecting) && t.devices == s.devices
  {
    var s1 := Step(s, Disconnect);
    var s2 := Step(s1, SocketClosed);
    var s3 := Step(s2, TimerFired);
    assert s3.connects == s.connects + 1 && s3.socket == Some(Discovery.Connecting) && s3.devices == s.devices;
    assert Run(s, [Disconnect, SocketClosed, TimerFired]) == Run(s1, [SocketClosed, TimerFired]);
    assert Run(s1, [SocketClosed, TimerFired]) == Run(s2, [TimerFired]);
    assert Run(s2, [TimerFired]) == Run(s3, []);
  }

  /** The same three events leave the newer client disconnected and its lists empty. */
  lemma NewerClientStaysDisconnected(s: Discovery.DiscoveryState)
    ensures var t := Discovery.Run(s, [Discovery.Disconnect, Discovery.SocketClosed, Discovery.TimerFired]);
      t.connects == s.connects && t.socket.None? && t.devices == []
  {
    var es := [Discovery.Disconnect, Discovery.SocketClosed, Discovery.TimerFired];
    var s1 := Discovery.Step(s, Discovery.Disconnect);
    Discovery.NoReconnectAfterDisconnect(s1, es[1..]);
    assert Discovery.Run(s, es) == Discovery.Run(s1, es[1..]);
    var s2 := Discovery.Step(s1, Discovery.SocketClosed);
    var s3 := Discovery.Step(s2, Discovery.TimerFired);
    assert s3.devices == [];
    assert Discovery.Run(s1, es[1..]) == Discovery.Run(s2, [Discovery.TimerFired]);
    assert Discovery.Run(s2, [Discovery.TimerFired]) == Discovery.Run(s3, []);
  }

  class LegacyDiscoveryClient {
    var devices: seq<Device>
    var localDevice: Option<Device>
    var socket: Option<Discovery.ReadyState>
    var isConnected: bool
    var timers: nat
    var connects: nat
    var sent: seq<Device>
    var storedId: Option<string>

    function State(): LegacyState
      reads this
    {
      LegacyState(devices, localDevice, socket, isConnected, timers, connects, sent, storedId)
    }

    /** Each call of the composable starts from fresh state. */
    constructor (storedId: Option<string>)
      ensures State() == LegacyState([], None, None, false, 0, 0, [], storedId)
    {
      devices, localDevice, socket, isConnected := [], None, None, false;
      timers, connects, sent := 0, 0, [];
      this.storedId := storedId;
    }

    method AddDevice(d: Device)
      modifies this`devices
      ensures devices == UpsertById(old(devices), d)
    {
      var existing := IndexOfId(devices, d.id);
      if existing.Some? {
        devices := devices[existing.value := d];
      } else {
        devices := devices + [d];
      }
    }

    method RemoveDevice(p: string)
      modifies this`devices
      ensures devices == WithoutPeerId(old(devices), p)
    {
      devices := WithoutPeerId(devices, p);
    }

    method Announce()
      modifies this`sent
      ensures State() == Announced(old(State()))
    {
      if socket == Some(Discovery.Open) && localDevice.Some? && Truthy(localDevice.value.peerId) {
        sent := sent + [localDevice.value];
      }
    }

    method Connect()
      modifies this
      ensures State() == Step(old(State()), Event.Connect)
    {
      socket := Some(Discovery.Connecting);
      connects := connects + 1;
    }

    method OnOpen()
      modifies this
      ensures State() == Step(old(State()), Opened)
    {
      if socket.Some? {
        socket := Some(Discovery.Open);
      }
      isConnected := true;
      if localDevice.Some? && Truthy(localDevice.value.peerId) {
        Announce();
      }
    }

    method OnMessage(m: Discovery.ServerMsg)
      modifies this
      ensures State() == Step(old(State()), Received(m))
    {
      match m {
        case PeerJoinedMsg(info) =>
          if info.Some? && (localDevice.None? || info.value.id != localDevice.value.id) {
            AddDevice(info.value);
          }
        case PeerLeftMsg(p) =>
          if Truthy(p) {
            RemoveDevice(p.value);
          }
        case InitMsg(_) =>
        case OtherMsg =>
        case Unparseable =>
      }
    }

    method OnError()
      modifies this
      ensures State() == Step(old(State()), Errored)
    {
      isConnected := false;
    }

    method OnClose()
      modifies this
      ensures State() == Step(old(State()), SocketClosed)
    {
      if socket.Some? {
        socket := Some(Discovery.Closed);
      }
      isConnected := false;
      timers := timers + 1;
    }

    method FireReconnectTimer()
      requires timers > 0
      modifies this
      ensures State() == Step(old(State()), TimerFired)
    {
      timers := timers - 1;
      if !isConnected {
        Connect();
      }
    }

    method SetLocalPeerId(p: string)
      modifies this
      ensures State() == Step(old(State()), Event.SetLocalPeerId(p))
    {
      if localDevice.Some? {
        localDevice := Some(localDevice.value.(peerId := Some(p)));
        if socket == Some(Discovery.Open) {
          Announce();
        }
      }
    }

    method Disconnect()
      modifies this
      ensures State() == Step(old(State()), Event.Disconnect)
    {
      if socket.Some? {
        socket := None;
      }
      isConnected := false;
    }

    method InitDevice(generated: string, name: string, platform: string, now: int)
      modifies this
      ensures State() == Step(old(State()), Event.InitDevice(generated, name, platform, now))
    {
      localDevice := Some(Device(generated, name, platform, None, now, None));
      storedId := Some(generated);
    }
  }
}
