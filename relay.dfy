/** The signalling relay: a WebSocket handler that keeps the announced devices, keyed by
    their PeerJS id, and the open connections, and routes announcements, signals and
    WebRTC negotiation messages between connections.

    `RelayState` is one snapshot of the two maps and of everything sent so far; the
    functions `AfterOpen`, `AfterMessage` and `AfterClose` specify the three handlers, and
    the class `Relay` performs them in place. A send that throws is modelled by the set
    `failing` of connections whose `send` throws. */
module Relay {
  import opened Types
  import opened Signalling

  datatype RelayState = RelayState(announced: seq<Entry>, connected: seq<string>, log: seq<Delivery>)

  /** Both maps have distinct keys. */
  predicate Valid(s: RelayState)
  {
    DistinctKeys(s.announced) && Distinct(s.connected)
  }

  /** `open`: register the connection, subscribe it, send it `init` and then every stored
      registration. A connection whose `send` throws gets nothing more. */
  function AfterOpen(s: RelayState, c: string, failing: set<string>): RelayState
  {
    s.(connected := ConnAdd(s.connected, c),
       log := s.log + [Subscribe(c, TOPIC)]
              + (if c in failing then [] else [Send(c, Init(c))] + Replay(c, s.announced)))
  }

  /** The key an announcement is stored under: its PeerJS id, or the connection id when the
      PeerJS id is absent or empty. */
  function AnnounceKey(d: Device, c: string): (k: string)
    ensures k == c || Some(k) == d.peerId
  {
    if Truthy(d.peerId) then d.peerId.value else c
  }

  /** Where a `signal` for `target` from `c` goes: the connection that announced `target`
      when it is still connected, otherwise back to `c`. */
  function SignalRecipient(s: RelayState, c: string, target: string): string
  {
    match IndexOfKey(s.announced, target)
    case Some(i) =>
      if s.announced[i].wsId != "" && s.announced[i].wsId in s.connected then s.announced[i].wsId else c
    case None => c
  }

  /** `message`. An announcement without `deviceInfo` throws before any change, and the
      handler's `catch` swallows it; so do unparseable texts. */
  function AfterMessage(s: RelayState, c: string, m: Inbound, failing: set<string>): RelayState
  {
    match m
    case Announce(info) =>
      if info.None? then s
      else
        var d := info.value;
        s.(announced := MapSet(s.announced, Entry(AnnounceKey(d, c), d, c)),
           log := s.log + Broadcast(s.connected, failing, None, PeerJoined(d, None))
                  + [Publish(c, TOPIC, PeerJoined(d, None))])
    case Signal(sig, target) =>
      if !Truthy(target) then s
      else
        var to := SignalRecipient(s, c, target.value);
        if to in failing then s else s.(log := s.log + [Send(to, SignalFrom(sig, c))])
    case Forward(k, body) =>
      s.(log := s.log + Broadcast(s.connected, failing, Some(c), Relayed(k, body))
                + [Publish(c, TOPIC, Relayed(k, body))])
    case Other => s
    case Unparseable => s
  }

  /** `close`: drop the connection, drop the first registration it announced, and tell the
      remaining connections when that registration had a PeerJS id. */
  function AfterClose(s: RelayState, c: string, failing: set<string>): RelayState
  {
    var cs := ConnDelete(s.connected, c);
    match FirstWithWsId(s.announced, c)
    case None => s.(connected := cs)
    case Some(i) =>
      var e := s.announced[i];
      var es := MapDelete(s.announced, e.key);
      if !Truthy(e.device.peerId) then s.(connected := cs, announced := es)
      else
        var left := PeerLeft(e.device.peerId.value);
        s.(connected := cs, announced := es,
           log := s.log + Broadcast(cs, failing, None, left) + [Publish(c, TOPIC, left)])
  }

  // ---------------------------------------------------------------------------------------
  // Properties of the handlers
  // ---------------------------------------------------------------------------------------

  /** Every handler keeps both maps' keys distinct. */
  lemma HandlersKeepValid(s: RelayState, c: string, m: Inbound, failing: set<string>)
    requires Valid(s)
    ensures Valid(AfterOpen(s, c, failing))
    ensures Valid(AfterMessage(s, c, m, failing))
    ensures Valid(AfterClose(s, c, failing))
  {
    ConnAddKeepsDistinct(s.connected, c);
    ConnDeleteKeepsDistinct(s.connected, c);
    if m.Announce? && m.deviceInfo.Some? {
      MapSetEffect(s.announced, Entry(AnnounceKey(m.deviceInfo.value, c), m.deviceInfo.value, c));
    }
    match FirstWithWsId(s.announced, c) {
      case None =>
      case Some(i) =>
        MapDeleteAt(s.announced, i);
        RemoveKeepsDistinct(s.announced, i);
    }
  }

  /** `open` sends `init` carrying the connection's own id first, then exactly one
      `peer-joined` per stored registration, in order and with its `wsId`; it registers the
      connection and leaves the registrations alone. */
  lemma OpenEffect(s: RelayState, c: string, failing: set<string>)
    requires c !in failing
    ensures var t := AfterOpen(s, c, failing);
      && c in t.connected && t.announced == s.announced
      && |t.log| == |s.log| + 2 + |s.announced|
      && t.log[..|s.log|] == s.log
      && t.log[|s.log|] == Subscribe(c, TOPIC)
      && t.log[|s.log| + 1] == Send(c, Init(c))
      && forall i :: 0 <= i < |s.announced| ==>
           t.log[|s.log| + 2 + i] == Send(c, PeerJoined(s.announced[i].device, Some(s.announced[i].wsId)))
  {
    var t := AfterOpen(s, c, failing);
    var r := Replay(c, s.announced);
    assert t.log == s.log + [Subscribe(c, TOPIC), Send(c, Init(c))] + r;
    forall i | 0 <= i < |s.announced|
      ensures t.log[|s.log| + 2 + i] == Send(c, PeerJoined(s.announced[i].device, Some(s.announced[i].wsId)))
    {
      ReplayAt(c, s.announced, i);
    }
  }

  /** An announcement is stored under its key with the announcer's connection id, every
      other registration stays where and as it was, and the map grows only for a new key. */
  lemma AnnounceStores(s: RelayState, c: string, d: Device, failing: set<string>)
    requires Valid(s)
    ensures var t := AfterMessage(s, c, Announce(Some(d)), failing);
      var k := AnnounceKey(d, c);
      && IndexOfKey(t.announced, k).Some?
      && t.announced[IndexOfKey(t.announced, k).value] == Entry(k, d, c)
      && (|t.announced| == if IndexOfKey(s.announced, k).Some? then |s.announced| else |s.announced| + 1)
      && (forall j :: 0 <= j < |s.announced| && s.announced[j].key != k ==> t.announced[j] == s.announced[j])
      && t.connected == s.connected
  {
    MapSetEffect(s.announced, Entry(AnnounceKey(d, c), d, c));
  }

  /** Announcing twice under one key leaves one registration, holding the later device. */
  lemma AnnounceTwiceOverwrites(s: RelayState, c1: string, d1: Device, c2: string, d2: Device, failing: set<string>)
    requires Valid(s) && AnnounceKey(d1, c1) == AnnounceKey(d2, c2)
    ensures var t1 := AfterMessage(s, c1, Announce(Some(d1)), failing);
      var t2 := AfterMessage(t1, c2, Announce(Some(d2)), failing);
      var k := AnnounceKey(d2, c2);
      && |t2.announced| == |t1.announced|
      && IndexOfKey(t2.announced, k).Some?
      && t2.announced[IndexOfKey(t2.announced, k).value] == Entry(k, d2, c2)
  {
    var t1 := AfterMessage(s, c1, Announce(Some(d1)), failing);
    AnnounceStores(s, c1, d1, failing);
    AnnounceStores(t1, c2, d2, failing);
  }

  /** The `peer-joined` broadcast carries the device as received (without `wsId`) to every
      connected peer whose send does not throw, the announcer included, and to no one else. */
  lemma AnnounceReachesEveryone(s: RelayState, c: string, d: Device, failing: set<string>)
    ensures var t := AfterMessage(s, c, Announce(Some(d)), failing);
      var out := t.log[|s.log|..];
      && t.log[..|s.log|] == s.log
      && (forall x :: x in s.connected && x !in failing ==> Send(x, PeerJoined(d, None)) in out)
      && (forall x, f :: Send(x, f) in out ==> x in s.connected && x !in failing && f == PeerJoined(d, None))
      && out[|out| - 1] == Publish(c, TOPIC, PeerJoined(d, None))
  {
    var b := Broadcast(s.connected, failing, None, PeerJoined(d, None));
    var t := AfterMessage(s, c, Announce(Some(d)), failing);
    assert t.log == s.log + (b + [Publish(c, TOPIC, PeerJoined(d, None))]);
    assert t.log[..|s.log|] == s.log;
    assert t.log[|s.log|..] == b + [Publish(c, TOPIC, PeerJoined(d, None))];
    BroadcastMembers(s.connected, failing, None, PeerJoined(d, None));
  }

  /** Messages the relay cannot use change nothing: an announcement without a device, a
      message type it has no case for, a text that is not JSON, a signal without target. */
  lemma IgnoredMessages(s: RelayState, c: string, sig: string, failing: set<string>)
    ensures AfterMessage(s, c, Announce(None), failing) == s
    ensures AfterMessage(s, c, Other, failing) == s
    ensures AfterMessage(s, c, Unparseable, failing) == s
    ensures AfterMessage(s, c, Signal(sig, None), failing) == s
    ensures AfterMessage(s, c, Signal(sig, Some("")), failing) == s
  {
  }

  /** A signal with a target goes to exactly one connection: the connection that
      registered the target when it is still connected, otherwise back to the sender. It
      always names the sender's connection id as `fromPeer`. */
  lemma SignalRouting(s: RelayState, c: string, sig: string, target: string, failing: set<string>)
    requires target != ""
    ensures var t := AfterMessage(s, c, Signal(sig, Some(target)), failing);
      var i := IndexOfKey(s.announced, target);
      var to := if i.Some? && s.announced[i.value].wsId != "" && s.announced[i.value].wsId in s.connected
                then s.announced[i.value].wsId else c;
      && t.announced == s.announced && t.connected == s.connected
      && t.log == s.log + (if to in failing then [] else [Send(to, SignalFrom(sig, c))])
  {
  }

  /** `offer`, `answer` and `ice-candidate` reach every other connected peer whose send does
      not throw, unchanged, and never the sender. */
  lemma ForwardExcludesSender(s: RelayState, c: string, k: Kind, body: string, failing: set<string>)
    ensures var t := AfterMessage(s, c, Forward(k, body), failing);
      var out := t.log[|s.log|..];
      && t.announced == s.announced && t.connected == s.connected
      && t.log[..|s.log|] == s.log
      && (forall x :: x in s.connected && x != c && x !in failing ==> Send(x, Relayed(k, body)) in out)
      && (forall x, f :: Send(x, f) in out ==> x in s.connected && x != c && x !in failing && f == Relayed(k, body))
  {
    var f := Relayed(k, body);
    var b := Broadcast(s.connected, failing, Some(c), f);
    var t := AfterMessage(s, c, Forward(k, body), failing);
    assert t.log == s.log + (b + [Publish(c, TOPIC, f)]);
    assert t.log[..|s.log|] == s.log;
    assert t.log[|s.log|..] == b + [Publish(c, TOPIC, f)];
    BroadcastMembers(s.connected, failing, Some(c), f);
  }

  /** `close` forgets the connection and at most one registration, the first it announced;
      `peer-left` goes to the remaining connections only when that registration had a
      PeerJS id. */
  lemma CloseEffect(s: RelayState, c: string, failing: set<string>)
    requires Valid(s)
    ensures var t := AfterClose(s, c, failing);
      && (forall x :: x in t.connected <==> x in s.connected && x != c)
      && (FirstWithWsId(s.announced, c).None? ==> t.announced == s.announced && t.log == s.log)
      && (FirstWithWsId(s.announced, c).Some? ==>
            var i := FirstWithWsId(s.announced, c).value;
            && t.announced == s.announced[..i] + s.announced[i + 1..]
            && (!Truthy(s.announced[i].device.peerId) ==> t.log == s.log))
  {
    match FirstWithWsId(s.announced, c) {
      case None =>
      case Some(i) => MapDeleteAt(s.announced, i);
    }
  }

  /** The `peer-left` notice names the PeerJS id of the registration that went, and reaches
      exactly the connections still open whose send does not throw. */
  lemma CloseNotifiesRemaining(s: RelayState, c: string, failing: set<string>, i: nat)
    requires FirstWithWsId(s.announced, c) == Some(i) && Truthy(s.announced[i].device.peerId)
    ensures var t := AfterClose(s, c, failing);
      var out := t.log[|s.log|..];
      var left := PeerLeft(s.announced[i].device.peerId.value);
      && t.log[..|s.log|] == s.log
      && (forall x :: x in s.connected && x != c && x !in failing ==> Send(x, left) in out)
      && (forall x, f :: Send(x, f) in out ==> x in s.connected && x != c && x !in failing && f == left)
  {
    var left := PeerLeft(s.announced[i].device.peerId.value);
    var cs := ConnDelete(s.connected, c);
    var b := Broadcast(cs, failing, None, left);
    var t := AfterClose(s, c, failing);
    assert t.log == s.log + (b + [Publish(c, TOPIC, left)]);
    BroadcastMembers(cs, failing, None, left);
  }

  // ---------------------------------------------------------------------------------------
  // The handler, in place
  // ---------------------------------------------------------------------------------------

  class Relay {
    var announced: seq<Entry>
    var connected: seq<string>
    var log: seq<Delivery>

    function State(): RelayState
      reads this
    {
      RelayState(announced, connected, log)
    }

    constructor ()
      ensures State() == RelayState([], [], []) && Valid(State())
    {
      announced, connected, log := [], [], [];
    }

    method Open(c: string, failing: set<string>)
      modifies this
      ensures State() == AfterOpen(old(State()), c, failing)
    {
      if c !in connected {
        connected := connected + [c];
      }
      log := log + [Subscribe(c, TOPIC)];
      if c in failing {
        assert log == old(log) + [Subscribe(c, TOPIC)] + [];
        return;
      }
      var replay := ReplayLoop(c, announced);
      log := log + ([Send(c, Init(c))] + replay);
    }

    method Message(c: string, m: Inbound, failing: set<string>)
      modifies this
      ensures State() == AfterMessage(old(State()), c, m, failing)
    {
      match m {
        case Announce(info) =>
          if info.None? {
            return;
          }
          var d := info.value;
          var e := Entry(AnnounceKey(d, c), d, c);
          var existing := IndexOfKey(announced, e.key);
          if existing.Some? {
            announced := announced[existing.value := e];
          } else {
            announced := announced + [e];
          }
          var joined := PeerJoined(d, None);
          var out := BroadcastLoop(connected, failing, None, joined);
          log := log + out + [Publish(c, TOPIC, joined)];
        case Signal(sig, target) =>
          if !Truthy(target) {
            return;
          }
          var to := c;
          var found := IndexOfKey(announced, target.value);
          if found.Some? {
            var ws := announced[found.value].wsId;
            if ws != "" && ws in connected {
              to := ws;
            }
          }
          if to !in failing {
            log := log + [Send(to, SignalFrom(sig, c))];
          }
        case Forward(k, body) =>
          var f := Relayed(k, body);
          var out := BroadcastLoop(connected, failing, Some(c), f);
          log := log + out + [Publish(c, TOPIC, f)];
        case Other =>
        case Unparseable =>
      }
    }

    method Close(c: string, failing: set<string>)
      modifies this
      ensures State() == AfterClose(old(State()), c, failing)
    {
      connected := ConnDelete(connected, c);
      var found := FindByWsId(announced, c);
      if found.None? {
        return;
      }
      var e := announced[found.value];
      announced := MapDelete(announced, e.key);
      if !Truthy(e.device.peerId) {
        return;
      }
      var left := PeerLeft(e.device.peerId.value);
      var out := BroadcastLoop(connected, failing, None, left);
      log := log + out + [Publish(c, TOPIC, left)];
    }
  }
}
