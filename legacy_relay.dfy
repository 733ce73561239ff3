/** The older signalling relay: one map of announced devices keyed by the announcing
    connection's id, no table of connections, and delivery through the `discovery` topic.
    Its `signal` case returns the frame to the sender instead of routing it. */
module LegacyRelay {
  import opened Types
  import opened Signalling
  import Relay

  datatype LegacyState = LegacyState(announced: seq<Entry>, log: seq<Delivery>)

  function AfterOpen(s: LegacyState, c: string, failing: set<string>): LegacyState
  {
    s.(log := s.log + [Subscribe(c, TOPIC)]
              + (if c in failing then [] else [Send(c, Init(c))] + Replay(c, s.announced)))
  }

  /** `message`. The announcer is sent `peer-joined` directly before it is published; when
      that send throws, the publish is skipped. */
  function AfterMessage(s: LegacyState, c: string, m: Inbound, failing: set<string>): LegacyState
  {
    match m
    case Announce(info) =>
      if info.None? then s
      else
        var d := info.value;
        var joined := PeerJoined(d, None);
        s.(announced := MapSet(s.announced, Entry(c, d, c)),
           log := s.log + (if c in failing then [] else [Send(c, joined), Publish(c, TOPIC, joined)]))
    case Signal(sig, target) =>
      if !Truthy(target) || c in failing then s
      else s.(log := s.log + [Send(c, SignalFrom(sig, c))])
    case Forward(k, body) =>
      s.(log := s.log + [Publish(c, TOPIC, Relayed(k, body))])
    case Other => s
    case Unparseable => s
  }

  /** `close`: delete the connection's registration and publish `peer-left` when it had a
      PeerJS id. */
  function AfterClose(s: LegacyState, c: string): LegacyState
  {
    var es := MapDelete(s.announced, c);
    match IndexOfKey(s.announced, c)
    case None => s.(announced := es)
    case Some(i) =>
      var p := s.announced[i].device.peerId;
      if Truthy(p) then s.(announced := es, log := s.log + [Publish(c, TOPIC, PeerLeft(p.value))])
      else s.(announced := es)
  }

  /** A connection holds at most one registration: announcing again from the same
      connection overwrites it in place, under the connection id, whatever the device's
      PeerJS id. */
  lemma AnnounceKeyedByConnection(s: LegacyState, c: string, d: Device, failing: set<string>)
    requires DistinctKeys(s.announced)
    ensures var t := AfterMessage(s, c, Announce(Some(d)), failing);
      && DistinctKeys(t.announced)
      && IndexOfKey(t.announced, c).Some?
      && t.announced[IndexOfKey(t.announced, c).value] == Entry(c, d, c)
      && (|t.announced| == if IndexOfKey(s.announced, c).Some? then |s.announced| else |s.announced| + 1)
      && (forall j :: 0 <= j < |s.announced| && s.announced[j].key != c ==> t.announced[j] == s.announced[j])
  {
    MapSetEffect(s.announced, Entry(c, d, c));
  }

  /** The announcer gets its own `peer-joined` directly, and the same frame is published on
      the topic; nobody else is sent anything directly. */
  lemma AnnounceSendsToAnnouncer(s: LegacyState, c: string, d: Device, failing: set<string>)
    requires c !in failing
    ensures AfterMessage(s, c, Announce(Some(d)), failing).log ==
      s.log + [Send(c, PeerJoined(d, None)), Publish(c, TOPIC, PeerJoined(d, None))]
  {
  }

  /** Whatever the target, a signal goes back to its own sender, naming the sender. */
  lemma SignalEchoesToSender(s: LegacyState, c: string, sig: string, target: string, failing: set<string>)
    requires target != "" && c !in failing
    ensures var t := AfterMessage(s, c, Signal(sig, Some(target)), failing);
      && t.announced == s.announced
      && t.log == s.log + [Send(c, SignalFrom(sig, c))]
  {
  }

  /** The echo in concrete terms: with B registered and connected, A's signal for B reaches
      A and not B in the older relay, and reaches B in the newer one. */
  lemma SignalEchoExample(sig: string)
    ensures var dB := Device("dB", "B", "Linux", None, 1, Some("peer-b"));
      var legacy := LegacyState([Entry("ws-b", dB, "ws-b")], []);
      var current := Relay.RelayState([Entry("peer-b", dB, "ws-b")], ["ws-a", "ws-b"], []);
      && AfterMessage(legacy, "ws-a", Signal(sig, Some("peer-b")), {}).log == [Send("ws-a", SignalFrom(sig, "ws-a"))]
      && Relay.AfterMessage(current, "ws-a", Signal(sig, Some("peer-b")), {}).log == [Send("ws-b", SignalFrom(sig, "ws-a"))]
  {
    var dB := Device("dB", "B", "Linux", None, 1, Some("peer-b"));
    var current := Relay.RelayState([Entry("peer-b", dB, "ws-b")], ["ws-a", "ws-b"], []);
    assert IndexOfKey(current.announced, "peer-b") == Some(0);
    assert "ws-b" in current.connected by {
      assert current.connected[1] == "ws-b";
    }
  }

  /** `offer`, `answer` and `ice-candidate` are only published; nothing is sent directly. */
  lemma ForwardOnlyPublishes(s: LegacyState, c: string, k: Kind, body: string, failing: set<string>)
    ensures AfterMessage(s, c, Forward(k, body), failing) ==
      s.(log := s.log + [Publish(c, TOPIC, Relayed(k, body))])
  {
  }

  /** Messages the relay cannot use change nothing. */
  lemma IgnoredMessages(s: LegacyState, c: string, sig: string, failing: set<string>)
    ensures AfterMessage(s, c, Announce(None), failing) == s
    ensures AfterMessage(s, c, Other, failing) == s
    ensures AfterMessage(s, c, Unparseable, failing) == s
    ensures AfterMessage(s, c, Signal(sig, None), failing) == s
  {
  }

  /** `close` removes the connection's registration and nothing else, and publishes
      `peer-left` exactly when that registration had a PeerJS id. */
  lemma CloseEffect(s: LegacyState, c: string)
    requires DistinctKeys(s.announced)
    ensures var t := AfterClose(s, c);
      && IndexOfKey(t.announced, c).None?
      && (forall e :: e in t.announced <==> e in s.announced && e.key != c)
      && (IndexOfKey(s.announced, c).None? ==> t == s)
      && (IndexOfKey(s.announced, c).Some? ==>
            var p := s.announced[IndexOfKey(s.announced, c).value].device.peerId;
            t.log == s.log + (if Truthy(p) then [Publish(c, TOPIC, PeerLeft(p.value))] else []))
  {
    MapDeleteMembers(s.announced, c);
    if IndexOfKey(s.announced, c).None? {
      MapDeleteAbsent(s.announced, c);
    }
  }

  class LegacyRelay {
    var announced: seq<Entry>
    var log: seq<Delivery>

    function State(): LegacyState
      reads this
    {
      LegacyState(announced, log)
    }

    constructor ()
      ensures State() == LegacyState([], [])
    {
      announced, log := [], [];
    }

    method Open(c: string, failing: set<string>)
      modifies this
      ensures State() == AfterOpen(old(State()), c, failing)
    {
      log := log + [Subscribe(c, TOPIC)];
      if c in failing {
        assert log == old(log) + [Subscribe(c, TOPIC)] + [];
        return;
      }
      var replay := ReplayLoop(c, announced);
      log := log + ([Send(c, Init(c))] + replay);
    }

    method Message(c: string, m: Inbound, failing: set<string>)
      modifies this
      ensures State() == AfterMessage(old(State()), c, m, failing)
    {
      match m {
        case Announce(info) =>
          if info.None? {
            return;
          }
          var d := info.value;
          var e := Entry(c, d, c);
          var existing := IndexOfKey(announced, c);
          if existing.Some? {
            announced := announced[existing.value := e];
          } else {
            announced := announced + [e];
          }
          if c !in failing {
            var joined := PeerJoined(d, None);
            log := log + [Send(c, joined), Publish(c, TOPIC, joined)];
          }
        case Signal(sig, target) =>
          if Truthy(target) && c !in failing {
            log := log + [Send(c, SignalFrom(sig, c))];
          }
        case Forward(k, body) =>
          log := log + [Publish(c, TOPIC, Relayed(k, body))];
        case Other =>
        case Unparseable =>
      }
    }

    method Close(c: string)
      modifies this
      ensures State() == AfterClose(old(State()), c)
    {
      var found := IndexOfKey(announced, c);
      var p: Option<string> := if found.Some? then announced[found.value].device.peerId else None;
      announced := MapDelete(announced, c);
      if Truthy(p) {
        log := log + [Publish(c, TOPIC, PeerLeft(p.value))];
      }
    }
  }
}
