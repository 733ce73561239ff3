/** The channel manager: one peer-to-peer endpoint, the open data channels keyed by the
    remote peer's id, a connection state per peer, and the pending `connectToPeer` calls.

    The endpoint library is not modelled: its events (the endpoint opening, failing or
    reporting `disconnected`; a channel opening, failing or closing; an incoming channel;
    the ten-second timer of a connection attempt) are events of the model, and the calls
    into it (`reconnect`, `send`, `close`) are counted or logged. Every `connectToPeer`
    call is an `Attempt` whose promise is an `Outcome`. `Step` specifies every event and
    entry point; the class `ChannelManager` performs them in place. */
module Channels {
  import opened Types

  datatype ConnState = Connecting | Connected | Disconnected | Error

  /** A promise: not yet settled, resolved, or rejected with a message. */
  datatype Outcome = Unsettled | Resolved | Rejected(reason: string)

  /** A promise settles once: later `resolve`/`reject` calls are ignored. */
  function Settle(o: Outcome, result: Outcome): (r: Outcome)
    ensures o.Unsettled? ==> r == result
    ensures !o.Unsettled? ==> r == o
  {
    if o.Unsettled? then result else o
  }

  const NOT_INITIALIZED: string := "Peer not initialized"
  const TIMEOUT: string := "Connection timeout - peer may be offline or unreachable"

  /** One `connectToPeer(target)` call: whether its timer is still armed and how its
      promise stands. */
  datatype Attempt = Attempt(target: string, timerArmed: bool, outcome: Outcome)

  /** A call of `send` on an open channel. */
  datatype Sent = Sent(peer: string, data: seq<Byte>)

  /** `connections` maps a peer id to whether its channel is open; `closed` holds the peers
      whose channel this side has closed; `reconnects` counts `reconnect` calls on the
      endpoint. */
  datatype ChannelsState = ChannelsState(
    hasPeer: bool,
    localPeerId: string,
    shouldReconnect: bool,
    reconnects: nat,
    init: Outcome,
    connections: map<string, bool>,
    states: map<string, ConnState>,
    attempts: seq<Attempt>,
    sent: seq<Sent>,
    closed: set<string>)

  datatype Event =
    | InitPeer(failure: Option<string>)
    | PeerOpened(id: string)
    | PeerErrored(reason: string)
    | PeerDisconnected
    | ConnectToPeer(peer: string, failure: Option<string>)
    | AttemptOpened(k: nat)
    | AttemptErrored(k: nat, reason: string)
    | AttemptClosed(k: nat)
    | AttemptTimedOut(k: nat)
    | Incoming(peer: string, open: bool)
    | ChannelOpened(peer: string)
    | ChannelClosed(peer: string)
    | ChannelErrored(peer: string)
    | SendData(peer: string, data: seq<Byte>)
    | CloseConnection(peer: string)
    | Destroy(reportsDisconnected: bool)

  /** `sendData` succeeds exactly for a registered, open channel. */
  predicate CanSend(s: ChannelsState, p: string)
  {
    p in s.connections && s.connections[p]
  }

  /** An attempt's timer and promise after one of its own events. */
  function Finish(a: Attempt, result: Outcome): Attempt
  {
    a.(timerArmed := false, outcome := Settle(a.outcome, result))
  }

  /** `destroy`: reconnection off, every channel closed, both maps emptied, the endpoint
      and its id dropped. */
  function AfterDestroy(s: ChannelsState): ChannelsState
  {
    s.(shouldReconnect := false,
       closed := s.closed + s.connections.Keys,
       connections := map[], states := map[],
       hasPeer := false, localPeerId := "")
  }

  function Step(s: ChannelsState, e: Event): ChannelsState
  {
    match e
    case InitPeer(failure) =>
      if failure.Some? then s.(shouldReconnect := true, init := Rejected(failure.value))
      else s.(shouldReconnect := true, hasPeer := true, init := Unsettled)
    case PeerOpened(id) =>
      if !s.hasPeer then s else s.(localPeerId := id, init := Settle(s.init, Resolved))
    case PeerErrored(reason) =>
      if !s.hasPeer then s else s.(init := Settle(s.init, Rejected(reason)))
    case PeerDisconnected =>
      if s.hasPeer && s.shouldReconnect then s.(reconnects := s.reconnects + 1) else s
    case ConnectToPeer(p, failure) =>
      if !s.hasPeer then s.(attempts := s.attempts + [Attempt(p, false, Rejected(NOT_INITIALIZED))])
      else if failure.Some? then
        s.(states := s.states[p := Error], attempts := s.attempts + [Attempt(p, false, Rejected(failure.value))])
      else s.(states := s.states[p := Connecting], attempts := s.attempts + [Attempt(p, true, Unsettled)])
    case AttemptOpened(k) =>
      if k >= |s.attempts| then s
      else
        var a := s.attempts[k];
        s.(connections := s.connections[a.target := true],
           states := s.states[a.target := Connected],
           attempts := s.attempts[k := Finish(a, Resolved)])
    case AttemptErrored(k, reason) =>
      if k >= |s.attempts| then s
      else
        var a := s.attempts[k];
        s.(states := s.states[a.target := Error], attempts := s.attempts[k := Finish(a, Rejected(reason))])
    case AttemptClosed(k) =>
      if k >= |s.attempts| then s
      else
        var a := s.attempts[k];
        s.(states := s.states[a.target := Disconnected], attempts := s.attempts[k := a.(timerArmed := false)])
    case AttemptTimedOut(k) =>
      if k >= |s.attempts| || !s.attempts[k].timerArmed then s
      else
        var a := s.attempts[k];
        s.(states := s.states[a.target := Error], attempts := s.attempts[k := Finish(a, Rejected(TIMEOUT))])
    case Incoming(p, open) =>
      if !s.hasPeer then s
      else s.(connections := s.connections[p := open], states := s.states[p := Connected])
    case ChannelOpened(p) =>
      if p in s.connections then s.(connections := s.connections[p := true]) else s
    case ChannelClosed(p) =>
      s.(connections := s.connections - {p}, states := s.states[p := Disconnected])
    case ChannelErrored(p) =>
      s.(connections := s.connections - {p}, states := s.states[p := Error])
    case SendData(p, data) =>
      if CanSend(s, p) then s.(sent := s.sent + [Sent(p, data)]) else s
    case CloseConnection(p) =>
      if p !in s.connections then s
      else s.(closed := s.closed + {p}, connections := s.connections - {p},
              states := s.states[p := Disconnected])
    case Destroy(_) => AfterDestroy(s)
  }

  function Run(s: ChannelsState, es: seq<Event>): ChannelsState
    decreases |es|
  {
    if es == [] then s else Run(Step(s, es[0]), es[1..])
  }

  /** An armed timer belongs to an unsettled attempt. */
  predicate Valid(s: ChannelsState)
  {
    forall k :: 0 <= k < |s.attempts| && s.attempts[k].timerArmed ==> s.attempts[k].outcome.Unsettled?
  }

  // ---------------------------------------------------------------------------------------
  // Properties
  // ---------------------------------------------------------------------------------------

  /** Every event keeps `Valid`, never forgets an attempt, never retargets one, and never
      changes a settled promise. */
  lemma StepKeepsValid(s: ChannelsState, e: Event)
    requires Valid(s)
    ensures var t := Step(s, e);
      && Valid(t)
      && |s.attempts| <= |t.attempts|
      && (forall k :: 0 <= k < |s.attempts| ==> t.attempts[k].target == s.attempts[k].target)
      && (forall k :: 0 <= k < |s.attempts| && !s.attempts[k].outcome.Unsettled? ==>
            t.attempts[k].outcome == s.attempts[k].outcome)
  {
  }

  /** Without an endpoint, `connectToPeer` rejects with "Peer not initialized" and changes
      nothing else. */
  lemma ConnectWithoutPeer(s: ChannelsState, p: string, failure: Option<string>)
    requires !s.hasPeer
    ensures var t := Step(s, ConnectToPeer(p, failure));
      && t.attempts == s.attempts + [Attempt(p, false, Rejected(NOT_INITIALIZED))]
      && t == s.(attempts := t.attempts)
  {
  }

  /** With an endpoint, `connectToPeer` marks the target `connecting` before any channel
      event and arms the timer, or, when creating the channel throws, marks it `error` and
      rejects with the thrown message. */
  lemma ConnectSetsConnecting(s: ChannelsState, p: string, failure: Option<string>)
    requires s.hasPeer
    ensures var t := Step(s, ConnectToPeer(p, failure));
      && t.connections == s.connections
      && t.states == s.states[p := if failure.None? then Connecting else Error]
      && t.attempts == s.attempts + [if failure.None? then Attempt(p, true, Unsettled)
                                      else Attempt(p, false, Rejected(failure.value))]
  {
  }

  /** The channel of an attempt opens: the timer is cleared, the channel is stored under
      the target as open, the target is `connected`, and the promise resolves unless it has
      already settled. */
  lemma AttemptOpenRegisters(s: ChannelsState, k: nat)
    requires k < |s.attempts|
    ensures var t := Step(s, AttemptOpened(k)); var a := s.attempts[k];
      && CanSend(t, a.target)
      && t.states[a.target] == Connected
      && !t.attempts[k].timerArmed
      && t.attempts[k].outcome == (if a.outcome.Unsettled? then Resolved else a.outcome)
  {
  }

  /** An attempt's error clears the timer, marks the target `error` and rejects; a close
      before opening clears the timer and marks it `disconnected` without settling. */
  lemma AttemptErrorAndClose(s: ChannelsState, k: nat, reason: string)
    requires k < |s.attempts|
    ensures var t := Step(s, AttemptErrored(k, reason)); var a := s.attempts[k];
      && t.states[a.target] == Error && !t.attempts[k].timerArmed
      && t.attempts[k].outcome == Settle(a.outcome, Rejected(reason))
      && t.connections == s.connections
    ensures var t := Step(s, AttemptClosed(k)); var a := s.attempts[k];
      && t.states[a.target] == Disconnected && !t.attempts[k].timerArmed
      && t.attempts[k].outcome == a.outcome
      && t.connections == s.connections
  {
  }

  /** The timer fires only while armed; it then marks the target `error` and rejects with
      the timeout message. A cleared timer does nothing. */
  lemma TimeoutRule(s: ChannelsState, k: nat)
    requires Valid(s) && k < |s.attempts|
    ensures var t := Step(s, AttemptTimedOut(k)); var a := s.attempts[k];
      if a.timerArmed then
        t.states[a.target] == Error && t.attempts[k] == Attempt(a.target, false, Rejected(TIMEOUT))
      else t == s
  {
  }

  /** An incoming channel is stored under its peer and the peer is `connected`. */
  lemma IncomingRegisters(s: ChannelsState, p: string, open: bool)
    requires s.hasPeer
    ensures var t := Step(s, Incoming(p, open));
      p in t.connections && t.connections[p] == open && t.states[p] == Connected
  {
  }

  /** A registered channel's close removes it and marks `disconnected`; its error removes
      it and marks `error`. No other channel is touched. */
  lemma ChannelEndRemoves(s: ChannelsState, p: string)
    ensures var t := Step(s, ChannelClosed(p));
      p !in t.connections && t.states[p] == Disconnected
      && forall q :: q != p ==> (q in t.connections <==> q in s.connections)
    ensures var t := Step(s, ChannelErrored(p));
      p !in t.connections && t.states[p] == Error
      && forall q :: q != p ==> (q in t.connections <==> q in s.connections)
  {
  }

  /** `sendData` forwards exactly when the channel exists and is open, and then only to it. */
  lemma SendDataRule(s: ChannelsState, p: string, data: seq<Byte>)
    ensures var t := Step(s, SendData(p, data));
      && (CanSend(s, p) <==> p in s.connections && s.connections[p])
      && t.sent == (if CanSend(s, p) then s.sent + [Sent(p, data)] else s.sent)
      && t.connections == s.connections && t.states == s.states
  {
  }

  /** `closeConnection` on a present channel closes it, removes it and marks it
      `disconnected`; on an absent one it changes nothing. */
  lemma CloseConnectionRule(s: ChannelsState, p: string)
    ensures p !in s.connections ==> Step(s, CloseConnection(p)) == s
    ensures p in s.connections ==>
      var t := Step(s, CloseConnection(p));
      && t.closed == s.closed + {p}
      && t.connections == s.connections - {p}
      && t.states == s.states[p := Disconnected]
  {
  }

  /** `destroy` closes every channel, empties both maps, drops the endpoint and its id,
      and does not ask the endpoint to reconnect even though destroying it reports
      `disconnected`. */
  lemma DestroyRule(s: ChannelsState, reports: bool)
    ensures var t := Step(s, Destroy(reports));
      && t.closed == s.closed + s.connections.Keys
      && t.connections == map[] && t.states == map[]
      && !t.hasPeer && t.localPeerId == "" && !t.shouldReconnect
      && t.reconnects == s.reconnects
      && t.init == s.init && t.attempts == s.attempts && t.sent == s.sent
  {
  }

  /** While the endpoint exists and reconnection is wanted, `disconnected` asks it to
      reconnect; `initPeer` turns reconnection back on after `destroy`. */
  lemma ReconnectRule(s: ChannelsState)
    ensures Step(s, PeerDisconnected).reconnects ==
      if s.hasPeer && s.shouldReconnect then s.reconnects + 1 else s.reconnects
    ensures var t := Run(s, [Destroy(true), InitPeer(None), PeerDisconnected]);
      t.reconnects == s.reconnects + 1
  {
    var s1 := Step(s, Destroy(true));
    DestroyRule(s, true);
    var s2 := Step(s1, InitPeer(None));
    assert !s1.hasPeer && s1.reconnects == s.reconnects;
    assert s2.hasPeer && s2.shouldReconnect && s2.reconnects == s.reconnects;
    var s3 := Step(s2, PeerDisconnected);
    assert s3.reconnects == s.reconnects + 1;
    assert Run(s, [Destroy(true), InitPeer(None), PeerDisconnected]) == Run(s1, [InitPeer(None), PeerDisconnected]);
    assert Run(s1, [InitPeer(None), PeerDisconnected]) == Run(s2, [PeerDisconnected]);
    assert Run(s2, [PeerDisconnected]) == Run(s3, []);
  }

  /** After `destroy`, until `initPeer` is called, nothing reconnects and no channel is
      registered, except by the opening of an attempt begun before it. */
  lemma {:induction false} NothingAfterDestroy(s: ChannelsState, es: seq<Event>)
    requires !s.hasPeer
    requires forall i :: 0 <= i < |es| ==> !es[i].InitPeer? && !es[i].AttemptOpened?
    ensures Run(s, es).reconnects == s.reconnects
    ensures !Run(s, es).hasPeer
    ensures Run(s, es).connections.Keys <= s.connections.Keys
    decreases |es|
  {
    if es != [] {
      var t := Step(s, es[0]);
      assert t.reconnects == s.reconnects && !t.hasPeer && t.connections.Keys <= s.connections.Keys;
      assert forall i :: 0 <= i < |es[1..]| ==> es[1..][i] == es[i + 1];
      NothingAfterDestroy(t, es[1..]);
    }
  }

  // ---------------------------------------------------------------------------------------
  // The composable, in place
  // ---------------------------------------------------------------------------------------

  class ChannelManager {
    var hasPeer: bool
    var localPeerId: string
    var shouldReconnect: bool
    var reconnects: nat
    var init: Outcome
    var connections: map<string, bool>
    var states: map<string, ConnState>
    var attempts: seq<Attempt>
    var sent: seq<Sent>
    var closed: set<string>

    function State(): ChannelsState
      reads this
    {
      ChannelsState(hasPeer, localPeerId, shouldReconnect, reconnects, init,
                    connections, states, attempts, sent, closed)
    }

    constructor ()
      ensures State() == ChannelsState(false, "", true, 0, Unsettled, map[], map[], [], [], {})
      ensures Valid(State())
    {
      hasPeer, localPeerId, shouldReconnect, reconnects, init := false, "", true, 0, Unsettled;
      connections, states, attempts, sent, closed := map[], map[], [], [], {};
    }

    /** `getConnectionState`. */
    function GetConnectionState(p: string): (r: Option<ConnState>)
      reads this
      ensures r.Some? <==> p in states
      ensures r.Some? ==> r.value == states[p]
    {
      if p in states then Some(states[p]) else None
    }

    method InitPeer(failure: Option<string>)
      modifies this
      ensures State() == Step(old(State()), Event.InitPeer(failure))
    {
      shouldReconnect := true;
      if failure.Some? {
        init := Rejected(failure.value);
        return;
      }
      hasPeer := true;
      init := Unsettled;
    }

    method OnPeerOpen(id: string)
      modifies this
      ensures State() == Step(old(State()), PeerOpened(id))
    {
      if hasPeer {
        localPeerId := id;
        init := Settle(init, Resolved);
      }
    }

    method OnPeerError(reason: string)
      modifies this
      ensures State() == Step(old(State()), PeerErrored(reason))
    {
      if hasPeer {
        init := Settle(init, Rejected(reason));
      }
    }

    method OnPeerDisconnected()
      modifies this
      ensures State() == Step(old(State()), PeerDisconnected)
    {
      if hasPeer && shouldReconnect {
        reconnects := reconnects + 1;
      }
    }

    /** `connectToPeer`; the attempt's index is `|attempts|` before the call. */
    method ConnectToPeer(p: string, failure: Option<string>)
      modifies this
      ensures State() == Step(old(State()), Event.ConnectToPeer(p, failure))
    {
      if !hasPeer {
        attempts := attempts + [Attempt(p, false, Rejected(NOT_INITIALIZED))];
        return;
      }
      states := states[p := Connecting];
      if failure.Some? {
        states := states[p := Error];
        attempts := attempts + [Attempt(p, false, Rejected(failure.value))];
      } else {
        attempts := attempts + [Attempt(p, true, Unsettled)];
      }
    }

    method OnAttemptOpen(k: nat)
      modifies this
      ensures State() == Step(old(State()), AttemptOpened(k))
    {
      if k < |attempts| {
        var a := attempts[k];
        states := states[a.target := Connected];
        HandleConnection(a.target, true);
        attempts := attempts[k := Finish(a, Resolved)];
      }
    }

    method OnAttemptError(k: nat, reason: string)
      modifies this
      ensures State() == Step(old(State()), AttemptErrored(k, reason))
    {
      if k < |attempts| {
        var a := attempts[k];
        states := states[a.target := Error];
        attempts := attempts[k := Finish(a, Rejected(reason))];
      }
    }

    method OnAttemptClose(k: nat)
      modifies this
      ensures State() == Step(old(State()), AttemptClosed(k))
    {
      if k < |attempts| {
        var a := attempts[k];
        states := states[a.target := Disconnected];
        attempts := attempts[k := a.(timerArmed := false)];
      }
    }

    method OnAttemptTimer(k: nat)
      modifies this
      ensures State() == Step(old(State()), AttemptTimedOut(k))
    {
      if k < |attempts| && attempts[k].timerArmed {
        var a := attempts[k];
        states := states[a.target := Error];
        attempts := attempts[k := Finish(a, Rejected(TIMEOUT))];
      }
    }

    /** `handleConnection`: store the channel and mark its peer `connected`. */
    method HandleConnection(p: string, open: bool)
      modifies this`connections, this`states
      ensures connections == old(connections)[p := open]
      ensures states == old(states)[p := Connected]
    {
      connections := connections[p := open];
      states := states[p := Connected];
    }

    method OnIncoming(p: string, open: bool)
      modifies this
      ensures State() == Step(old(State()), Incoming(p, open))
    {
      if hasPeer {
        states := states[p := Connecting];
        HandleConnection(p, open);
      }
    }

    /** A registered channel's `open` flag turns true; `sendData` reads that flag. */
    method OnChannelOpen(p: string)
      modifies this
      ensures State() == Step(old(State()), ChannelOpened(p))
    {
      if p in connections {
        connections := connections[p := true];
      }
    }

    method OnChannelClose(p: string)
      modifies this
      ensures State() == Step(old(State()), ChannelClosed(p))
    {
      connections := connections - {p};
      states := states[p := Disconnected];
    }

    method OnChannelError(p: string)
      modifies this
      ensures State() == Step(old(State()), ChannelErrored(p))
    {
      connections := connections - {p};
      states := states[p := Error];
    }

    method SendData(p: string, data: seq<Byte>) returns (ok: bool)
      modifies this
      ensures ok <==> CanSend(old(State()), p)
      ensures State() == Step(old(State()), Event.SendData(p, data))
    {
      if p in connections && connections[p] {
        sent := sent + [Sent(p, data)];
        return true;
      }
      return false;
    }

    method CloseConnection(p: string)
      modifies this
      ensures State() == Step(old(State()), Event.CloseConnection(p))
    {
      if p in connections {
        closed := closed + {p};
        connections := connections - {p};
        states := states[p := Disconnected];
      }
    }

    /** `connections.forEach(conn => conn.close())`. */
    method CloseAll()
      modifies this`closed
      ensures closed == old(closed) + connections.Keys
    {
      var remaining := connections.Keys;
      while remaining != {}
        invariant remaining <= connections.Keys
        invariant closed + remaining == old(closed) + connections.Keys
        decreases remaining
      {
        var p :| p in remaining;
        closed := closed + {p};
        remaining := remaining - {p};
      }
    }

    /** `destroy`. Should destroying the endpoint report `disconnected` while the endpoint
        is still set, reconnection is already off, so nothing reconnects. */
    method Destroy()
      modifies this
      ensures State() == AfterDestroy(old(State()))
    {
      shouldReconnect := false;
      CloseAll();
      connections := map[];
      states := map[];
      hasPeer := false;
      localPeerId := "";
    }
  }
}
