/** The older channel manager: the same endpoint and `connections` table, but no per-peer
    connection state, no `shouldReconnect` flag (every `disconnected` asks the endpoint to
    reconnect), and a `destroy` that keeps the local peer id. A connection attempt's close
    and the timer touch only the attempt. */
module LegacyChannels {
  import opened Types
  import Channels

  datatype LegacyState = LegacyState(
    hasPeer: bool,
    localPeerId: string,
    reconnects: nat,
    init: Channels.Outcome,
    connections: map<string, bool>,
    attempts: seq<Channels.Attempt>,
    sent: seq<Channels.Sent>,
    closed: set<string>)

  function AfterDestroy(s: LegacyState, reportsDisconnected: bool): LegacyState
  {
    s.(closed := s.closed + s.connections.Keys,
       connections := map[],
       reconnects := if reportsDisconnected && s.hasPeer then s.reconnects + 1 else s.reconnects,
       hasPeer := false)
  }

  function Step(s: LegacyState, e: Channels.Event): LegacyState
  {
    match e
    case InitPeer(failure) =>
      if failure.Some? then s.(init := Channels.Rejected(failure.value))
      else s.(hasPeer := true, init := Channels.Unsettled)
    case PeerOpened(id) =>
      if !s.hasPeer then s else s.(localPeerId := id, init := Channels.Settle(s.init, Channels.Resolved))
    case PeerErrored(reason) =>
      if !s.hasPeer then s else s.(init := Channels.Settle(s.init, Channels.Rejected(reason)))
    case PeerDisconnected =>
      if s.hasPeer then s.(reconnects := s.reconnects + 1) else s
    case ConnectToPeer(p, failure) =>
      if !s.hasPeer then s.(attempts := s.attempts + [Channels.Attempt(p, false, Channels.Rejected(Channels.NOT_INITIALIZED))])
      else if failure.Some? then s.(attempts := s.attempts + [Channels.Attempt(p, false, Channels.Rejected(failure.value))])
      else s.(attempts := s.attempts + [Channels.Attempt(p, true, Channels.Unsettled)])
    case AttemptOpened(k) =>
      if k >= |s.attempts| then s
      else
        var a := s.attempts[k];
        s.(connections := s.connections[a.target := true], attempts := s.attempts[k := Channels.Finish(a, Channels.Resolved)])
    case AttemptErrored(k, reason) =>
      if k >= |s.attempts| then s
      else s.(attempts := s.attempts[k := Channels.Finish(s.attempts[k], Channels.Rejected(reason))])
    case AttemptClosed(k) =>
      if k >= |s.attempts| then s
      else s.(attempts := s.attempts[k := s.attempts[k].(timerArmed := false)])
    case AttemptTimedOut(k) =>
      if k >= |s.attempts| || !s.attempts[k].timerArmed then s
      else s.(attempts := s.attempts[k := Channels.Finish(s.attempts[k], Channels.Rejected(Channels.TIMEOUT))])
    case Incoming(p, open) =>
      if !s.hasPeer then s else s.(connections := s.connections[p := open])
    case ChannelOpened(p) =>
      if p in s.connections then s.(connections := s.connections[p := true]) else s
    case ChannelClosed(p) => s.(connections := s.connections - {p})
    case ChannelErrored(p) => s.(connections := s.connections - {p})
    case SendData(p, data) =>
      if p in s.connections && s.connections[p] then s.(sent := s.sent + [Channels.Sent(p, data)]) else s
    case CloseConnection(p) =>
      if p !in s.connections then s
      else s.(closed := s.closed + {p}, connections := s.connections - {p})
    case Destroy(reports) => AfterDestroy(s, reports)
  }

  /** An open attempt registers its channel as open under the target and resolves. */
  lemma AttemptOpenRegisters(s: LegacyState, k: nat)
    requires k < |s.attempts|
    ensures var t := Step(s, Channels.AttemptOpened(k)); var a := s.attempts[k];
      && a.target in t.connections && t.connections[a.target]
      && !t.attempts[k].timerArmed
      && t.attempts[k].outcome == Channels.Settle(a.outcome, Channels.Resolved)
  {
  }

  /** An attempt's error clears its timer and rejects; an armed timer rejects with the
      timeout message; a close only clears the timer. None of them touches a channel. Every
      `disconnected` asks a live endpoint to reconnect. */
  lemma AttemptEventsAndReconnect(s: LegacyState, k: nat, reason: string)
    requires k < |s.attempts|
    ensures var t := Step(s, Channels.AttemptErrored(k, reason)); var a := s.attempts[k];
      && !t.attempts[k].timerArmed && t.attempts[k].outcome == Channels.Settle(a.outcome, Channels.Rejected(reason))
      && t.connections == s.connections
    ensures var t := Step(s, Channels.AttemptTimedOut(k)); var a := s.attempts[k];
      if a.timerArmed then
        && !t.attempts[k].timerArmed
        && t.attempts[k].outcome == Channels.Settle(a.outcome, Channels.Rejected(Channels.TIMEOUT))
        && t.connections == s.connections
      else t == s
    ensures var t := Step(s, Channels.AttemptClosed(k));
      t == s.(attempts := s.attempts[k := s.attempts[k].(timerArmed := false)])
    ensures Step(s, Channels.PeerDisconnected).reconnects ==
      if s.hasPeer then s.reconnects + 1 else s.reconnects
  {
  }

  /** Without an endpoint, `connectToPeer` rejects with "Peer not initialized" and changes
      nothing else. */
  lemma ConnectWithoutPeer(s: LegacyState, p: string, failure: Option<string>)
    requires !s.hasPeer
    ensures Step(s, Channels.ConnectToPeer(p, failure)) ==
      s.(attempts := s.attempts + [Channels.Attempt(p, false, Channels.Rejected(Channels.NOT_INITIALIZED))])
  {
  }

  /** A registered channel's close or error removes it and nothing else. */
  lemma ChannelEndRemoves(s: LegacyState, p: string)
    ensures Step(s, Channels.ChannelClosed(p)) == s.(connections := s.connections - {p})
    ensures Step(s, Channels.ChannelErrored(p)) == s.(connections := s.connections - {p})
  {
  }

  /** `sendData` forwards exactly when the channel exists and is open. */
  lemma SendDataRule(s: LegacyState, p: string, data: seq<Byte>)
    ensures Step(s, Channels.SendData(p, data)).sent ==
      if p in s.connections && s.connections[p] then s.sent + [Channels.Sent(p, data)] else s.sent
  {
  }

  /** `closeConnection` closes and removes a present channel and does nothing otherwise. */
  lemma CloseConnectionRule(s: LegacyState, p: string)
    ensures p !in s.connections ==> Step(s, Channels.CloseConnection(p)) == s
    ensures p in s.connections ==>
      Step(s, Channels.CloseConnection(p)) == s.(closed := s.closed + {p}, connections := s.connections - {p})
  {
  }

  /** `destroy` closes every channel and drops the endpoint but keeps the local peer id;
      when destroying the endpoint reports `disconnected`, the handler still finds the
      endpoint set and asks it to reconnect. */
  lemma DestroyRule(s: LegacyState, reports: bool)
    ensures var t := Step(s, Channels.Destroy(reports));
      && t.closed == s.closed + s.connections.Keys
      && t.connections == map[] && !t.hasPeer
      && t.localPeerId == s.localPeerId
      && t.reconnects == if reports && s.hasPeer then s.reconnects + 1 else s.reconnects
  {
  }

  /** The two managers side by side: from the same endpoint, `destroy` asks the older one
      to reconnect and not the newer one, and only the newer one forgets the local id. */
  lemma DestroyComparedWithNewer(s: Channels.ChannelsState)
    requires s.hasPeer && s.localPeerId != ""
    ensures var legacy := LegacyState(s.hasPeer, s.localPeerId, s.reconnects, s.init, s.connections,
                                      s.attempts, s.sent, s.closed);
      var t := Step(legacy, Channels.Destroy(true));
      t.reconnects == s.reconnects + 1 && t.localPeerId == s.localPeerId
    ensures var t := Channels.Step(s, Channels.Destroy(true));
      t.reconnects == s.reconnects && t.localPeerId == ""
  {
    Channels.DestroyRule(s, true);
  }

  class LegacyChannelManager {
    var hasPeer: bool
    var localPeerId: string
    var reconnects: nat
    var init: Channels.Outcome
    var connections: map<string, bool>
    var attempts: seq<Channels.Attempt>
    var sent: seq<Channels.Sent>
    var closed: set<string>

    function State(): LegacyState
      reads this
    {
      LegacyState(hasPeer, localPeerId, reconnects, init, connections, attempts, sent, closed)
    }

    constructor ()
      ensures State() == LegacyState(false, "", 0, Channels.Unsettled, map[], [], [], {})
    {
      hasPeer, localPeerId, reconnects, init := false, "", 0, Channels.Unsettled;
      connections, attempts, sent, closed := map[], [], [], {};
    }

    method InitPeer(failure: Option<string>)
      modifies this
      ensures State() == Step(old(State()), Channels.InitPeer(failure))
    {
      if failure.Some? {
        init := Channels.Rejected(failure.value);
        return;
      }
      hasPeer := true;
      init := Channels.Unsettled;
    }

    method OnPeerOpen(id: string)
      modifies this
      ensures State() == Step(old(State()), Channels.PeerOpened(id))
    {
      if hasPeer {
        localPeerId := id;
        init := Channels.Settle(init, Channels.Resolved);
      }
    }

    method OnPeerError(reason: string)
      modifies this
      ensures State() == Step(old(State()), Channels.PeerErrored(reason))
    {
      if hasPeer {
        init := Channels.Settle(init, Channels.Rejected(reason));
      }
    }

    method OnPeerDisconnected()
      modifies this
      ensures State() == Step(old(State()), Channels.PeerDisconnected)
    {
      if hasPeer {
        reconnects := reconnects + 1;
      }
    }

    method ConnectToPeer(p: string, failure: Option<string>)
      modifies this
      ensures State() == Step(old(State()), Channels.ConnectToPeer(p, failure))
    {
      if !hasPeer {
        attempts := attempts + [Channels.Attempt(p, false, Channels.Rejected(Channels.NOT_INITIALIZED))];
      } else if failure.Some? {
        attempts := attempts + [Channels.Attempt(p, false, Channels.Rejected(failure.value))];
      } else {
        attempts := attempts + [Channels.Attempt(p, true, Channels.Unsettled)];
      }
    }

    method OnAttemptOpen(k: nat)
      modifies this
      ensures State() == Step(old(State()), Channels.AttemptOpened(k))
    {
      if k < |attempts| {
        var a := attempts[k];
        connections := connections[a.target := true];
        attempts := attempts[k := Channels.Finish(a, Channels.Resolved)];
      }
    }

    method OnAttemptError(k: nat, reason: string)
      modifies this
      ensures State() == Step(old(State()), Channels.AttemptErrored(k, reason))
    {
      if k < |attempts| {
        attempts := attempts[k := Channels.Finish(attempts[k], Channels.Rejected(reason))];
      }
    }

    method OnAttemptClose(k: nat)
      modifies this
      ensures State() == Step(old(State()), Channels.AttemptClosed(k))
    {
      if k < |attempts| {
        attempts := attempts[k := attempts[k].(timerArmed := false)];
      }
    }

    method OnAttemptTimer(k: nat)
      modifies this
      ensures State() == Step(old(State()), Channels.AttemptTimedOut(k))
    {
      if k < |attempts| && attempts[k].timerArmed {
        attempts := attempts[k := Channels.Finish(attempts[k], Channels.Rejected(Channels.TIMEOUT))];
      }
    }

    method OnIncoming(p: string, open: bool)
      modifies this
      ensures State() == Step(old(State()), Channels.Incoming(p, open))
    {
      if hasPeer {
        connections := connections[p := open];
      }
    }

    /** A registered channel's `open` flag turns true; `sendData` reads that flag. */
    method OnChannelOpen(p: string)
      modifies this
      ensures State() == Step(old(State()), Channels.ChannelOpened(p))
    {
      if p in connections {
        connections := connections[p := true];
      }
    }

    method OnChannelEnd(p: string)
      modifies this
      ensures State() == Step(old(State()), Channels.ChannelClosed(p))
      ensures State() == Step(old(State()), Channels.ChannelErrored(p))
    {
      connections := connections - {p};
    }

    method SendData(p: string, data: seq<Byte>) returns (ok: bool)
      modifies this
      ensures ok <==> p in old(connections) && old(connections)[p]
      ensures State() == Step(old(State()), Channels.SendData(p, data))
    {
      if p in connections && connections[p] {
        sent := sent + [Channels.Sent(p, data)];
        return true;
      }
      return false;
    }

    method CloseConnection(p: string)
      modifies this
      ensures State() == Step(old(State()), Channels.CloseConnection(p))
    {
      if p in connections {
        closed := closed + {p};
        connections := connections - {p};
      }
    }

    /** `connections.forEach(conn => conn.close())`. */
    method CloseAll()
      modifies this`closed
      ensures closed == old(closed) + connections.Keys
    {
      var remaining := connections.Keys;
      while remaining != {}
        invariant remaining <= connections.Keys
        invariant closed + remaining == old(closed) + connections.Keys
        decreases remaining
      {
        var p :| p in remaining;
        closed := closed + {p};
        remaining := remaining - {p};
      }
    }

    /** `destroy`; `reports` says whether destroying the endpoint reports `disconnected`. */
    method Destroy(reports: bool)
      modifies this
      ensures State() == AfterDestroy(old(State()), reports)
    {
      CloseAll();
      connections := map[];
      if reports && hasPeer {
        reconnects := reconnects + 1;
      }
      hasPeer := false;
    }
  }
}
