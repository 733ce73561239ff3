/** What the signalling relay exchanges with its clients, and the insertion-ordered maps
    it keeps, shared by both versions of the relay.

    The relay's maps are JavaScript `Map`s: they iterate in insertion order, `set` on a
    present key replaces the value where it stands, and `delete` removes the entry. They
    are modelled as sequences of entries whose keys are distinct. */
module Signalling {
  import opened Types

  /** The three WebRTC negotiation messages the relay forwards unchanged. */
  datatype Kind = Offer | Answer | IceCandidate

  /** A message from a client, as parsed. `body` stands for the whole parsed message, which
      the relay re-serialises without looking inside; `Other` is a message type the relay
      has no case for, and `Unparseable` a text that is not JSON. */
  datatype Inbound =
    | Announce(deviceInfo: Option<Device>)
    | Signal(signal: string, targetPeer: Option<string>)
    | Forward(kind: Kind, body: string)
    | Other
    | Unparseable

  /** A message to a client. `wsId` is present when the relay replays a stored
      registration, which carries the announcing connection's id. */
  datatype Outbound =
    | Init(peerId: string)
    | PeerJoined(device: Device, wsId: Option<string>)
    | SignalFrom(signal: string, fromPeer: string)
    | PeerLeft(peerId: string)
    | Relayed(kind: Kind, body: string)

  /** One observable effect of a handler: a frame sent to one connection, a frame
      published on a topic by a connection (recorded as is, not fanned out), or a
      subscription. */
  datatype Delivery =
    | Send(to: string, frame: Outbound)
    | Publish(from: string, topic: string, frame: Outbound)
    | Subscribe(conn: string, topic: string)

  const TOPIC: string := "discovery"

  /** An announced device, stored under `key`, with the connection that announced it. */
  datatype Entry = Entry(key: string, device: Device, wsId: string)

  predicate DistinctKeys(es: seq<Entry>)
  {
    forall i, j :: 0 <= i < j < |es| ==> es[i].key != es[j].key
  }

  /** Position of the entry with key `k` (`Map.has` / `Map.get`). */
  function IndexOfKey(es: seq<Entry>, k: string): (r: Option<nat>)
    ensures r.Some? ==> r.value < |es| && es[r.value].key == k
    ensures r.Some? ==> forall j :: 0 <= j < r.value ==> es[j].key != k
    ensures r.None? <==> forall j :: 0 <= j < |es| ==> es[j].key != k
  {
    if es == [] then None
    else if es[0].key == k then Some(0)
    else match IndexOfKey(es[1..], k)
      case None => None
      case Some(i) => Some(i + 1)
  }

  /** `Map.set(k, v)`: replace in place when the key is present, else append. */
  function MapSet(es: seq<Entry>, e: Entry): seq<Entry>
  {
    match IndexOfKey(es, e.key)
    case Some(i) => es[i := e]
    case None => es + [e]
  }

  /** `Map.delete(k)`. */
  function MapDelete(es: seq<Entry>, k: string): seq<Entry>
  {
    if es == [] then []
    else (if es[0].key == k then [] else [es[0]]) + MapDelete(es[1..], k)
  }

  /** Setting a key stores the entry under it, keeps keys distinct, leaves every other key
      where and as it was, and grows the map only for a new key. */
  lemma MapSetEffect(es: seq<Entry>, e: Entry)
    requires DistinctKeys(es)
    ensures var r := MapSet(es, e);
      && DistinctKeys(r)
      && IndexOfKey(r, e.key).Some? && r[IndexOfKey(r, e.key).value] == e
      && (|r| == if IndexOfKey(es, e.key).Some? then |es| else |es| + 1)
      && forall j :: 0 <= j < |es| && es[j].key != e.key ==> r[j] == es[j]
  {
    var r := MapSet(es, e);
    match IndexOfKey(es, e.key)
    case Some(i) =>
      assert r == es[i := e];
      forall a, b | 0 <= a < b < |r| ensures r[a].key != r[b].key {
        if a != i && b != i {
          assert r[a] == es[a] && r[b] == es[b];
        } else if a == i {
          assert r[b] == es[b];
        } else {
          assert r[a] == es[a];
        }
      }
      assert forall j :: 0 <= j < i ==> r[j].key != e.key;
      assert r[i] == e;
    case None =>
      assert r == es + [e];
      assert forall j :: 0 <= j < |es| ==> r[j].key != e.key;
      assert r[|es|] == e;
  }

  /** Deleting a key removes exactly the entries with that key, keeping the others. */
  lemma {:induction false} MapDeleteMembers(es: seq<Entry>, k: string)
    ensures forall e :: e in MapDelete(es, k) <==> e in es && e.key != k
  {
    if es != [] {
      MapDeleteMembers(es[1..], k);
      assert es == [es[0]] + es[1..];
    }
  }

  /** With distinct keys, deleting the key at position `i` is removing that position. */
  lemma {:induction false} MapDeleteAt(es: seq<Entry>, i: nat)
    requires DistinctKeys(es) && i < |es|
    ensures MapDelete(es, es[i].key) == es[..i] + es[i + 1..]
  {
    if i == 0 {
      MapDeleteAbsent(es[1..], es[0].key);
      assert es[1..] == es[..0] + es[1..];
    } else {
      MapDeleteAt(es[1..], i - 1);
      assert es[1..][..i - 1] + es[1..][i..] == es[1..i] + es[i + 1..];
      assert es[..i] == [es[0]] + es[1..i];
    }
  }

  lemma {:induction false} MapDeleteAbsent(es: seq<Entry>, k: string)
    requires forall j :: 0 <= j < |es| ==> es[j].key != k
    ensures MapDelete(es, k) == es
  {
    if es != [] {
      MapDeleteAbsent(es[1..], k);
      assert es == [es[0]] + es[1..];
    }
  }

  /** Removing a position keeps the keys distinct. */
  lemma RemoveKeepsDistinct(es: seq<Entry>, i: nat)
    requires DistinctKeys(es) && i < |es|
    ensures DistinctKeys(es[..i] + es[i + 1..])
  {
    var r := es[..i] + es[i + 1..];
    forall a, b | 0 <= a < b < |r| ensures r[a].key != r[b].key {
      var a' := if a < i then a else a + 1;
      var b' := if b < i then b else b + 1;
      assert r[a] == es[a'] && r[b] == es[b'];
    }
  }

  /** Position of the first entry announced by connection `ws`. */
  function FirstWithWsId(es: seq<Entry>, ws: string): (r: Option<nat>)
    ensures r.Some? ==> r.value < |es| && es[r.value].wsId == ws
    ensures r.Some? ==> forall j :: 0 <= j < r.value ==> es[j].wsId != ws
    ensures r.None? <==> forall j :: 0 <= j < |es| ==> es[j].wsId != ws
  {
    if es == [] then None
    else if es[0].wsId == ws then Some(0)
    else match FirstWithWsId(es[1..], ws)
      case None => None
      case Some(i) => Some(i + 1)
  }

  /** The scan in `close`: walk the entries in order and stop at the first announced by
      the closing connection. */
  method FindByWsId(es: seq<Entry>, ws: string) returns (r: Option<nat>)
    ensures r == FirstWithWsId(es, ws)
  {
    r := None;
    var i := 0;
    while i < |es|
      invariant 0 <= i <= |es|
      invariant forall j :: 0 <= j < i ==> es[j].wsId != ws
    {
      if es[i].wsId == ws {
        r := Some(i);
        break;
      }
      i := i + 1;
    }
    FirstWithWsIdUnique(es, ws, r);
  }

  /** The first match is determined by the two facts the scan establishes. */
  lemma FirstWithWsIdUnique(es: seq<Entry>, ws: string, r: Option<nat>)
    requires r.Some? ==> r.value < |es| && es[r.value].wsId == ws
    requires forall j :: 0 <= j < (if r.Some? then r.value else |es|) ==> es[j].wsId != ws
    ensures r == FirstWithWsId(es, ws)
  {
    var f := FirstWithWsId(es, ws);
    if r.Some? && f.Some? {
      assert !(f.value < r.value);
      assert !(r.value < f.value);
    }
  }

  /** `connectedPeers.set(id, peer)`: connection ids are unique, so a present one stays. */
  function ConnAdd(cs: seq<string>, c: string): (r: seq<string>)
    ensures c in r && forall x :: x in cs ==> x in r
  {
    if c in cs then cs else cs + [c]
  }

  /** `connectedPeers.delete(id)`. */
  function ConnDelete(cs: seq<string>, c: string): (r: seq<string>)
    ensures forall x :: x in r <==> x in cs && x != c
  {
    if cs == [] then []
    else
      var rest := ConnDelete(cs[1..], c);
      assert forall x :: x in cs <==> x == cs[0] || x in cs[1..] by {
        assert cs == [cs[0]] + cs[1..];
      }
      (if cs[0] == c then [] else [cs[0]]) + rest
  }

  predicate Distinct(cs: seq<string>)
  {
    forall i, j :: 0 <= i < j < |cs| ==> cs[i] != cs[j]
  }

  lemma ConnAddKeepsDistinct(cs: seq<string>, c: string)
    requires Distinct(cs)
    ensures Distinct(ConnAdd(cs, c))
  {
    if c !in cs {
      var r := cs + [c];
      forall i, j | 0 <= i < j < |r| ensures r[i] != r[j] {
        if j == |cs| {
          assert r[i] == cs[i];
        }
      }
    }
  }

  lemma {:induction false} ConnDeleteKeepsDistinct(cs: seq<string>, c: string)
    requires Distinct(cs)
    ensures Distinct(ConnDelete(cs, c))
  {
    if cs != [] {
      ConnDeleteKeepsDistinct(cs[1..], c);
      var rest := ConnDelete(cs[1..], c);
      if cs[0] != c {
        var r := [cs[0]] + rest;
        assert cs[0] !in cs[1..];
        forall i, j | 0 <= i < j < |r| ensures r[i] != r[j] {
          if i == 0 {
            assert r[j] in rest;
          } else {
            assert r[i] == rest[i - 1] && r[j] == rest[j - 1];
          }
        }
      }
    }
  }

  /** The manual broadcast loop: one `Send` per connection in order, skipping `except`,
      with a connection in `failing` throwing inside the loop's `try` and so receiving
      nothing while the loop goes on. */
  function Broadcast(cs: seq<string>, failing: set<string>, except: Option<string>, f: Outbound): seq<Delivery>
  {
    if cs == [] then []
    else
      var c := cs[|cs| - 1];
      Broadcast(cs[..|cs| - 1], failing, except, f)
      + (if Some(c) == except || c in failing then [] else [Send(c, f)])
  }

  /** A broadcast reaches exactly the connected peers other than `except` whose send does
      not throw, with the one frame, and nothing else. */
  lemma {:induction false} BroadcastMembers(cs: seq<string>, failing: set<string>, except: Option<string>, f: Outbound)
    ensures forall d :: d in Broadcast(cs, failing, except, f) <==>
      d.Send? && d.frame == f && d.to in cs && Some(d.to) != except && d.to !in failing
  {
    if cs != [] {
      var init := cs[..|cs| - 1];
      BroadcastMembers(init, failing, except, f);
      assert cs == init + [cs[|cs| - 1]];
      assert forall x :: x in cs <==> x in init || x == cs[|cs| - 1];
    }
  }

  /** A broadcast is at most one frame per connection. */
  lemma {:induction false} BroadcastLength(cs: seq<string>, failing: set<string>, except: Option<string>, f: Outbound)
    ensures |Broadcast(cs, failing, except, f)| <= |cs|
  {
    if cs != [] {
      BroadcastLength(cs[..|cs| - 1], failing, except, f);
    }
  }

  /** The manual broadcast loop over the connected peers. */
  method BroadcastLoop(cs: seq<string>, failing: set<string>, except: Option<string>, f: Outbound)
    returns (out: seq<Delivery>)
    ensures out == Broadcast(cs, failing, except, f)
  {
    out := [];
    var i := 0;
    while i < |cs|
      invariant 0 <= i <= |cs|
      invariant out == Broadcast(cs[..i], failing, except, f)
    {
      var c := cs[i];
      assert cs[..i + 1][..i] == cs[..i];
      if Some(c) != except && c !in failing {
        out := out + [Send(c, f)];
      }
      i := i + 1;
    }
    assert cs[..|cs|] == cs;
  }

  /** The `peer-joined` frames `open` sends a new connection, one per stored entry in
      insertion order, each carrying the stored record with its `wsId`. */
  function Replay(to: string, es: seq<Entry>): (r: seq<Delivery>)
    ensures |r| == |es|
  {
    if es == [] then []
    else Replay(to, es[..|es| - 1]) + [Send(to, PeerJoined(es[|es| - 1].device, Some(es[|es| - 1].wsId)))]
  }

  lemma {:induction false} ReplayAt(to: string, es: seq<Entry>, i: nat)
    requires i < |es|
    ensures Replay(to, es)[i] == Send(to, PeerJoined(es[i].device, Some(es[i].wsId)))
    decreases |es|
  {
    if i < |es| - 1 {
      ReplayAt(to, es[..|es| - 1], i);
    }
  }

  method ReplayLoop(to: string, es: seq<Entry>) returns (out: seq<Delivery>)
    ensures out == Replay(to, es)
  {
    out := [];
    var i := 0;
    while i < |es|
      invariant 0 <= i <= |es|
      invariant out == Replay(to, es[..i])
    {
      assert es[..i + 1][..i] == es[..i];
      out := out + [Send(to, PeerJoined(es[i].device, Some(es[i].wsId)))];
      i := i + 1;
    }
    assert es[..|es|] == es;
  }
}
