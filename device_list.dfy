/** Operations on an ordered list of devices: the upsert-by-id and the filters that the
    discovery client and the devices store both perform. */
module DeviceList {
  import opened Types

  /** Index of the first device whose id is `id` (`findIndex(d => d.id === id)`). */
  function IndexOfId(ds: seq<Device>, id: string): (r: Option<nat>)
    ensures r.Some? ==> r.value < |ds| && ds[r.value].id == id
    ensures r.Some? ==> forall j :: 0 <= j < r.value ==> ds[j].id != id
    ensures r.None? <==> forall j :: 0 <= j < |ds| ==> ds[j].id != id
  {
    if ds == [] then None
    else if ds[0].id == id then Some(0)
    else match IndexOfId(ds[1..], id)
      case None => None
      case Some(k) => Some(k + 1)
  }

  /** Replace the first entry with the same id in place, otherwise append. */
  function UpsertById(ds: seq<Device>, d: Device): seq<Device>
  {
    match IndexOfId(ds, d.id)
    case Some(i) => ds[i := d]
    case None => ds + [d]
  }

  /** No two entries share an id. */
  predicate DistinctIds(ds: seq<Device>)
  {
    forall i, j :: 0 <= i < j < |ds| ==> ds[i].id != ds[j].id
  }

  /** Number of entries whose id is `id`. */
  function CountId(ds: seq<Device>, id: string): nat
  {
    if ds == [] then 0 else (if ds[0].id == id then 1 else 0) + CountId(ds[1..], id)
  }

  /** `filter(d => d.peerId !== p)`: an entry without a peerId is always kept. */
  function WithoutPeerId(ds: seq<Device>, p: string): seq<Device>
  {
    if ds == [] then []
    else (if ds[0].peerId == Some(p) then [] else [ds[0]]) + WithoutPeerId(ds[1..], p)
  }

  /** `filter(d => d.id !== id)`. */
  function WithoutId(ds: seq<Device>, id: string): seq<Device>
  {
    if ds == [] then []
    else (if ds[0].id == id then [] else [ds[0]]) + WithoutId(ds[1..], id)
  }

  /** An upsert grows the list only for a new id; it replaces exactly the matching position
      and leaves every other position as it was. */
  lemma UpsertShape(ds: seq<Device>, d: Device)
    ensures var r := UpsertById(ds, d);
      && (IndexOfId(ds, d.id).None? ==> r == ds + [d] && |r| == |ds| + 1)
      && (IndexOfId(ds, d.id).Some? ==>
            |r| == |ds| && r[IndexOfId(ds, d.id).value] == d
            && forall j :: 0 <= j < |ds| && j != IndexOfId(ds, d.id).value ==> r[j] == ds[j])
      && d in r
  {
  }

  /** An upsert keeps ids distinct, and afterwards exactly one entry carries the id. */
  lemma UpsertKeepsDistinct(ds: seq<Device>, d: Device)
    requires DistinctIds(ds)
    ensures DistinctIds(UpsertById(ds, d))
    ensures IndexOfId(UpsertById(ds, d), d.id).Some?
    ensures UpsertById(ds, d)[IndexOfId(UpsertById(ds, d), d.id).value] == d
  {
    var r := UpsertById(ds, d);
    match IndexOfId(ds, d.id)
    case Some(i) =>
      assert r == ds[i := d];
      forall a, b | 0 <= a < b < |r| ensures r[a].id != r[b].id {
        if a != i && b != i {
          assert r[a] == ds[a] && r[b] == ds[b];
        } else if a == i {
          assert r[b] == ds[b];
          assert ds[a].id == d.id;
        } else {
          assert r[a] == ds[a];
          assert ds[b].id == d.id;
        }
      }
      assert forall j :: 0 <= j < i ==> r[j].id != d.id;
      assert r[i] == d;
    case None =>
      assert r == ds + [d];
      assert forall j :: 0 <= j < |ds| ==> r[j].id != d.id;
      assert r[|ds|] == d;
  }

  /** Announcing the same id twice leaves one entry, holding the later device. */
  lemma UpsertTwiceKeepsLatest(ds: seq<Device>, d1: Device, d2: Device)
    requires DistinctIds(ds)
    requires d1.id == d2.id
    ensures UpsertById(UpsertById(ds, d1), d2) == UpsertById(ds, d2)
    ensures CountId(UpsertById(UpsertById(ds, d1), d2), d2.id) == 1
  {
    UpsertKeepsDistinct(ds, d1);
    UpsertKeepsDistinct(ds, d2);
    var r1 := UpsertById(ds, d1);
    match IndexOfId(ds, d1.id) {
      case Some(i) =>
        assert IndexOfId(r1, d2.id) == Some(i) by {
          assert forall j :: 0 <= j < i ==> r1[j] == ds[j];
          assert r1[i] == d1;
        }
        assert r1[i := d2] == ds[i := d2];
      case None =>
        assert IndexOfId(r1, d2.id) == Some(|ds|);
        assert r1[|ds| := d2] == ds + [d2];
    }
    var r := UpsertById(ds, d2);
    assert UpsertById(r1, d2) == r;
    var k := IndexOfId(r, d2.id).value;
    assert r[k] == d2;
    DistinctCountOne(r, k);
  }

  /** In a list with distinct ids, the id at position `k` occurs exactly once. */
  lemma {:induction false} DistinctCountOne(ds: seq<Device>, k: nat)
    requires DistinctIds(ds) && k < |ds|
    ensures CountId(ds, ds[k].id) == 1
  {
    if k == 0 {
      NoIdCountZero(ds[1..], ds[0].id);
    } else {
      DistinctCountOne(ds[1..], k - 1);
    }
  }

  lemma {:induction false} NoIdCountZero(ds: seq<Device>, id: string)
    requires forall j :: 0 <= j < |ds| ==> ds[j].id != id
    ensures CountId(ds, id) == 0
  {
    if ds != [] {
      NoIdCountZero(ds[1..], id);
    }
  }

  /** Removing by peerId drops exactly the devices with that peerId: nothing with it is
      left, and every device without it is still there. */
  lemma {:induction false} WithoutPeerIdMembers(ds: seq<Device>, p: string)
    ensures forall d :: d in WithoutPeerId(ds, p) <==> d in ds && d.peerId != Some(p)
  {
    if ds != [] {
      WithoutPeerIdMembers(ds[1..], p);
      assert ds == [ds[0]] + ds[1..];
    }
  }

  /** Removing by peerId keeps ids distinct. */
  lemma {:induction false} WithoutPeerIdKeepsDistinct(ds: seq<Device>, p: string)
    requires DistinctIds(ds)
    ensures DistinctIds(WithoutPeerId(ds, p))
  {
    if ds != [] {
      var rest := WithoutPeerId(ds[1..], p);
      WithoutPeerIdKeepsDistinct(ds[1..], p);
      WithoutPeerIdMembers(ds[1..], p);
      if ds[0].peerId != Some(p) {
        var r := [ds[0]] + rest;
        forall i, j | 0 <= i < j < |r| ensures r[i].id != r[j].id {
          if i == 0 {
            assert r[j] in ds[1..];
            var k :| 0 <= k < |ds[1..]| && ds[1..][k] == r[j];
            assert ds[k + 1] == r[j];
          } else {
            assert r[i] == rest[i - 1] && r[j] == rest[j - 1];
          }
        }
      }
    }
  }

  /** Removing by peerId keeps the order of what remains: filtering a concatenation is the
      concatenation of the filtered parts. */
  lemma {:induction false} WithoutPeerIdAppend(a: seq<Device>, b: seq<Device>, p: string)
    ensures WithoutPeerId(a + b, p) == WithoutPeerId(a, p) + WithoutPeerId(b, p)
  {
    if a != [] {
      assert (a + b)[1..] == a[1..] + b;
      WithoutPeerIdAppend(a[1..], b, p);
    } else {
      assert a + b == b;
    }
  }

  /** Removing by id drops exactly the devices with that id. */
  lemma {:induction false} WithoutIdMembers(ds: seq<Device>, id: string)
    ensures forall d :: d in WithoutId(ds, id) <==> d in ds && d.id != id
  {
    if ds != [] {
      WithoutIdMembers(ds[1..], id);
      assert ds == [ds[0]] + ds[1..];
    }
  }

  /** Removing by id keeps the order of what remains. */
  lemma {:induction false} WithoutIdAppend(a: seq<Device>, b: seq<Device>, id: string)
    ensures WithoutId(a + b, id) == WithoutId(a, id) + WithoutId(b, id)
  {
    if a != [] {
      assert (a + b)[1..] == a[1..] + b;
      WithoutIdAppend(a[1..], b, id);
    } else {
      assert a + b == b;
    }
  }

  /** Filtering never lengthens the list. */
  lemma {:induction false} WithoutIdLength(ds: seq<Device>, id: string)
    ensures |WithoutId(ds, id)| <= |ds|
  {
    if ds != [] {
      WithoutIdLength(ds[1..], id);
    }
  }
}
