/** The transfers store: three lists (active, completed, failed) and the actions that move a
    transfer from the first into one of the others. The pure functions below are the
    specification of the store's actions; the class `Store` performs them in place. */
module TransfersStore {
  import opened Types

  /** The fields of a `Partial<Transfer>` update that the system ever sets. */
  datatype Patch = Patch(progress: Option<real>, status: Option<Status>)

  /** `Object.assign(transfer, updates)`: fields present in the patch overwrite. */
  function Merge(t: Transfer, p: Patch): (r: Transfer)
    ensures r.id == t.id && r.fileName == t.fileName && r.fileSize == t.fileSize
    ensures r.progress == (if p.progress.Some? then p.progress.value else t.progress)
    ensures r.status == (if p.status.Some? then p.status.value else t.status)
  {
    t.(progress := if p.progress.Some? then p.progress.value else t.progress,
       status := if p.status.Some? then p.status.value else t.status)
  }

  /** Index of the first transfer with the given id (`find` / `findIndex`). */
  function IndexOfTransfer(ts: seq<Transfer>, id: string): (r: Option<nat>)
    ensures r.Some? ==> r.value < |ts| && ts[r.value].id == id
    ensures r.Some? ==> forall j :: 0 <= j < r.value ==> ts[j].id != id
    ensures r.None? <==> forall j :: 0 <= j < |ts| ==> ts[j].id != id
  {
    if ts == [] then None
    else if ts[0].id == id then Some(0)
    else match IndexOfTransfer(ts[1..], id)
      case None => None
      case Some(k) => Some(k + 1)
  }

  /** `splice(i, 1)` without the removed element. */
  function RemoveAt(ts: seq<Transfer>, i: nat): seq<Transfer>
    requires i < |ts|
  {
    ts[..i] + ts[i + 1..]
  }

  /** `filter(t => t.id !== id)`. */
  function WithoutTransfer(ts: seq<Transfer>, id: string): seq<Transfer>
  {
    if ts == [] then []
    else (if ts[0].id == id then [] else [ts[0]]) + WithoutTransfer(ts[1..], id)
  }

  /** Sum of the progress values, as `reduce((sum, t) => sum + t.progress, 0)`. */
  function SumProgress(ts: seq<Transfer>): real
  {
    if ts == [] then 0.0 else SumProgress(ts[..|ts| - 1]) + ts[|ts| - 1].progress
  }

  /** The store's state. */
  datatype Lists = Lists(active: seq<Transfer>, completed: seq<Transfer>, failed: seq<Transfer>)
  {
    /** The `allTransfers` getter. */
    function All(): seq<Transfer>
    {
      active + completed + failed
    }

    function Size(): nat
    {
      |active| + |completed| + |failed|
    }
  }

  const Empty := Lists([], [], [])

  function AfterAdd(l: Lists, t: Transfer): Lists
  {
    l.(active := l.active + [t])
  }

  function AfterMoveToCompleted(l: Lists, id: string): Lists
  {
    match IndexOfTransfer(l.active, id)
    case None => l
    case Some(i) => Lists(RemoveAt(l.active, i), l.completed + [l.active[i]], l.failed)
  }

  function AfterMoveToFailed(l: Lists, id: string): Lists
  {
    match IndexOfTransfer(l.active, id)
    case None => l
    case Some(i) => Lists(RemoveAt(l.active, i), l.completed, l.failed + [l.active[i]])
  }

  /** `updateTransfer`: merge into the first active transfer with the id, then move it when
      the patch sets a terminal status. Completed and failed transfers are never updated. */
  function AfterUpdate(l: Lists, id: string, p: Patch): Lists
  {
    match IndexOfTransfer(l.active, id)
    case None => l
    case Some(i) =>
      var l1 := l.(active := l.active[i := Merge(l.active[i], p)]);
      if p.status == Some(Completed) then AfterMoveToCompleted(l1, id)
      else if p.status == Some(Failed) then AfterMoveToFailed(l1, id)
      else l1
  }

  function AfterRemove(l: Lists, id: string): Lists
  {
    Lists(WithoutTransfer(l.active, id), WithoutTransfer(l.completed, id), WithoutTransfer(l.failed, id))
  }

  function AfterClearCompleted(l: Lists): Lists
  {
    l.(completed := [])
  }

  /** The `totalProgress` getter: 0 with nothing active, otherwise the mean active progress. */
  function TotalProgress(l: Lists): real
  {
    if |l.active| == 0 then 0.0 else SumProgress(l.active) / (|l.active| as real)
  }

  /** An update reaches only the first active transfer with the id. When one exists, the
      merged record is left in place, or — for a terminal status — removed from the active
      list (the others keeping their order) and appended to the completed or failed list. */
  lemma UpdateEffect(l: Lists, id: string, p: Patch)
    ensures IndexOfTransfer(l.active, id).None? ==> AfterUpdate(l, id, p) == l
    ensures IndexOfTransfer(l.active, id).Some? ==>
      var i := IndexOfTransfer(l.active, id).value;
      var t := Merge(l.active[i], p);
      AfterUpdate(l, id, p) ==
        if p.status == Some(Completed) then Lists(RemoveAt(l.active, i), l.completed + [t], l.failed)
        else if p.status == Some(Failed) then Lists(RemoveAt(l.active, i), l.completed, l.failed + [t])
        else Lists(l.active[i := t], l.completed, l.failed)
  {
    match IndexOfTransfer(l.active, id) {
      case None =>
      case Some(i) =>
        var t := Merge(l.active[i], p);
        var a1 := l.active[i := t];
        assert forall j :: 0 <= j < i ==> a1[j] == l.active[j];
        assert a1[i].id == id;
        assert IndexOfTransfer(a1, id) == Some(i);
        assert RemoveAt(a1, i) == RemoveAt(l.active, i);
    }
  }

  /** Moving a transfer out of the active list loses nothing and invents nothing: the store
      holds the same transfers afterwards, and the first active one with the id is now the
      last completed (or failed) one. An unknown id changes nothing. */
  lemma MoveKeepsTransfers(l: Lists, id: string)
    ensures var c := AfterMoveToCompleted(l, id);
      var f := AfterMoveToFailed(l, id);
      && c.Size() == l.Size() && f.Size() == l.Size()
      && (forall t :: t in c.All() <==> t in l.All())
      && (forall t :: t in f.All() <==> t in l.All())
      && (IndexOfTransfer(l.active, id).None? ==> c == l && f == l)
      && (IndexOfTransfer(l.active, id).Some? ==>
            var i := IndexOfTransfer(l.active, id).value;
            && c.active == RemoveAt(l.active, i) && f.active == RemoveAt(l.active, i)
            && c.completed == l.completed + [l.active[i]] && c.failed == l.failed
            && f.failed == l.failed + [l.active[i]] && f.completed == l.completed)
  {
    match IndexOfTransfer(l.active, id) {
      case None =>
      case Some(i) =>
        var a := l.active;
        assert a == a[..i] + [a[i]] + a[i + 1..];
        var c := AfterMoveToCompleted(l, id);
        var f := AfterMoveToFailed(l, id);
        assert c.All() == a[..i] + a[i + 1..] + l.completed + [a[i]] + l.failed;
        assert f.All() == a[..i] + a[i + 1..] + l.completed + l.failed + [a[i]];
    }
  }

  /** An update never changes how many transfers the store holds. */
  lemma UpdateKeepsSize(l: Lists, id: string, p: Patch)
    ensures AfterUpdate(l, id, p).Size() == l.Size()
    ensures |AfterUpdate(l, id, p).All()| == |l.All()|
  {
    UpdateEffect(l, id, p);
  }

  /** Removal drops every transfer with the id from all three lists, and nothing else. */
  lemma {:induction false} WithoutTransferMembers(ts: seq<Transfer>, id: string)
    ensures forall t :: t in WithoutTransfer(ts, id) <==> t in ts && t.id != id
  {
    if ts != [] {
      WithoutTransferMembers(ts[1..], id);
      assert ts == [ts[0]] + ts[1..];
    }
  }

  lemma RemoveTransferMembers(l: Lists, id: string)
    ensures forall t :: t in AfterRemove(l, id).All() <==> t in l.All() && t.id != id
  {
    WithoutTransferMembers(l.active, id);
    WithoutTransferMembers(l.completed, id);
    WithoutTransferMembers(l.failed, id);
  }

  /** A transfer appended under a fresh id is found at the end of the list. */
  lemma IndexOfAppended(a: seq<Transfer>, t: Transfer)
    requires IndexOfTransfer(a, t.id).None?
    ensures IndexOfTransfer(a + [t], t.id) == Some(|a|)
  {
    assert (a + [t])[|a|].id == t.id;
    assert forall j :: 0 <= j < |a| ==> (a + [t])[j] == a[j];
  }

  /** With a fresh id, the transfer just appended is the one every later update reaches:
      a progress update rewrites it in place at the end of the active list, a terminal
      status moves it to the end of the completed or failed list. */
  lemma UpdateAppended(a: seq<Transfer>, c: seq<Transfer>, f: seq<Transfer>, t: Transfer, p: Patch)
    requires IndexOfTransfer(a, t.id).None?
    ensures AfterUpdate(Lists(a + [t], c, f), t.id, p) ==
      if p.status == Some(Completed) then Lists(a, c + [Merge(t, p)], f)
      else if p.status == Some(Failed) then Lists(a, c, f + [Merge(t, p)])
      else Lists(a + [Merge(t, p)], c, f)
  {
    var m := Merge(t, p);
    IndexOfAppended(a, t);
    assert (a + [t])[|a| := m] == a + [m];
    IndexOfAppended(a, m);
    assert RemoveAt(a + [m], |a|) == a;
  }

  /** Progress values kept in [0, 100] keep their mean in [0, 100]. */
  lemma {:induction false} SumProgressBounds(ts: seq<Transfer>)
    requires forall t :: t in ts ==> 0.0 <= t.progress <= 100.0
    ensures 0.0 <= SumProgress(ts) <= 100.0 * (|ts| as real)
  {
    if ts != [] {
      assert ts[|ts| - 1] in ts;
      SumProgressBounds(ts[..|ts| - 1]);
    }
  }

  lemma TotalProgressBounds(l: Lists)
    requires forall t :: t in l.active ==> 0.0 <= t.progress <= 100.0
    ensures 0.0 <= TotalProgress(l) <= 100.0
  {
    if |l.active| > 0 {
      SumProgressBounds(l.active);
      var n := |l.active| as real;
      var s := SumProgress(l.active);
      assert s / n <= 100.0 by {
        assert s <= 100.0 * n;
      }
    }
  }

  /** The store, updated in place. */
  class Store {
    var activeTransfers: seq<Transfer>
    var completedTransfers: seq<Transfer>
    var failedTransfers: seq<Transfer>

    function State(): Lists
      reads this
    {
      Lists(activeTransfers, completedTransfers, failedTransfers)
    }

    constructor ()
      ensures State() == Empty
    {
      activeTransfers, completedTransfers, failedTransfers := [], [], [];
    }

    /** The `allTransfers` getter. */
    function AllTransfers(): (r: seq<Transfer>)
      reads this
      ensures |r| == |activeTransfers| + |completedTransfers| + |failedTransfers|
      ensures forall t :: t in r <==> t in activeTransfers || t in completedTransfers || t in failedTransfers
      ensures r[..|activeTransfers|] == activeTransfers
    {
      activeTransfers + completedTransfers + failedTransfers
    }

    function ActiveCount(): (n: nat)
      reads this
      ensures n + CompletedCount() + |failedTransfers| == |AllTransfers()|
    {
      |activeTransfers|
    }

    function CompletedCount(): (n: nat)
      reads this
      ensures n <= |AllTransfers()|
    {
      |completedTransfers|
    }

    method AddTransfer(t: Transfer)
      modifies this
      ensures State() == AfterAdd(old(State()), t)
    {
      activeTransfers := activeTransfers + [t];
    }

    method UpdateTransfer(id: string, p: Patch)
      modifies this
      ensures State() == AfterUpdate(old(State()), id, p)
    {
      var found := IndexOfTransfer(activeTransfers, id);
      if found.Some? {
        var i := found.value;
        activeTransfers := activeTransfers[i := Merge(activeTransfers[i], p)];
        if p.status == Some(Completed) {
          MoveToCompleted(id);
        } else if p.status == Some(Failed) {
          MoveToFailed(id);
        }
      }
    }

    method MoveToCompleted(id: string)
      modifies this
      ensures State() == AfterMoveToCompleted(old(State()), id)
    {
      var found := IndexOfTransfer(activeTransfers, id);
      if found.Some? {
        var i := found.value;
        var t := activeTransfers[i];
        activeTransfers := activeTransfers[..i] + activeTransfers[i + 1..];
        completedTransfers := completedTransfers + [t];
      }
    }

    method MoveToFailed(id: string)
      modifies this
      ensures State() == AfterMoveToFailed(old(State()), id)
    {
      var found := IndexOfTransfer(activeTransfers, id);
      if found.Some? {
        var i := found.value;
        var t := activeTransfers[i];
        activeTransfers := activeTransfers[..i] + activeTransfers[i + 1..];
        failedTransfers := failedTransfers + [t];
      }
    }

    method RemoveTransfer(id: string)
      modifies this
      ensures State() == AfterRemove(old(State()), id)
    {
      activeTransfers := WithoutTransfer(activeTransfers, id);
      completedTransfers := WithoutTransfer(completedTransfers, id);
      failedTransfers := WithoutTransfer(failedTransfers, id);
    }

    method ClearCompleted()
      modifies this
      ensures State() == AfterClearCompleted(old(State()))
    {
      completedTransfers := [];
    }

    method ClearAll()
      modifies this
      ensures State() == Empty
    {
      activeTransfers, completedTransfers, failedTransfers := [], [], [];
    }
  }
}
