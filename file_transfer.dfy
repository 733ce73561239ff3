/** The file-transfer composable: the sender, which frames a file onto a peer channel and
    records its progress in the transfers store, and the per-connection receiver, which
    reassembles inbound files and hands them to the download step.

    The receiver's state is a receive map keyed by transfer id and a pending slot naming
    the transfer the next binary frame belongs to. `Step` below is the specification of one
    inbound frame; the class `Receiver` performs it in place. */
module FileTransfer {
  import opened Types
  import opened TransfersStore
  import opened PeerProtocol

  /** Everything one inbound frame can change: the receive map, the pending slot, the
      transfers store and the files handed to the download step so far. */
  datatype RxState = RxState(
    ops: map<string, ReceiveOp>,
    pending: Option<string>,
    lists: Lists,
    downloads: seq<Download>)

  /** The receiver's handling of one frame. A `file-meta` frame without metadata registers
      its receive operation and then fails on the missing name, so no transfer is added. */
  function Step(s: RxState, f: PeerFrame): RxState
  {
    match f
    case FileMeta(id, m) =>
      var ops := s.ops[id := ReceiveOp(id, [], m, 0, 0)];
      if m.None? then s.(ops := ops)
      else s.(ops := ops, lists := AfterAdd(s.lists, Transfer(id, m.value.name, m.value.size, 0.0, Receiving)))
    case FileChunk(id, _, total) =>
      if id in s.ops then s.(ops := s.ops[id := s.ops[id].(totalChunks := total)], pending := Some(id))
      else s
    case FileComplete(id) =>
      if id !in s.ops then s
      else
        var op := s.ops[id];
        var d := DownloadFile(Concat(op.chunks), SaveName(op.metadata), BlobType(op.metadata));
        s.(ops := s.ops - {id},
           lists := AfterUpdate(s.lists, id, Patch(Some(100.0), Some(Completed))),
           downloads := s.downloads + [d])
    case Binary(data) =>
      if !Truthy(s.pending) then s
      else
        var id := s.pending.value;
        if id !in s.ops then s.(pending := None)
        else
          var op := s.ops[id].(chunks := s.ops[id].chunks + [data],
                               receivedChunks := s.ops[id].receivedChunks + 1);
          var p := ReceiveProgress(op);
          s.(ops := s.ops[id := op], pending := None,
             lists := AfterUpdate(s.lists, id, Patch(Some(if p.Some? then p.value else 0.0), None)))
    case Unparseable => s
  }

  /** The receiver's state after a sequence of frames. */
  function Run(s: RxState, fs: seq<PeerFrame>): RxState
    decreases |fs|
  {
    if fs == [] then s else Run(Step(s, fs[0]), fs[1..])
  }

  lemma RunOne(s: RxState, a: PeerFrame)
    ensures Run(s, [a]) == Step(s, a)
  {
    assert [a][1..] == [];
  }

  lemma RunTwo(s: RxState, a: PeerFrame, b: PeerFrame)
    ensures Run(s, [a, b]) == Step(Step(s, a), b)
  {
    assert [a, b][1..] == [b];
    RunOne(Step(s, a), b);
  }

  lemma {:induction false} RunAppend(s: RxState, a: seq<PeerFrame>, b: seq<PeerFrame>)
    ensures Run(s, a + b) == Run(Run(s, a), b)
    decreases |a|
  {
    if a == [] {
      assert a + b == b;
    } else {
      assert (a + b)[0] == a[0];
      assert (a + b)[1..] == a[1..] + b;
      RunAppend(Step(s, a[0]), a[1..], b);
    }
  }

  /** A binary frame belongs to the transfer named by the latest descriptor: its bytes are
      appended to that transfer's chunks and to no other, and the pending slot is consumed. */
  lemma BinaryGoesToPending(s: RxState, data: seq<Byte>)
    requires Truthy(s.pending) && s.pending.value in s.ops
    ensures var id := s.pending.value;
      var t := Step(s, Binary(data));
      && t.ops.Keys == s.ops.Keys
      && t.ops[id].chunks == s.ops[id].chunks + [data]
      && t.ops[id].receivedChunks == s.ops[id].receivedChunks + 1
      && (forall other :: other in s.ops && other != id ==> t.ops[other] == s.ops[other])
      && t.pending == None
      && t.downloads == s.downloads
  {
  }

  /** A binary frame with no live descriptor before it is dropped. */
  lemma OrphanBinaryDropped(s: RxState, data: seq<Byte>)
    ensures !Truthy(s.pending) ==> Step(s, Binary(data)) == s
    ensures Truthy(s.pending) && s.pending.value !in s.ops ==>
      Step(s, Binary(data)) == s.(pending := None)
  {
  }

  /** Descriptors and completions for a transfer the receiver does not know change nothing,
      and neither does a frame it cannot parse. */
  lemma UnknownTransferIgnored(s: RxState, id: string, index: nat, total: nat)
    requires id !in s.ops
    ensures Step(s, FileChunk(id, index, total)) == s
    ensures Step(s, FileComplete(id)) == s
    ensures Step(s, Unparseable) == s
  {
  }

  /** Completion hands the concatenated chunks to the download step exactly once: the
      receive operation is forgotten, so a repeated `file-complete` does nothing. */
  lemma CompleteOnce(s: RxState, id: string)
    requires id in s.ops
    ensures var t := Step(s, FileComplete(id));
      && id !in t.ops
      && t.downloads == s.downloads + [DownloadFile(Concat(s.ops[id].chunks),
                                                    SaveName(s.ops[id].metadata),
                                                    BlobType(s.ops[id].metadata))]
      && t.pending == s.pending
      && Step(t, FileComplete(id)) == t
  {
  }

  /** A `file-meta` frame without metadata leaves a receive operation but no transfer
      record; its completion still saves a file, named `download`. */
  lemma MetaWithoutMetadata(s: RxState, id: string)
    ensures var t := Step(s, FileMeta(id, None));
      && t.lists == s.lists
      && id in t.ops && t.ops[id].chunks == []
    ensures var t := Step(Step(s, FileMeta(id, None)), FileComplete(id));
      t.downloads == s.downloads + [DownloadFile([], DEFAULT_NAME, DEFAULT_MIME_TYPE)]
  {
    var t := Step(s, FileMeta(id, None));
    assert t == s.(ops := s.ops[id := ReceiveOp(id, [], None, 0, 0)]);
    assert id in t.ops && t.ops[id] == ReceiveOp(id, [], None, 0, 0);
    var u := Step(t, FileComplete(id));
    assert u.downloads == t.downloads + [DownloadFile(Concat([]), SaveName(None), BlobType(None))];
  }

  lemma RunCons(s: RxState, f: PeerFrame, fs: seq<PeerFrame>)
    ensures Run(s, [f] + fs) == Run(Step(s, f), fs)
  {
    assert ([f] + fs)[1..] == fs;
  }

  /** Two transfers in flight on one connection: after `file-meta` for A and then for B,
      A's chunk and A's completion save A's bytes under A's name and complete A, while B
      is still waiting, untouched, in the receive map and in the active list. */
  lemma InterleavedKeptApart(a: string, b: string, ma: FileMetadata, mb: FileMetadata, x: seq<Byte>)
    requires a != b && a != ""
    ensures var s0 := RxState(map[], None, Empty, []);
      var t := Run(s0, [FileMeta(a, Some(ma)), FileMeta(b, Some(mb)), FileChunk(a, 0, 1), Binary(x), FileComplete(a)]);
      && t.downloads == [DownloadFile(x, SaveName(Some(ma)), BlobType(Some(ma)))]
      && t.ops == map[b := ReceiveOp(b, [], Some(mb), 0, 0)]
      && t.lists == Lists([Transfer(b, mb.name, mb.size, 0.0, Receiving)],
                          [Transfer(a, ma.name, ma.size, 100.0, Completed)], [])
  {
    var s0 := RxState(map[], None, Empty, []);
    var ta := Transfer(a, ma.name, ma.size, 0.0, Receiving);
    var tb := Transfer(b, mb.name, mb.size, 0.0, Receiving);
    var ta1 := Transfer(a, ma.name, ma.size, 100.0, Receiving);
    var opA := ReceiveOp(a, [], Some(ma), 0, 0);
    var opB := ReceiveOp(b, [], Some(mb), 0, 0);
    var s2 := RxState(map[a := opA, b := opB], None, Lists([ta, tb], [], []), []);
    var s3 := RxState(map[a := opA.(totalChunks := 1), b := opB], Some(a), Lists([ta, tb], [], []), []);
    var opA4 := ReceiveOp(a, [x], Some(ma), 1, 1);
    var s4 := RxState(map[a := opA4, b := opB], None, Lists([ta1, tb], [], []), []);
    var s1 := RxState(map[a := opA], None, Lists([ta], [], []), []);
    assert Step(s0, FileMeta(a, Some(ma))) == s1 by {
      assert [] + [ta] == [ta];
    }
    assert Step(s1, FileMeta(b, Some(mb))) == s2 by {
      assert [ta] + [tb] == [ta, tb];
    }
    assert Step(s2, FileChunk(a, 0, 1)) == s3 by {
      assert s2.ops[a := s2.ops[a].(totalChunks := 1)] == s3.ops;
    }
    KeptApartBinary(a, opA, opB, ta, tb, x);
    KeptApartComplete(a, opA4, opB, ta1, tb, x);
    RunCons(s0, FileMeta(a, Some(ma)), [FileMeta(b, Some(mb)), FileChunk(a, 0, 1), Binary(x), FileComplete(a)]);
    RunCons(s1, FileMeta(b, Some(mb)), [FileChunk(a, 0, 1), Binary(x), FileComplete(a)]);
    RunCons(s2, FileChunk(a, 0, 1), [Binary(x), FileComplete(a)]);
    RunTwo(s3, Binary(x), FileComplete(a));
  }

  lemma KeptApartBinary(a: string, opA: ReceiveOp, opB: ReceiveOp, ta: Transfer, tb: Transfer, x: seq<Byte>)
    requires a != opB.id && a != "" && ta.id == a && tb.id == opB.id
    requires opA == ReceiveOp(a, [], opA.metadata, 0, 0)
    ensures Step(RxState(map[a := opA.(totalChunks := 1), opB.id := opB], Some(a), Lists([ta, tb], [], []), []), Binary(x))
         == RxState(map[a := ReceiveOp(a, [x], opA.metadata, 1, 1), opB.id := opB], None,
                    Lists([ta.(progress := 100.0), tb], [], []), [])
  {
    var s3 := RxState(map[a := opA.(totalChunks := 1), opB.id := opB], Some(a), Lists([ta, tb], [], []), []);
    var op := s3.ops[a].(chunks := s3.ops[a].chunks + [x], receivedChunks := s3.ops[a].receivedChunks + 1);
    assert [] + [x] == [x];
    assert op == ReceiveOp(a, [x], opA.metadata, 1, 1);
    assert ReceiveProgress(op) == Some(100.0);
    assert IndexOfTransfer([ta, tb], a) == Some(0);
    assert [ta, tb][0 := Merge(ta, Patch(Some(100.0), None))] == [ta.(progress := 100.0), tb];
    var t := Step(s3, Binary(x));
    assert t.lists == Lists([ta.(progress := 100.0), tb], [], []);
    assert t.ops == map[a := op, opB.id := opB];
  }

  /** What a `file-complete` frame for a known transfer does, as one record update. */
  lemma CompleteStep(s: RxState, id: string)
    requires id in s.ops
    ensures Step(s, FileComplete(id)).ops == s.ops - {id}
    ensures Step(s, FileComplete(id)).lists == AfterUpdate(s.lists, id, Patch(Some(100.0), Some(Completed)))
    ensures Step(s, FileComplete(id)).downloads ==
      s.downloads + [DownloadFile(Concat(s.ops[id].chunks), SaveName(s.ops[id].metadata), BlobType(s.ops[id].metadata))]
    ensures Step(s, FileComplete(id)).pending == s.pending
  {
  }

  lemma KeptApartComplete(a: string, opA: ReceiveOp, opB: ReceiveOp, ta: Transfer, tb: Transfer, x: seq<Byte>)
    requires a != opB.id && ta.id == a && tb.id == opB.id
    requires opA == ReceiveOp(a, [x], opA.metadata, 1, 1)
    ensures var t := Step(RxState(map[a := opA, opB.id := opB], None, Lists([ta, tb], [], []), []), FileComplete(a));
      && t.ops == map[opB.id := opB]
      && t.lists == Lists([tb], [ta.(progress := 100.0, status := Completed)], [])
      && t.downloads == [DownloadFile(x, SaveName(opA.metadata), BlobType(opA.metadata))]
  {
    var s4 := RxState(map[a := opA, opB.id := opB], None, Lists([ta, tb], [], []), []);
    CompleteStep(s4, a);
    assert Concat(opA.chunks) == x by {
      assert opA.chunks == [x];
      assert Concat([x]) == Concat([]) + x;
    }
    assert s4.ops - {a} == map[opB.id := opB];
    CompleteFirstOfTwo(ta, tb);
  }

  lemma CompleteFirstOfTwo(ta: Transfer, tb: Transfer)
    requires ta.id != tb.id
    ensures AfterUpdate(Lists([ta, tb], [], []), ta.id, Patch(Some(100.0), Some(Completed)))
         == Lists([tb], [ta.(progress := 100.0, status := Completed)], [])
  {
    var tc := ta.(progress := 100.0, status := Completed);
    assert IndexOfTransfer([ta, tb], ta.id) == Some(0);
    assert [ta, tb][0 := Merge(ta, Patch(Some(100.0), Some(Completed)))] == [tc, tb];
    assert IndexOfTransfer([tc, tb], ta.id) == Some(0);
    assert RemoveAt([tc, tb], 0) == [tb];
    assert AfterMoveToCompleted(Lists([tc, tb], [], []), ta.id) == Lists([tb], [tc], []);
  }

  // ---------------------------------------------------------------------------------------
  // The round trip
  // ---------------------------------------------------------------------------------------

  /** The slices the sender has produced for the first `k` chunks. */
  function ChunksUpTo(bytes: seq<Byte>, k: nat): seq<seq<Byte>>
    requires k <= TotalChunks(|bytes|)
  {
    if k == 0 then [] else ChunksUpTo(bytes, k - 1) + [Slice(bytes, k - 1)]
  }

  lemma {:induction false} ChunksUpToConcat(bytes: seq<Byte>, k: nat)
    requires k <= TotalChunks(|bytes|)
    ensures Concat(ChunksUpTo(bytes, k)) ==
      bytes[..if k * CHUNK_SIZE < |bytes| then k * CHUNK_SIZE else |bytes|]
  {
    if k > 0 {
      ChunksUpToConcat(bytes, k - 1);
      ConcatAppend(ChunksUpTo(bytes, k - 1), Slice(bytes, k - 1));
      var o := (k - 1) * CHUNK_SIZE;
      var e := if k * CHUNK_SIZE < |bytes| then k * CHUNK_SIZE else |bytes|;
      assert bytes[..e] == bytes[..o] + bytes[o..e];
    }
  }

  /** The receiver's progress after `k` of `total` chunks. */
  function ReceivedProgress(k: nat, total: nat): real
  {
    if k == 0 || total == 0 then 0.0 else (k as real / total as real) * 100.0
  }

  /** The receiver, starting from `base`, has taken the metadata and the first `k` chunks
      of transfer `id` carrying file `f`. */
  ghost predicate ReceivedUpTo(t: RxState, base: RxState, id: string, f: File, k: nat)
    requires k <= TotalChunks(f.Size())
  {
    var total := TotalChunks(f.Size());
    && t.ops == base.ops[id := ReceiveOp(id, ChunksUpTo(f.bytes, k), Some(MetadataOf(f)), k,
                                        if k == 0 then 0 else total)]
    && t.pending == (if k == 0 then base.pending else None)
    && t.lists == Lists(base.lists.active + [Transfer(id, f.name, f.Size(), ReceivedProgress(k, total), Receiving)],
                        base.lists.completed, base.lists.failed)
    && t.downloads == base.downloads
  }

  lemma ReceiveOnePair(t: RxState, base: RxState, id: string, f: File, k: nat)
    requires id != ""
    requires IndexOfTransfer(base.lists.active, id).None?
    requires k < TotalChunks(f.Size())
    requires ReceivedUpTo(t, base, id, f, k)
    ensures ReceivedUpTo(Run(t, [FileChunk(id, k, TotalChunks(f.Size())), Binary(Slice(f.bytes, k))]),
                         base, id, f, k + 1)
  {
    var total := TotalChunks(f.Size());
    var pair := [FileChunk(id, k, total), Binary(Slice(f.bytes, k))];
    var t1 := Step(t, pair[0]);
    var t2 := Step(t1, pair[1]);
    RunTwo(t, pair[0], pair[1]);
    var op := ReceiveOp(id, ChunksUpTo(f.bytes, k + 1), Some(MetadataOf(f)), k + 1, total);
    assert t2.ops == base.ops[id := op];
    assert ReceiveProgress(op) == Some(ReceivedProgress(k + 1, total));
    var rec := Transfer(id, f.name, f.Size(), ReceivedProgress(k, total), Receiving);
    UpdateAppended(base.lists.active, base.lists.completed, base.lists.failed, rec,
                   Patch(Some(ReceivedProgress(k + 1, total)), None));
  }

  lemma {:induction false} ReceivePairs(t: RxState, base: RxState, id: string, f: File, k: nat)
    requires id != ""
    requires IndexOfTransfer(base.lists.active, id).None?
    requires k <= TotalChunks(f.Size())
    requires ReceivedUpTo(t, base, id, f, k)
    ensures ReceivedUpTo(Run(t, ChunkPairs(id, f.bytes, k, TotalChunks(f.Size()))),
                         base, id, f, TotalChunks(f.Size()))
    decreases TotalChunks(f.Size()) - k
  {
    var total := TotalChunks(f.Size());
    if k * CHUNK_SIZE >= f.Size() {
      assert k == total;
    } else {
      var pair := [FileChunk(id, k, total), Binary(Slice(f.bytes, k))];
      RunAppend(t, pair, ChunkPairs(id, f.bytes, k + 1, total));
      ReceiveOnePair(t, base, id, f, k);
      ReceivePairs(Run(t, pair), base, id, f, k + 1);
    }
  }

  lemma ReceiveMeta(s: RxState, id: string, f: File)
    ensures ReceivedUpTo(Step(s, FileMeta(id, Some(MetadataOf(f)))), s, id, f, 0)
  {
  }

  /** Registering a fresh key and then deleting it gives back the map. */
  lemma AddThenRemove(m: map<string, ReceiveOp>, id: string, op: ReceiveOp)
    requires id !in m
    ensures m[id := op] - {id} == m
  {
  }

  /** What completion saves once every chunk is in: the file's own bytes. */
  lemma ReceiveCompleteDownload(t: RxState, s: RxState, id: string, f: File)
    requires ReceivedUpTo(t, s, id, f, TotalChunks(f.Size()))
    ensures id in t.ops
    ensures Concat(t.ops[id].chunks) == f.bytes && t.ops[id].metadata == Some(MetadataOf(f))
  {
    ChunksUpToConcat(f.bytes, TotalChunks(f.Size()));
    assert f.bytes[..f.Size()] == f.bytes;
  }

  /** What completion does to the store once every chunk is in. */
  lemma ReceiveCompleteLists(t: RxState, s: RxState, id: string, f: File)
    requires IndexOfTransfer(s.lists.active, id).None?
    requires ReceivedUpTo(t, s, id, f, TotalChunks(f.Size()))
    ensures AfterUpdate(t.lists, id, Patch(Some(100.0), Some(Completed))) ==
      Lists(s.lists.active, s.lists.completed + [Transfer(id, f.name, f.Size(), 100.0, Completed)], s.lists.failed)
  {
    var total := TotalChunks(f.Size());
    var rec := Transfer(id, f.name, f.Size(), ReceivedProgress(total, total), Receiving);
    UpdateAppended(s.lists.active, s.lists.completed, s.lists.failed, rec, Patch(Some(100.0), Some(Completed)));
  }

  lemma ReceiveComplete(t: RxState, s: RxState, id: string, f: File)
    requires id !in s.ops
    requires IndexOfTransfer(s.lists.active, id).None?
    requires ReceivedUpTo(t, s, id, f, TotalChunks(f.Size()))
    ensures var u := Step(t, FileComplete(id));
      && u.downloads == s.downloads + [DownloadFile(f.bytes, SaveName(Some(MetadataOf(f))),
                                                     BlobType(Some(MetadataOf(f))))]
      && u.lists == Lists(s.lists.active, s.lists.completed + [Transfer(id, f.name, f.Size(), 100.0, Completed)],
                          s.lists.failed)
      && u.ops == s.ops
      && u.pending == t.pending
  {
    ReceiveCompleteDownload(t, s, id, f);
    ReceiveCompleteLists(t, s, id, f);
    CompleteStep(t, id);
    AddThenRemove(s.ops, id, t.ops[id]);
  }

  /** End to end: whatever the receiver holds for other transfers, the frames the sender
      emits for a file under a fresh, non-empty id make it save exactly that file's bytes,
      under its name and type, and record the transfer as completed at 100 percent. The
      receive map ends as it began; the pending slot is consumed by the last chunk. */
  lemma SendReceiveRoundTrip(s: RxState, id: string, f: File)
    requires id != ""
    requires id !in s.ops
    requires IndexOfTransfer(s.lists.active, id).None?
    ensures var t := Run(s, SenderFrames(id, f));
      && t.downloads == s.downloads + [DownloadFile(f.bytes, SaveName(Some(MetadataOf(f))),
                                                     BlobType(Some(MetadataOf(f))))]
      && t.lists == Lists(s.lists.active, s.lists.completed + [Transfer(id, f.name, f.Size(), 100.0, Completed)],
                          s.lists.failed)
      && t.ops == s.ops
      && t.pending == (if f.Size() == 0 then s.pending else None)
  {
    var meta := FileMeta(id, Some(MetadataOf(f)));
    var total := TotalChunks(f.Size());
    var pairs := ChunkPairs(id, f.bytes, 0, total);
    RunAppend(s, [meta] + pairs, [FileComplete(id)]);
    RunAppend(s, [meta], pairs);
    RunOne(s, meta);
    var t0 := Step(s, meta);
    ReceiveMeta(s, id, f);
    ReceivePairs(t0, s, id, f, 0);
    var t1 := Run(t0, pairs);
    RunOne(t1, FileComplete(id));
    ReceiveComplete(t1, s, id, f);
  }

  // ---------------------------------------------------------------------------------------
  // The receiver, in place
  // ---------------------------------------------------------------------------------------

  /** The handler registered on one connection, with its receive map and pending slot. */
  class Receiver {
    const store: Store
    var receiveMap: map<string, ReceiveOp>
    var pendingTransferId: Option<string>
    /** The files handed to the download step, in order. */
    var downloads: seq<Download>

    function Snapshot(): RxState
      reads this, store
    {
      RxState(receiveMap, pendingTransferId, store.State(), downloads)
    }

    constructor (store: Store)
      ensures this.store == store
      ensures receiveMap == map[] && pendingTransferId == None && downloads == []
    {
      this.store := store;
      receiveMap, pendingTransferId, downloads := map[], None, [];
    }

    /** `pushChunk`: attach a binary frame to the pending transfer. */
    method PushChunk(data: seq<Byte>)
      modifies this, store
      ensures Snapshot() == Step(old(Snapshot()), Binary(data))
    {
      var id := pendingTransferId;
      if !Truthy(id) {
        return;
      }
      pendingTransferId := None;
      if id.value !in receiveMap {
        return;
      }
      var op := receiveMap[id.value];
      op := op.(chunks := op.chunks + [data], receivedChunks := op.receivedChunks + 1);
      receiveMap := receiveMap[id.value := op];
      var progress := 0.0;
      if op.totalChunks > 0 {
        progress := (op.receivedChunks as real / op.totalChunks as real) * 100.0;
      } else if op.metadata.Some? && op.metadata.value.size != 0 {
        var receivedBytes := |Concat(op.chunks)|;
        progress := (receivedBytes as real / op.metadata.value.size as real) * 100.0;
        if progress > 100.0 {
          progress := 100.0;
        }
      }
      store.UpdateTransfer(id.value, Patch(Some(progress), None));
    }

    /** A `file-meta` frame: register the receive operation, then add the transfer. */
    method OnFileMeta(id: string, m: Option<FileMetadata>)
      modifies this, store
      ensures Snapshot() == Step(old(Snapshot()), FileMeta(id, m))
    {
      receiveMap := receiveMap[id := ReceiveOp(id, [], m, 0, 0)];
      if m.Some? {
        store.AddTransfer(Transfer(id, m.value.name, m.value.size, 0.0, Receiving));
      }
    }

    /** A `file-chunk` descriptor: record the chunk total and name the pending transfer. */
    method OnFileChunk(id: string, index: nat, total: nat)
      modifies this
      ensures Snapshot() == Step(old(Snapshot()), FileChunk(id, index, total))
    {
      if id in receiveMap {
        receiveMap := receiveMap[id := receiveMap[id].(totalChunks := total)];
        pendingTransferId := Some(id);
      }
    }

    /** A `file-complete` frame: save the file, mark the transfer completed, forget it. */
    method OnFileComplete(id: string)
      modifies this, store
      ensures Snapshot() == Step(old(Snapshot()), FileComplete(id))
    {
      if id in receiveMap {
        var op := receiveMap[id];
        var saved := DownloadFile(Concat(op.chunks), SaveName(op.metadata), BlobType(op.metadata));
        store.UpdateTransfer(id, Patch(Some(100.0), Some(Completed)));
        downloads := downloads + [saved];
        receiveMap := receiveMap - {id};
      }
    }

    /** The `data` handler. */
    method OnData(frame: PeerFrame)
      modifies this, store
      ensures Snapshot() == Step(old(Snapshot()), frame)
    {
      match frame {
        case FileMeta(id, m) => OnFileMeta(id, m);
        case FileChunk(id, index, total) => OnFileChunk(id, index, total);
        case FileComplete(id) => OnFileComplete(id);
        case Binary(data) => PushChunk(data);
        case Unparseable =>
      }
    }
  }

  // ---------------------------------------------------------------------------------------
  // The sender
  // ---------------------------------------------------------------------------------------

  /** The composable: the sender and the clearing actions, over a shared store. */
  class FileTransferClient {
    const store: Store

    constructor (store: Store)
      ensures this.store == store
    {
      this.store := store;
    }

    /** A fresh receiver for a newly established connection. */
    method ReceiveFile() returns (r: Receiver)
      ensures fresh(r) && r.store == store
      ensures r.receiveMap == map[] && r.pendingTransferId == None && r.downloads == []
    {
      r := new Receiver(store);
    }

    /** `sendFile`. The channel is modelled by `failAt`: the send with that index (counting
        from 0) throws, every other send succeeds. Returns the frames that went out and
        whether the file was sent. The frames are always a prefix of `SenderFrames`; on
        success they are all of it and the transfer ends completed at 100 percent, on failure
        it ends failed with the progress of the chunks already sent. */
    method SendFile(file: File, transferId: string, failAt: Option<nat>)
      returns (sent: seq<PeerFrame>, ok: bool)
      requires IndexOfTransfer(store.activeTransfers, transferId).None?
      modifies store
      ensures var full := SenderFrames(transferId, file);
        ok <==> failAt.None? || failAt.value >= |full|
      ensures var full := SenderFrames(transferId, file);
        ok ==> sent == full
      ensures ok ==>
        store.State() == Lists(old(store.activeTransfers),
                               old(store.completedTransfers) + [Transfer(transferId, file.name, file.Size(), 100.0, Completed)],
                               old(store.failedTransfers))
      ensures var full := SenderFrames(transferId, file);
        !ok ==> sent == full[..failAt.value]
      ensures !ok ==>
        store.State() == Lists(old(store.activeTransfers), old(store.completedTransfers),
                               old(store.failedTransfers) +
                                 [Transfer(transferId, file.name, file.Size(),
                                           ProgressAfterChunks(ChunksBefore(failAt.value), file.Size()), Failed)])
    {
      ghost var a, c, fl := store.activeTransfers, store.completedTransfers, store.failedTransfers;
      var size := file.Size();
      var rec := Transfer(transferId, file.name, size, 0.0, Sending);
      store.AddTransfer(rec);
      if failAt == Some(0) {
        Abort(transferId, a, c, fl, rec);
        return [], false;
      }
      var meta := FileMeta(transferId, Some(MetadataOf(file)));
      var frames, chunksSent := SendChunks(file, transferId, failAt, a, c, fl, rec);
      ghost var pairs := ChunkPairs(transferId, file.bytes, 0, TotalChunks(size));
      ghost var full := SenderFrames(transferId, file);
      assert full == [meta] + pairs + [FileComplete(transferId)];
      sent := [meta] + frames;
      if !chunksSent {
        assert full[..failAt.value] == sent by {
          PrefixOf(sent, pairs[|frames|..] + [FileComplete(transferId)], full);
        }
        return sent, false;
      }
      ok := Complete(file, transferId, failAt, a, c, fl, rec);
      if ok {
        sent := sent + [FileComplete(transferId)];
      } else {
        PrefixOf(sent, [FileComplete(transferId)], full);
      }
    }

    /** The sending loop: every chunk's descriptor and bytes, each followed by a progress
        update. `frames` is what went out, always a prefix of the chunk frames. */
    method SendChunks(file: File, transferId: string, failAt: Option<nat>,
                      ghost a: seq<Transfer>, ghost c: seq<Transfer>, ghost fl: seq<Transfer>, ghost rec: Transfer)
      returns (frames: seq<PeerFrame>, ok: bool)
      requires failAt.None? || failAt.value >= 1
      requires rec.id == transferId && rec.progress == 0.0 && IndexOfTransfer(a, transferId).None?
      requires store.State() == Lists(a + [rec], c, fl)
      modifies store
      ensures var pairs := ChunkPairs(transferId, file.bytes, 0, TotalChunks(file.Size()));
        && |frames| <= |pairs| && frames == pairs[..|frames|]
        && (ok <==> failAt.None? || failAt.value >= 1 + |pairs|)
        && (ok ==> frames == pairs)
        && (!ok ==> failAt.value == 1 + |frames|)
      ensures ok ==>
        store.State() == Lists(a + [rec.(progress := ProgressAfterChunks(TotalChunks(file.Size()), file.Size()))], c, fl)
      ensures !ok ==>
        store.State() == Lists(a, c, fl + [rec.(progress := ProgressAfterChunks(ChunksBefore(failAt.value), file.Size()),
                                                status := Failed)])
    {
      var size := file.Size();
      var total := TotalChunks(size);
      ghost var pairs := ChunkPairs(transferId, file.bytes, 0, total);
      assert rec.(progress := ProgressAfterChunks(0, size)) == rec;
      frames := [];
      var k := 0;
      while k * CHUNK_SIZE < size
        invariant k <= total
        invariant |frames| == 2 * k && frames == pairs[..2 * k]
        invariant failAt.None? || failAt.value >= 1 + |frames|
        invariant store.State() == Lists(a + [rec.(progress := ProgressAfterChunks(k, size))], c, fl)
        decreases total - k
      {
        var more, chunkSent := SendChunk(file, transferId, failAt, k, frames, pairs, a, c, fl, rec);
        frames := frames + more;
        if !chunkSent {
          return frames, false;
        }
        k := k + 1;
      }
      assert k == total;
      assert frames == pairs;
      ok := true;
    }

    /** The `file-complete` frame and the final update to completed at 100 percent. */
    method Complete(file: File, transferId: string, failAt: Option<nat>,
                    ghost a: seq<Transfer>, ghost c: seq<Transfer>, ghost fl: seq<Transfer>, ghost rec: Transfer)
      returns (ok: bool)
      requires rec.id == transferId && rec.fileName == file.name && rec.fileSize == file.Size()
      requires IndexOfTransfer(a, transferId).None?
      requires failAt.None? || failAt.value >= 1 + 2 * TotalChunks(file.Size())
      requires store.State() == Lists(a + [rec.(progress := ProgressAfterChunks(TotalChunks(file.Size()), file.Size()))], c, fl)
      modifies store
      ensures ok <==> failAt.None? || failAt.value >= 2 + 2 * TotalChunks(file.Size())
      ensures ok ==> store.State() == Lists(a, c + [rec.(progress := 100.0, status := Completed)], fl)
      ensures !ok ==>
        store.State() == Lists(a, c, fl + [rec.(progress := ProgressAfterChunks(TotalChunks(file.Size()), file.Size()),
                                                status := Failed)])
    {
      var r := rec.(progress := ProgressAfterChunks(TotalChunks(file.Size()), file.Size()));
      if failAt == Some(1 + 2 * TotalChunks(file.Size())) {
        Abort(transferId, a, c, fl, r);
        return false;
      }
      UpdateAppended(a, c, fl, r, Patch(Some(100.0), Some(Completed)));
      store.UpdateTransfer(transferId, Patch(Some(100.0), Some(Completed)));
      ok := true;
    }

    /** One turn of the sending loop: the descriptor of chunk `k`, its bytes, and the
        progress update. `frames` went out before, `pairs` are all the chunk frames. */
    method SendChunk(file: File, transferId: string, failAt: Option<nat>, k: nat,
                     frames: seq<PeerFrame>, ghost pairs: seq<PeerFrame>,
                     ghost a: seq<Transfer>, ghost c: seq<Transfer>, ghost fl: seq<Transfer>, ghost rec: Transfer)
      returns (more: seq<PeerFrame>, ok: bool)
      requires k * CHUNK_SIZE < file.Size()
      requires pairs == ChunkPairs(transferId, file.bytes, 0, TotalChunks(file.Size()))
      requires |frames| == 2 * k && frames == pairs[..2 * k]
      requires failAt.None? || failAt.value >= 1 + |frames|
      requires rec.id == transferId && IndexOfTransfer(a, transferId).None?
      requires store.State() == Lists(a + [rec.(progress := ProgressAfterChunks(k, file.Size()))], c, fl)
      modifies store
      ensures |frames + more| <= |pairs| && frames + more == pairs[..|frames + more|]
      ensures ok <==> |more| == 2
      ensures ok <==> failAt.None? || failAt.value >= 3 + |frames|
      ensures !ok ==> failAt.value == 1 + |frames + more|
      ensures ok ==>
        store.State() == Lists(a + [rec.(progress := ProgressAfterChunks(k + 1, file.Size()))], c, fl)
      ensures !ok ==>
        store.State() == Lists(a, c, fl + [rec.(progress := ProgressAfterChunks(ChunksBefore(failAt.value), file.Size()),
                                                status := Failed)])
    {
      var size := file.Size();
      var total := TotalChunks(size);
      var descriptor := FileChunk(transferId, k, total);
      var payload := Binary(Slice(file.bytes, k));
      NextPair(transferId, file.bytes, k, total, frames, pairs);
      var r := rec.(progress := ProgressAfterChunks(k, size));
      assert ChunksBefore(1 + |frames|) == k && ChunksBefore(2 + |frames|) == k;
      if failAt == Some(1 + |frames|) {
        Abort(transferId, a, c, fl, r);
        return [], false;
      }
      if failAt == Some(2 + |frames|) {
        Abort(transferId, a, c, fl, r);
        return [descriptor], false;
      }
      var progress := SenderProgress(k * CHUNK_SIZE, size);
      UpdateAppended(a, c, fl, r, Patch(Some(progress), None));
      store.UpdateTransfer(transferId, Patch(Some(progress), None));
      more, ok := [descriptor, payload], true;
    }

    /** The `catch` branch: mark the transfer failed, which moves it to the failed list. */
    method Abort(transferId: string, ghost a: seq<Transfer>, ghost c: seq<Transfer>,
                 ghost fl: seq<Transfer>, ghost r: Transfer)
      requires r.id == transferId && IndexOfTransfer(a, transferId).None?
      requires store.State() == Lists(a + [r], c, fl)
      modifies store
      ensures store.State() == Lists(a, c, fl + [r.(status := Failed)])
    {
      UpdateAppended(a, c, fl, r, Patch(None, Some(Failed)));
      store.UpdateTransfer(transferId, Patch(None, Some(Failed)));
    }

    method ClearTransfer(transferId: string)
      modifies store
      ensures store.State() == AfterRemove(old(store.State()), transferId)
    {
      store.RemoveTransfer(transferId);
    }

    method ClearCompleted()
      modifies store
      ensures store.State() == AfterClearCompleted(old(store.State()))
    {
      store.ClearCompleted();
    }
  }
}
