/** The older file-transfer composable. It keeps its own list of transfers, updated in
    place, and a receiver with a single current-transfer slot: every binary frame goes to
    the transfer most recently announced by `file-meta`, whatever the descriptors say. */
module LegacyFileTransfer {
  import opened Types
  import opened TransfersStore
  import opened PeerProtocol
  import FileTransfer

  /** A file handed to the download step (this version performs no extension check). */
  datatype Saved = Saved(name: string, mimeType: string, bytes: seq<Byte>)

  /** `transfers.value.find(t => t.id === id)` followed by field assignments. */
  function Patched(ts: seq<Transfer>, id: string, p: Patch): (r: seq<Transfer>)
    ensures |r| == |ts|
    ensures IndexOfTransfer(ts, id).None? ==> r == ts
    ensures IndexOfTransfer(ts, id).Some? ==>
      var i := IndexOfTransfer(ts, id).value;
      r[i] == Merge(ts[i], p) && forall j :: 0 <= j < |ts| && j != i ==> r[j] == ts[j]
  {
    match IndexOfTransfer(ts, id)
    case None => ts
    case Some(i) => ts[i := Merge(ts[i], p)]
  }

  /** With a fresh id, the transfer just pushed is the one every later lookup finds. */
  lemma PatchedAppended(ts: seq<Transfer>, t: Transfer, p: Patch)
    requires IndexOfTransfer(ts, t.id).None?
    ensures Patched(ts + [t], t.id, p) == ts + [Merge(t, p)]
  {
    IndexOfAppended(ts, t);
    assert (ts + [t])[|ts| := Merge(t, p)] == ts + [Merge(t, p)];
  }

  /** `filter(t => t.status !== 'completed')`. */
  function WithoutCompleted(ts: seq<Transfer>): seq<Transfer>
  {
    if ts == [] then []
    else (if ts[0].status == Completed then [] else [ts[0]]) + WithoutCompleted(ts[1..])
  }

  /** Clearing completed transfers drops exactly those, keeping the rest. */
  lemma {:induction false} WithoutCompletedMembers(ts: seq<Transfer>)
    ensures forall t :: t in WithoutCompleted(ts) <==> t in ts && t.status != Completed
  {
    if ts != [] {
      WithoutCompletedMembers(ts[1..]);
      assert ts == [ts[0]] + ts[1..];
    }
  }

  /** Everything one inbound frame can change. */
  datatype LegacyRx = LegacyRx(current: Option<ReceiveOp>, transfers: seq<Transfer>, saved: seq<Saved>)

  /** The older receiver's handling of one frame. */
  function Step(s: LegacyRx, f: PeerFrame): LegacyRx
  {
    match f
    case FileMeta(id, m) =>
      var s1 := s.(current := Some(ReceiveOp(id, [], m, 0, 0)));
      if m.None? then s1
      else s1.(transfers := s.transfers + [Transfer(id, m.value.name, m.value.size, 0.0, Receiving)])
    case FileChunk(_, _, total) =>
      if s.current.None? then s else s.(current := Some(s.current.value.(totalChunks := total)))
    case FileComplete(id) =>
      if s.current.None? then s
      else
        var op := s.current.value;
        s.(saved := s.saved + [Saved(SaveName(op.metadata), BlobType(op.metadata), Concat(op.chunks))],
           transfers := Patched(s.transfers, id, Patch(Some(100.0), Some(Completed))),
           current := None)
    case Binary(data) =>
      if s.current.None? then s
      else
        var op := s.current.value.(chunks := s.current.value.chunks + [data],
                                   receivedChunks := s.current.value.receivedChunks + 1);
        var p := ReceiveProgress(op);
        s.(current := Some(op),
           transfers := if p.Some? then Patched(s.transfers, op.id, Patch(p, None)) else s.transfers)
    case Unparseable => s
  }

  function Run(s: LegacyRx, fs: seq<PeerFrame>): LegacyRx
    decreases |fs|
  {
    if fs == [] then s else Run(Step(s, fs[0]), fs[1..])
  }

  lemma RunOne(s: LegacyRx, a: PeerFrame)
    ensures Run(s, [a]) == Step(s, a)
  {
    assert [a][1..] == [];
  }

  lemma RunTwo(s: LegacyRx, a: PeerFrame, b: PeerFrame)
    ensures Run(s, [a, b]) == Step(Step(s, a), b)
  {
    assert [a, b][1..] == [b];
    RunOne(Step(s, a), b);
  }

  lemma {:induction false} RunAppend(s: LegacyRx, a: seq<PeerFrame>, b: seq<PeerFrame>)
    ensures Run(s, a + b) == Run(Run(s, a), b)
    decreases |a|
  {
    if a == [] {
      assert a + b == b;
    } else {
      assert (a + b)[0] == a[0];
      assert (a + b)[1..] == a[1..] + b;
      RunAppend(Step(s, a[0]), a[1..], b);
    }
  }

  /** Every binary frame is appended to the current transfer, whichever transfer the
      descriptor before it named; with no current transfer it is dropped. */
  lemma BinaryGoesToCurrent(s: LegacyRx, data: seq<Byte>)
    ensures s.current.None? ==> Step(s, Binary(data)) == s
    ensures s.current.Some? ==>
      var t := Step(s, Binary(data));
      && t.current.Some? && t.current.value.id == s.current.value.id
      && t.current.value.chunks == s.current.value.chunks + [data]
      && t.current.value.receivedChunks == s.current.value.receivedChunks + 1
      && t.saved == s.saved
  {
  }

  /** A descriptor only sets the current transfer's chunk total; its transfer id is not
      looked at. */
  lemma DescriptorIgnoresId(s: LegacyRx, id1: string, id2: string, index: nat, total: nat)
    ensures Step(s, FileChunk(id1, index, total)) == Step(s, FileChunk(id2, 0, total))
    ensures s.current.Some? ==> Step(s, FileChunk(id1, index, total)).current.value.totalChunks == total
  {
  }

  /** A `file-meta` frame discards whatever partial transfer was current and appends a new
      transfer, receiving at 0 percent. */
  lemma MetaReplacesCurrent(s: LegacyRx, id: string, m: FileMetadata)
    ensures var t := Step(s, FileMeta(id, Some(m)));
      && t.current == Some(ReceiveOp(id, [], Some(m), 0, 0))
      && t.transfers == s.transfers + [Transfer(id, m.name, m.size, 0.0, Receiving)]
      && t.saved == s.saved
  {
  }

  /** Completion saves the current transfer's bytes, marks the transfer named in the frame
      (not necessarily the current one) completed at 100, and clears the slot; with no
      current transfer it does nothing. */
  lemma CompleteEffect(s: LegacyRx, id: string)
    ensures s.current.None? ==> Step(s, FileComplete(id)) == s
    ensures s.current.Some? ==>
      var t := Step(s, FileComplete(id));
      && t.current.None?
      && t.saved == s.saved + [Saved(SaveName(s.current.value.metadata), BlobType(s.current.value.metadata),
                                     Concat(s.current.value.chunks))]
      && t.transfers == Patched(s.transfers, id, Patch(Some(100.0), Some(Completed)))
  {
  }

  // ---------------------------------------------------------------------------------------
  // The round trip, one transfer at a time
  // ---------------------------------------------------------------------------------------

  ghost predicate ReceivedUpTo(t: LegacyRx, base: LegacyRx, id: string, f: File, k: nat)
    requires k <= TotalChunks(f.Size())
  {
    var total := TotalChunks(f.Size());
    && t.current == Some(ReceiveOp(id, FileTransfer.ChunksUpTo(f.bytes, k), Some(MetadataOf(f)), k,
                                   if k == 0 then 0 else total))
    && t.transfers == base.transfers + [Transfer(id, f.name, f.Size(), FileTransfer.ReceivedProgress(k, total), Receiving)]
    && t.saved == base.saved
  }

  lemma ReceiveOnePair(t: LegacyRx, base: LegacyRx, id: string, f: File, k: nat)
    requires IndexOfTransfer(base.transfers, id).None?
    requires k < TotalChunks(f.Size())
    requires ReceivedUpTo(t, base, id, f, k)
    ensures ReceivedUpTo(Run(t, [FileChunk(id, k, TotalChunks(f.Size())), Binary(Slice(f.bytes, k))]),
                         base, id, f, k + 1)
  {
    var total := TotalChunks(f.Size());
    RunTwo(t, FileChunk(id, k, total), Binary(Slice(f.bytes, k)));
    var op := ReceiveOp(id, FileTransfer.ChunksUpTo(f.bytes, k + 1), Some(MetadataOf(f)), k + 1, total);
    assert ReceiveProgress(op) == Some(FileTransfer.ReceivedProgress(k + 1, total));
    var rec := Transfer(id, f.name, f.Size(), FileTransfer.ReceivedProgress(k, total), Receiving);
    PatchedAppended(base.transfers, rec, Patch(Some(FileTransfer.ReceivedProgress(k + 1, total)), None));
  }

  lemma {:induction false} ReceivePairs(t: LegacyRx, base: LegacyRx, id: string, f: File, k: nat)
    requires IndexOfTransfer(base.transfers, id).None?
    requires k <= TotalChunks(f.Size())
    requires ReceivedUpTo(t, base, id, f, k)
    ensures ReceivedUpTo(Run(t, ChunkPairs(id, f.bytes, k, TotalChunks(f.Size()))),
                         base, id, f, TotalChunks(f.Size()))
    decreases TotalChunks(f.Size()) - k
  {
    var total := TotalChunks(f.Size());
    if k * CHUNK_SIZE >= f.Size() {
      assert k == total;
    } else {
      var pair := [FileChunk(id, k, total), Binary(Slice(f.bytes, k))];
      RunAppend(t, pair, ChunkPairs(id, f.bytes, k + 1, total));
      ReceiveOnePair(t, base, id, f, k);
      ReceivePairs(Run(t, pair), base, id, f, k + 1);
    }
  }

  lemma ReceiveComplete(t: LegacyRx, s: LegacyRx, id: string, f: File)
    requires IndexOfTransfer(s.transfers, id).None?
    requires ReceivedUpTo(t, s, id, f, TotalChunks(f.Size()))
    ensures var u := Step(t, FileComplete(id));
      && u.saved == s.saved + [Saved(SaveName(Some(MetadataOf(f))), BlobType(Some(MetadataOf(f))), f.bytes)]
      && u.transfers == s.transfers + [Transfer(id, f.name, f.Size(), 100.0, Completed)]
      && u.current.None?
  {
    var total := TotalChunks(f.Size());
    FileTransfer.ChunksUpToConcat(f.bytes, total);
    assert f.bytes[..f.Size()] == f.bytes;
    var rec := Transfer(id, f.name, f.Size(), FileTransfer.ReceivedProgress(total, total), Receiving);
    PatchedAppended(s.transfers, rec, Patch(Some(100.0), Some(Completed)));
  }

  /** One transfer at a time, the older receiver also saves exactly the bytes sent, and
      records the transfer completed at 100 percent. */
  lemma SendReceiveRoundTrip(s: LegacyRx, id: string, f: File)
    requires IndexOfTransfer(s.transfers, id).None?
    ensures var t := Run(s, SenderFrames(id, f));
      && t.saved == s.saved + [Saved(SaveName(Some(MetadataOf(f))), BlobType(Some(MetadataOf(f))), f.bytes)]
      && t.transfers == s.transfers + [Transfer(id, f.name, f.Size(), 100.0, Completed)]
      && t.current.None?
  {
    var meta := FileMeta(id, Some(MetadataOf(f)));
    var total := TotalChunks(f.Size());
    var pairs := ChunkPairs(id, f.bytes, 0, total);
    RunAppend(s, [meta] + pairs, [FileComplete(id)]);
    RunAppend(s, [meta], pairs);
    RunOne(s, meta);
    var t0 := Step(s, meta);
    assert ReceivedUpTo(t0, s, id, f, 0);
    ReceivePairs(t0, s, id, f, 0);
    var t1 := Run(t0, pairs);
    RunOne(t1, FileComplete(id));
    ReceiveComplete(t1, s, id, f);
  }

  lemma RunCons(s: LegacyRx, f: PeerFrame, fs: seq<PeerFrame>)
    ensures Run(s, [f] + fs) == Run(Step(s, f), fs)
  {
    assert ([f] + fs)[1..] == fs;
  }

  /** Two transfers in flight on one connection: after `file-meta` for A and then for B,
      A's chunk and A's completion save A's bytes under B's name, mark A completed, and
      leave B receiving for ever. */
  lemma InterleavedMixUp(a: string, b: string, ma: FileMetadata, mb: FileMetadata, x: seq<Byte>)
    requires a != b
    ensures var s0 := LegacyRx(None, [], []);
      var t := Run(s0, [FileMeta(a, Some(ma)), FileMeta(b, Some(mb)), FileChunk(a, 0, 1), Binary(x), FileComplete(a)]);
      && t.saved == [Saved(SaveName(Some(mb)), BlobType(Some(mb)), x)]
      && t.transfers == [Transfer(a, ma.name, ma.size, 100.0, Completed),
                         Transfer(b, mb.name, mb.size, 100.0, Receiving)]
  {
    var s0 := LegacyRx(None, [], []);
    var ta := Transfer(a, ma.name, ma.size, 0.0, Receiving);
    var tb := Transfer(b, mb.name, mb.size, 0.0, Receiving);
    var tb1 := Transfer(b, mb.name, mb.size, 100.0, Receiving);
    var s2 := LegacyRx(Some(ReceiveOp(b, [], Some(mb), 0, 0)), [ta, tb], []);
    var s3 := LegacyRx(Some(ReceiveOp(b, [], Some(mb), 0, 1)), [ta, tb], []);
    var s4 := LegacyRx(Some(ReceiveOp(b, [x], Some(mb), 1, 1)), [ta, tb1], []);
    var s5 := LegacyRx(None, [ta.(progress := 100.0, status := Completed), tb1],
                       [Saved(SaveName(Some(mb)), BlobType(Some(mb)), x)]);
    assert Step(Step(s0, FileMeta(a, Some(ma))), FileMeta(b, Some(mb))) == s2;
    assert Step(s2, FileChunk(a, 0, 1)) == s3;
    assert Step(s3, Binary(x)) == s4 by {
      var op := s3.current.value.(chunks := s3.current.value.chunks + [x],
                                  receivedChunks := s3.current.value.receivedChunks + 1);
      assert [] + [x] == [x];
      assert op == ReceiveOp(b, [x], Some(mb), 1, 1);
      assert ReceiveProgress(op) == Some(100.0);
      assert IndexOfTransfer([ta, tb], b) == Some(1);
      assert Patched([ta, tb], b, Patch(Some(100.0), None)) == [ta, tb][1 := tb1];
      assert [ta, tb][1 := tb1] == [ta, tb1];
    }
    assert Step(s4, FileComplete(a)) == s5 by {
      assert Concat([x]) == x by {
        assert Concat([x]) == Concat([]) + x;
      }
      assert IndexOfTransfer([ta, tb1], a) == Some(0);
    }
    RunCons(s0, FileMeta(a, Some(ma)), [FileMeta(b, Some(mb)), FileChunk(a, 0, 1), Binary(x), FileComplete(a)]);
    RunCons(Step(s0, FileMeta(a, Some(ma))), FileMeta(b, Some(mb)), [FileChunk(a, 0, 1), Binary(x), FileComplete(a)]);
    RunCons(s2, FileChunk(a, 0, 1), [Binary(x), FileComplete(a)]);
    RunTwo(s3, Binary(x), FileComplete(a));
  }

  // ---------------------------------------------------------------------------------------
  // The composable, in place
  // ---------------------------------------------------------------------------------------

  /** Uncapped sender progress after `k` chunks (0 before the first). */
  function UncappedAfterChunks(k: nat, size: nat): real
  {
    if k == 0 || size == 0 then 0.0 else UncappedSenderProgress((k - 1) * CHUNK_SIZE, size)
  }

  class LegacyFileTransferClient {
    var transfers: seq<Transfer>
    var saved: seq<Saved>

    constructor ()
      ensures transfers == [] && saved == []
    {
      transfers, saved := [], [];
    }

    /** `sendFile`, with the channel modelled by `failAt` as in the newer composable. The
        frames are the same; progress is not capped, and the transfer is updated in place
        in this composable's own list. */
    method SendFile(file: File, transferId: string, failAt: Option<nat>)
      returns (sent: seq<PeerFrame>, ok: bool)
      requires IndexOfTransfer(transfers, transferId).None?
      modifies this
      ensures saved == old(saved)
      ensures var full := SenderFrames(transferId, file);
        ok <==> failAt.None? || failAt.value >= |full|
      ensures var full := SenderFrames(transferId, file);
        ok ==> sent == full
      ensures ok ==> transfers == old(transfers) + [Transfer(transferId, file.name, file.Size(), 100.0, Completed)]
      ensures var full := SenderFrames(transferId, file);
        !ok ==> sent == full[..failAt.value]
      ensures !ok ==>
        transfers == old(transfers) +
          [Transfer(transferId, file.name, file.Size(), UncappedAfterChunks(ChunksBefore(failAt.value), file.Size()), Failed)]
    {
      ghost var before := transfers;
      var rec := Transfer(transferId, file.name, file.Size(), 0.0, Sending);
      transfers := transfers + [rec];
      if failAt == Some(0) {
        PatchedAppended(before, rec, Patch(None, Some(Failed)));
        transfers := Patched(transfers, transferId, Patch(None, Some(Failed)));
        return [], false;
      }
      var meta := FileMeta(transferId, Some(MetadataOf(file)));
      var frames, chunksSent := SendChunks(file, transferId, failAt, before, rec);
      ghost var pairs := ChunkPairs(transferId, file.bytes, 0, TotalChunks(file.Size()));
      ghost var full := SenderFrames(transferId, file);
      assert full == [meta] + pairs + [FileComplete(transferId)];
      sent := [meta] + frames;
      if !chunksSent {
        assert full[..failAt.value] == sent by {
          PrefixOf(sent, pairs[|frames|..] + [FileComplete(transferId)], full);
        }
        return sent, false;
      }
      var r := rec.(progress := UncappedAfterChunks(TotalChunks(file.Size()), file.Size()));
      if failAt == Some(1 + |frames|) {
        PrefixOf(sent, [FileComplete(transferId)], full);
        PatchedAppended(before, r, Patch(None, Some(Failed)));
        transfers := Patched(transfers, transferId, Patch(None, Some(Failed)));
        return sent, false;
      }
      sent := sent + [FileComplete(transferId)];
      PatchedAppended(before, r, Patch(Some(100.0), Some(Completed)));
      transfers := Patched(transfers, transferId, Patch(Some(100.0), Some(Completed)));
      ok := true;
    }

    /** The sending loop of the older composable. */
    method SendChunks(file: File, transferId: string, failAt: Option<nat>, ghost before: seq<Transfer>, ghost rec: Transfer)
      returns (frames: seq<PeerFrame>, ok: bool)
      requires failAt.None? || failAt.value >= 1
      requires rec.id == transferId && rec.progress == 0.0 && IndexOfTransfer(before, transferId).None?
      requires transfers == before + [rec]
      modifies this
      ensures saved == old(saved)
      ensures var pairs := ChunkPairs(transferId, file.bytes, 0, TotalChunks(file.Size()));
        && |frames| <= |pairs| && frames == pairs[..|frames|]
        && (ok <==> failAt.None? || failAt.value >= 1 + |pairs|)
        && (ok ==> frames == pairs)
        && (!ok ==> failAt.value == 1 + |frames|)
      ensures ok ==> transfers == before + [rec.(progress := UncappedAfterChunks(TotalChunks(file.Size()), file.Size()))]
      ensures !ok ==>
        transfers == before + [rec.(progress := UncappedAfterChunks(ChunksBefore(failAt.value), file.Size()), status := Failed)]
    {
      var size := file.Size();
      var total := TotalChunks(size);
      ghost var pairs := ChunkPairs(transferId, file.bytes, 0, total);
      assert rec.(progress := UncappedAfterChunks(0, size)) == rec;
      frames := [];
      var k := 0;
      while k * CHUNK_SIZE < size
        invariant k <= total
        invariant |frames| == 2 * k && frames == pairs[..2 * k]
        invariant failAt.None? || failAt.value >= 1 + |frames|
        invariant transfers == before + [rec.(progress := UncappedAfterChunks(k, size))]
        invariant saved == old(saved)
        decreases total - k
      {
        var more, chunkSent := SendChunk(file, transferId, failAt, k, frames, pairs, before, rec);
        frames := frames + more;
        if !chunkSent {
          return frames, false;
        }
        k := k + 1;
      }
      assert k == total;
      assert frames == pairs;
      ok := true;
    }

    /** One turn of the older sending loop. */
    method SendChunk(file: File, transferId: string, failAt: Option<nat>, k: nat,
                     frames: seq<PeerFrame>, ghost pairs: seq<PeerFrame>, ghost before: seq<Transfer>, ghost rec: Transfer)
      returns (more: seq<PeerFrame>, ok: bool)
      requires k * CHUNK_SIZE < file.Size()
      requires pairs == ChunkPairs(transferId, file.bytes, 0, TotalChunks(file.Size()))
      requires |frames| == 2 * k && frames == pairs[..2 * k]
      requires failAt.None? || failAt.value >= 1 + |frames|
      requires rec.id == transferId && IndexOfTransfer(before, transferId).None?
      requires transfers == before + [rec.(progress := UncappedAfterChunks(k, file.Size()))]
      modifies this
      ensures saved == old(saved)
      ensures |frames + more| <= |pairs| && frames + more == pairs[..|frames + more|]
      ensures ok <==> |more| == 2
      ensures ok <==> failAt.None? || failAt.value >= 3 + |frames|
      ensures !ok ==> failAt.value == 1 + |frames + more|
      ensures ok ==> transfers == before + [rec.(progress := UncappedAfterChunks(k + 1, file.Size()))]
      ensures !ok ==>
        transfers == before + [rec.(progress := UncappedAfterChunks(ChunksBefore(failAt.value), file.Size()), status := Failed)]
    {
      var size := file.Size();
      var total := TotalChunks(size);
      var descriptor := FileChunk(transferId, k, total);
      var payload := Binary(Slice(file.bytes, k));
      NextPair(transferId, file.bytes, k, total, frames, pairs);
      var r := rec.(progress := UncappedAfterChunks(k, size));
      assert ChunksBefore(1 + |frames|) == k && ChunksBefore(2 + |frames|) == k;
      if failAt == Some(1 + |frames|) || failAt == Some(2 + |frames|) {
        PatchedAppended(before, r, Patch(None, Some(Failed)));
        transfers := Patched(transfers, transferId, Patch(None, Some(Failed)));
        more := if failAt == Some(1 + |frames|) then [] else [descriptor];
        return more, false;
      }
      var progress := UncappedSenderProgress(k * CHUNK_SIZE, size);
      PatchedAppended(before, r, Patch(Some(progress), None));
      transfers := Patched(transfers, transferId, Patch(Some(progress), None));
      more, ok := [descriptor, payload], true;
    }

    method ClearTransfer(transferId: string)
      modifies this
      ensures transfers == WithoutTransfer(old(transfers), transferId) && saved == old(saved)
    {
      transfers := WithoutTransfer(transfers, transferId);
    }

    method ClearCompleted()
      modifies this
      ensures transfers == WithoutCompleted(old(transfers)) && saved == old(saved)
    {
      transfers := WithoutCompleted(transfers);
    }
  }

  /** The `data` handler of the older receiver, with its single current-transfer slot. */
  class LegacyReceiver {
    const client: LegacyFileTransferClient
    var currentTransfer: Option<ReceiveOp>

    function Snapshot(): LegacyRx
      reads this, client
    {
      LegacyRx(currentTransfer, client.transfers, client.saved)
    }

    constructor (client: LegacyFileTransferClient)
      ensures this.client == client && currentTransfer == None
    {
      this.client := client;
      currentTransfer := None;
    }

    method PushChunk(data: seq<Byte>)
      modifies this, client
      ensures Snapshot() == Step(old(Snapshot()), Binary(data))
    {
      if currentTransfer.None? {
        return;
      }
      var op := currentTransfer.value;
      op := op.(chunks := op.chunks + [data], receivedChunks := op.receivedChunks + 1);
      currentTransfer := Some(op);
      var found := IndexOfTransfer(client.transfers, op.id);
      if found.Some? {
        var i := found.value;
        if op.totalChunks > 0 {
          var progress := (op.receivedChunks as real / op.totalChunks as real) * 100.0;
          client.transfers := client.transfers[i := client.transfers[i].(progress := progress)];
        } else if op.metadata.Some? && op.metadata.value.size != 0 {
          var progress := (|Concat(op.chunks)| as real / op.metadata.value.size as real) * 100.0;
          if progress > 100.0 {
            progress := 100.0;
          }
          client.transfers := client.transfers[i := client.transfers[i].(progress := progress)];
        }
      }
    }

    method OnData(frame: PeerFrame)
      modifies this, client
      ensures Snapshot() == Step(old(Snapshot()), frame)
    {
      match frame {
        case FileMeta(id, m) =>
          currentTransfer := Some(ReceiveOp(id, [], m, 0, 0));
          if m.Some? {
            client.transfers := client.transfers + [Transfer(id, m.value.name, m.value.size, 0.0, Receiving)];
          }
        case FileChunk(_, _, total) =>
          if currentTransfer.Some? {
            currentTransfer := Some(currentTransfer.value.(totalChunks := total));
          }
        case FileComplete(id) =>
          if currentTransfer.Some? {
            var op := currentTransfer.value;
            client.saved := client.saved + [Saved(SaveName(op.metadata), BlobType(op.metadata), Concat(op.chunks))];
            var found := IndexOfTransfer(client.transfers, id);
            if found.Some? {
              var i := found.value;
              client.transfers := client.transfers[i := client.transfers[i].(status := Completed, progress := 100.0)];
            }
            currentTransfer := None;
          }
        case Binary(data) =>
          PushChunk(data);
        case Unparseable =>
      }
    }
  }
}
