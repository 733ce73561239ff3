/** The framing of files on a peer channel: one `file-meta` frame, then for every 64 KiB
    slice a `file-chunk` descriptor immediately followed by one binary frame, then one
    `file-complete` frame. Also the progress formulas, the reassembly of received chunks and
    the dangerous-extension check done before a received file is saved. */
module PeerProtocol {
  import opened Types
  import opened Text

  const CHUNK_SIZE: nat := 65536

  /** A frame on the peer channel, after parsing. `Unparseable` stands for a text frame that
      is not JSON or whose `type` is none of the three file frames. */
  datatype PeerFrame =
    | FileMeta(transferId: string, metadata: Option<FileMetadata>)
    | FileChunk(transferId: string, chunkIndex: nat, totalChunks: nat)
    | FileComplete(transferId: string)
    | Binary(data: seq<Byte>)
    | Unparseable

  function MetadataOf(f: File): FileMetadata
  {
    FileMetadata(f.name, f.Size(), f.mimeType, f.lastModified)
  }

  /** `Math.ceil(size / CHUNK_SIZE)`: the least number of chunks that covers the file. */
  function TotalChunks(size: nat): (k: nat)
    ensures k * CHUNK_SIZE >= size
    ensures k > 0 ==> (k - 1) * CHUNK_SIZE < size
    ensures size == 0 <==> k == 0
  {
    (size + CHUNK_SIZE - 1) / CHUNK_SIZE
  }

  /** `file.slice(offset, offset + CHUNK_SIZE)` for the chunk with index `k`. */
  function Slice(bytes: seq<Byte>, k: nat): seq<Byte>
    requires k * CHUNK_SIZE < |bytes|
  {
    var offset := k * CHUNK_SIZE;
    bytes[offset..if offset + CHUNK_SIZE < |bytes| then offset + CHUNK_SIZE else |bytes|]
  }

  /** The descriptor and binary frames for chunks `k`, `k + 1`, … of the file. */
  function ChunkPairs(id: string, bytes: seq<Byte>, k: nat, total: nat): (r: seq<PeerFrame>)
    ensures k <= TotalChunks(|bytes|) ==> |r| == 2 * (TotalChunks(|bytes|) - k)
    decreases |bytes| - k * CHUNK_SIZE
  {
    if k * CHUNK_SIZE >= |bytes| then []
    else [FileChunk(id, k, total), Binary(Slice(bytes, k))] + ChunkPairs(id, bytes, k + 1, total)
  }

  /** Every frame the sender emits for one file, in order. */
  function SenderFrames(id: string, f: File): seq<PeerFrame>
  {
    [FileMeta(id, Some(MetadataOf(f)))] + ChunkPairs(id, f.bytes, 0, TotalChunks(f.Size())) + [FileComplete(id)]
  }

  /** The bytes of the binary frames, concatenated in order. */
  function Payloads(fs: seq<PeerFrame>): seq<Byte>
  {
    if fs == [] then [] else (if fs[0].Binary? then fs[0].data else []) + Payloads(fs[1..])
  }

  lemma {:induction false} PayloadsAppend(a: seq<PeerFrame>, b: seq<PeerFrame>)
    ensures Payloads(a + b) == Payloads(a) + Payloads(b)
  {
    if a != [] {
      assert (a + b)[1..] == a[1..] + b;
      PayloadsAppend(a[1..], b);
    } else {
      assert a + b == b;
    }
  }

  /** Position `2j` holds the descriptor of chunk `k + j`, position `2j + 1` its bytes. */
  lemma {:induction false} ChunkPairsAt(id: string, bytes: seq<Byte>, k: nat, total: nat, j: nat)
    requires k + j < TotalChunks(|bytes|)
    ensures 2 * j + 1 < |ChunkPairs(id, bytes, k, total)|
    ensures ChunkPairs(id, bytes, k, total)[2 * j] == FileChunk(id, k + j, total)
    ensures ChunkPairs(id, bytes, k, total)[2 * j + 1] == Binary(Slice(bytes, k + j))
    decreases j
  {
    if j > 0 {
      ChunkPairsAt(id, bytes, k + 1, total, j - 1);
    }
  }

  /** The binary frames from chunk `k` on carry exactly the file's bytes from `k * 64 KiB`. */
  lemma {:induction false} ChunkPairsPayloads(id: string, bytes: seq<Byte>, k: nat, total: nat)
    ensures Payloads(ChunkPairs(id, bytes, k, total)) ==
      if k * CHUNK_SIZE >= |bytes| then [] else bytes[k * CHUNK_SIZE..]
    decreases |bytes| - k * CHUNK_SIZE
  {
    if k * CHUNK_SIZE < |bytes| {
      var pair := [FileChunk(id, k, total), Binary(Slice(bytes, k))];
      ChunkPairsPayloads(id, bytes, k + 1, total);
      PayloadsAppend(pair, ChunkPairs(id, bytes, k + 1, total));
      assert Payloads(pair) == Slice(bytes, k) by {
        assert pair[1..][1..] == [];
      }
      var o := k * CHUNK_SIZE;
      if o + CHUNK_SIZE < |bytes| {
        assert bytes[o..] == bytes[o..o + CHUNK_SIZE] + bytes[(k + 1) * CHUNK_SIZE..];
      } else {
        assert bytes[o..] == bytes[o..|bytes|];
      }
    }
  }

  /** Round trip: concatenating the binary frames the sender emits gives back the file. */
  lemma SenderPayloadsRoundTrip(id: string, f: File)
    ensures Payloads(SenderFrames(id, f)) == f.bytes
  {
    var meta := [FileMeta(id, Some(MetadataOf(f)))];
    var pairs := ChunkPairs(id, f.bytes, 0, TotalChunks(f.Size()));
    ChunkPairsPayloads(id, f.bytes, 0, TotalChunks(f.Size()));
    PayloadsAppend(meta, pairs);
    PayloadsAppend(meta + pairs, [FileComplete(id)]);
    assert Payloads(meta) == [] by { assert meta[1..] == []; }
    assert Payloads([FileComplete(id)]) == [] by { assert [FileComplete(id)][1..] == []; }
    if f.Size() == 0 {
      assert f.bytes == [];
    } else {
      assert f.bytes[0..] == f.bytes;
    }
  }

  /** The shape of the frame sequence: `file-meta`, then ceil(N / 64 KiB) descriptor and
      binary pairs numbered 0, 1, … with the same `totalChunks`, then `file-complete`. */
  lemma SenderFramesShape(id: string, f: File)
    ensures var fs := SenderFrames(id, f);
      var k := TotalChunks(f.Size());
      && |fs| == 2 * k + 2
      && fs[0] == FileMeta(id, Some(MetadataOf(f)))
      && fs[|fs| - 1] == FileComplete(id)
      && (forall j :: 0 <= j < k ==>
            fs[1 + 2 * j] == FileChunk(id, j, k) && fs[2 + 2 * j].Binary?
            && 0 < |fs[2 + 2 * j].data| <= CHUNK_SIZE)
  {
    var k := TotalChunks(f.Size());
    var fs := SenderFrames(id, f);
    forall j | 0 <= j < k
      ensures fs[1 + 2 * j] == FileChunk(id, j, k) && fs[2 + 2 * j].Binary?
      ensures 0 < |fs[2 + 2 * j].data| <= CHUNK_SIZE
    {
      ChunkPairsAt(id, f.bytes, 0, k, j);
    }
  }

  /** An empty file is announced and completed with no chunk in between. */
  lemma EmptyFileFrames(id: string, f: File)
    requires f.Size() == 0
    ensures SenderFrames(id, f) == [FileMeta(id, Some(MetadataOf(f))), FileComplete(id)]
  {
  }

  /** Chunks whose progress update the sender made before the send at index `f` threw. */
  function ChunksBefore(f: nat): nat
  {
    if f == 0 then 0 else (f - 1) / 2
  }

  lemma PrefixOf(sent: seq<PeerFrame>, rest: seq<PeerFrame>, full: seq<PeerFrame>)
    requires sent + rest == full
    ensures full[..|sent|] == sent
  {
  }

  /** After `k` chunks the next two frames are chunk `k`'s descriptor and bytes. */
  lemma NextPair(id: string, bytes: seq<Byte>, k: nat, total: nat, frames: seq<PeerFrame>, pairs: seq<PeerFrame>)
    requires k * CHUNK_SIZE < |bytes| && total == TotalChunks(|bytes|)
    requires pairs == ChunkPairs(id, bytes, 0, total)
    requires |frames| == 2 * k && frames == pairs[..2 * k]
    ensures 2 * k + 2 <= |pairs|
    ensures frames + [] == pairs[..2 * k]
    ensures frames + [FileChunk(id, k, total)] == pairs[..2 * k + 1]
    ensures frames + [FileChunk(id, k, total), Binary(Slice(bytes, k))] == pairs[..2 * k + 2]
  {
    ChunkPairsAt(id, bytes, 0, total, k);
    assert pairs[..2 * k + 1] == pairs[..2 * k] + [pairs[2 * k]];
    assert pairs[..2 * k + 2] == pairs[..2 * k + 1] + [pairs[2 * k + 1]];
  }

  // ---------------------------------------------------------------------------------------
  // Progress
  // ---------------------------------------------------------------------------------------

  /** Sender progress after the chunk at `offset`: `min((offset + 64 KiB) / size * 100, 100)`. */
  function SenderProgress(offset: nat, size: nat): real
    requires size > 0
  {
    var p := ((offset + CHUNK_SIZE) as real / size as real) * 100.0;
    if p < 100.0 then p else 100.0
  }

  lemma DivMonotone(a: real, b: real, n: real)
    requires 0.0 <= a <= b && n > 0.0
    ensures a / n <= b / n
    ensures a < b ==> a / n < b / n
  {
    var x, y := a / n, b / n;
    assert x * n == a && y * n == b;
    assert (y - x) * n == b - a;
  }

  /** Sender progress is positive, never above 100, grows with the offset, and reaches 100
      on the last chunk. */
  lemma SenderProgressProperties(o1: nat, o2: nat, size: nat)
    requires size > 0
    ensures 0.0 < SenderProgress(o1, size) <= 100.0
    ensures o1 <= o2 ==> SenderProgress(o1, size) <= SenderProgress(o2, size)
    ensures o1 + CHUNK_SIZE >= size ==> SenderProgress(o1, size) == 100.0
  {
    var n := size as real;
    var a := (o1 + CHUNK_SIZE) as real;
    var b := (o2 + CHUNK_SIZE) as real;
    assert a / n > 0.0;
    if o1 <= o2 {
      DivMonotone(a, b, n);
    }
    if o1 + CHUNK_SIZE >= size {
      DivMonotone(n, a, n);
      assert n / n == 1.0;
    }
  }

  /** Progress after `k` chunks have gone out (0 before the first). */
  function ProgressAfterChunks(k: nat, size: nat): real
  {
    if k == 0 || size == 0 then 0.0 else SenderProgress((k - 1) * CHUNK_SIZE, size)
  }

  lemma ProgressAfterChunksMonotone(k1: nat, k2: nat, size: nat)
    requires k1 <= k2
    ensures 0.0 <= ProgressAfterChunks(k1, size) <= ProgressAfterChunks(k2, size) <= 100.0
  {
    if size > 0 {
      if k1 > 0 {
        SenderProgressProperties((k1 - 1) * CHUNK_SIZE, (k2 - 1) * CHUNK_SIZE, size);
      } else if k2 > 0 {
        SenderProgressProperties((k2 - 1) * CHUNK_SIZE, (k2 - 1) * CHUNK_SIZE, size);
      }
    }
  }

  /** The older sender's progress, `(offset + 64 KiB) / size * 100`, with no cap. */
  function UncappedSenderProgress(offset: nat, size: nat): real
    requires size > 0
  {
    ((offset + CHUNK_SIZE) as real / size as real) * 100.0
  }

  /** The uncapped formula overshoots 100 whenever the last chunk is partial: a 1-byte file
      reports 6 553 600 percent after its only chunk. */
  lemma UncappedProgressOvershoots()
    ensures UncappedSenderProgress(0, 1) == 6553600.0
    ensures UncappedSenderProgress(0, 1) > 100.0
    ensures SenderProgress(0, 1) == 100.0
  {
  }

  // ---------------------------------------------------------------------------------------
  // Reassembly
  // ---------------------------------------------------------------------------------------

  /** The receive operation kept for one inbound transfer. */
  datatype ReceiveOp = ReceiveOp(
    id: string,
    chunks: seq<seq<Byte>>,
    metadata: Option<FileMetadata>,
    receivedChunks: nat,
    totalChunks: nat)

  function Concat(chunks: seq<seq<Byte>>): seq<Byte>
  {
    if chunks == [] then [] else Concat(chunks[..|chunks| - 1]) + chunks[|chunks| - 1]
  }

  lemma ConcatAppend(chunks: seq<seq<Byte>>, c: seq<Byte>)
    ensures Concat(chunks + [c]) == Concat(chunks) + c
  {
    assert (chunks + [c])[..|chunks|] == chunks;
  }

  /** Receive progress after a chunk: by chunk count when the descriptor gave a total,
      otherwise by bytes against the declared size (capped at 100), otherwise nothing. */
  function ReceiveProgress(op: ReceiveOp): Option<real>
  {
    if op.totalChunks > 0 then Some((op.receivedChunks as real / op.totalChunks as real) * 100.0)
    else if op.metadata.Some? && op.metadata.value.size != 0 then
      var p := (|Concat(op.chunks)| as real / op.metadata.value.size as real) * 100.0;
      Some(if p < 100.0 then p else 100.0)
    else None
  }

  /** Counting progress grows with each received chunk and is exactly 100 once all
      announced chunks are in. */
  lemma ReceiveProgressByCount(op: ReceiveOp)
    requires op.totalChunks > 0 && op.receivedChunks <= op.totalChunks
    ensures ReceiveProgress(op).Some?
    ensures 0.0 <= ReceiveProgress(op).value <= 100.0
    ensures ReceiveProgress(op).value == 100.0 <==> op.receivedChunks == op.totalChunks
  {
    var r := op.receivedChunks as real;
    var t := op.totalChunks as real;
    DivMonotone(r, t, t);
    assert t / t == 1.0;
  }

  const DEFAULT_MIME_TYPE := "application/octet-stream"
  const DEFAULT_NAME := "download"

  /** `metadata?.type || 'application/octet-stream'`. */
  function BlobType(m: Option<FileMetadata>): (t: string)
    ensures t != ""
    ensures m.Some? && m.value.mimeType != "" ==> t == m.value.mimeType
  {
    if m.Some? && m.value.mimeType != "" then m.value.mimeType else DEFAULT_MIME_TYPE
  }

  /** `metadata?.name || 'download'`. */
  function SaveName(m: Option<FileMetadata>): (n: string)
    ensures n != ""
    ensures m.Some? && m.value.name != "" ==> n == m.value.name
  {
    if m.Some? && m.value.name != "" then m.value.name else DEFAULT_NAME
  }

  // ---------------------------------------------------------------------------------------
  // Dangerous extensions
  // ---------------------------------------------------------------------------------------

  const DANGEROUS_EXTENSIONS: set<string> := {
    "exe", "bat", "cmd", "com", "msi", "ps1", "vbs", "js", "jse",
    "wsf", "wsh", "reg", "scr", "pif", "hta", "jar", "sh", "bash",
    "zsh", "fish", "csh", "ksh", "html", "htm", "xhtml", "svg", "xml",
    "php", "py", "rb", "pl", "lua", "app", "deb", "rpm", "dmg", "pkg",
    "apk", "ipa"
  }

  /** `split('.').pop()`: the text after the last dot, or the whole name without a dot. */
  function AfterLastDot(s: string): (r: string)
    ensures |r| <= |s| && s[|s| - |r|..] == r
    ensures '.' !in r
    ensures '.' !in s ==> r == s
    ensures '.' in s ==> s[|s| - |r| - 1] == '.'
  {
    if s == [] then []
    else if s[|s| - 1] == '.' then []
    else
      var init := s[..|s| - 1];
      var r0 := AfterLastDot(init);
      assert s == init + [s[|s| - 1]];
      assert s[|s| - |r0| - 1..] == init[|init| - |r0|..] + [s[|s| - 1]];
      r0 + [s[|s| - 1]]
  }

  /** The lower-cased extension that is matched against the deny list. */
  function Extension(fileName: string): string
  {
    Lower(AfterLastDot(fileName))
  }

  /** A saved file, and whether a warning was logged before saving it. */
  datatype Download = Download(name: string, mimeType: string, bytes: seq<Byte>, warned: bool)

  /** `downloadFile`: warn on a dangerous extension, and save in every case. */
  function DownloadFile(bytes: seq<Byte>, name: string, mimeType: string): (d: Download)
    ensures d.bytes == bytes && d.name == name && d.mimeType == mimeType
    ensures d.warned <==> Extension(name) in DANGEROUS_EXTENSIONS
  {
    Download(name, mimeType, bytes, Extension(name) in DANGEROUS_EXTENSIONS)
  }

  /** Whatever precedes the last dot is ignored: the extension of `base.ext` is `ext`
      whenever `ext` holds no dot. */
  lemma AfterLastDotOfDotted(base: string, ext: string)
    requires '.' !in ext
    ensures AfterLastDot(base + "." + ext) == ext
  {
    var s := base + "." + ext;
    var r := AfterLastDot(s);
    assert s[|base|] == '.';
    assert s[|s| - |ext|..] == ext;
  }

  /** Examples of the check: only the last extension counts, case does not, and a name
      without a dot is taken whole. */
  lemma ExtensionOfUpperCaseDouble()
    ensures Extension("archive.tar.EXE") == "exe"
    ensures "exe" in DANGEROUS_EXTENSIONS
  {
    AfterLastDotOfDotted("archive.tar", "EXE");
    assert "archive.tar" + "." + "EXE" == "archive.tar.EXE";
    var l := Lower("EXE");
    assert l[0] == 'e' && l[1] == 'x' && l[2] == 'e';
  }

  lemma ExtensionOfDotlessName()
    ensures Extension("sh") == "sh"
    ensures "sh" in DANGEROUS_EXTENSIONS
  {
    assert '.' !in "sh";
    var a := AfterLastDot("sh");
    assert a == "sh";
    var l := Lower(a);
    assert l[0] == 's' && l[1] == 'h';
  }
}
