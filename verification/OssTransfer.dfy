/**
 * One file being reassembled and uploaded by the OSS sender.
 *
 * The functions of the first part are the meaning of each locked section; the class `TransferState`
 * is the sender's mutable state, every method of which is proved to perform exactly that function.
 * What all interleavings of those sections keep is the subject of `OssRuns`.
 */
module OssTransfer {
  import opened Bytes
  import opened Ranges

  /** A part's ETag identifies the bytes the store holds for it. */
  datatype ETag = ETag(content: seq<byte>)

  datatype UploadedPart = UploadedPart(number: int, etag: ETag, start: int, end: int)

  datatype CompletePart = CompletePart(number: int, etag: ETag)

  datatype Chunk = Chunk(offset: int, payload: seq<byte>, totalSize: int, eof: bool)

  datatype Transfer = Transfer(
    totalSize: int,
    eofSeen: bool,
    ranges: seq<FileRange>,
    coveredBytes: int,
    nextOffset: int,
    buffer: seq<byte>,
    segments: map<int, seq<byte>>,
    pendingBytes: int,
    parts: seq<UploadedPart>,
    nextPartNumber: int,
    uploading: bool)

  datatype UploadOp =
    | OpNone
    | OpPart(number: int, start: int, payload: seq<byte>)
    | OpComplete(complete: seq<CompletePart>)

  function Fresh(totalSize: int): Transfer {
    Transfer(totalSize, false, [], 0, 0, [], map[], 0, [], 1, false)
  }

  // Accepting a chunk

  ghost function TakeNext(t: Transfer): Transfer
    requires t.nextOffset in t.segments
  {
    var seg := t.segments[t.nextOffset];
    t.(segments := t.segments - {t.nextOffset}, pendingBytes := t.pendingBytes - |seg|,
       buffer := t.buffer + seg, nextOffset := t.nextOffset + |seg|)
  }

  ghost function Drain(t: Transfer): Transfer
    decreases |t.segments|
  {
    if t.nextOffset in t.segments then
      MapShrinks(t.segments, t.nextOffset);
      Drain(TakeNext(t))
    else t
  }

  ghost function Append(t: Transfer, payload: seq<byte>): Transfer {
    t.(buffer := t.buffer + payload, nextOffset := t.nextOffset + |payload|)
  }

  ghost function Park(t: Transfer, offset: int, payload: seq<byte>): Transfer {
    t.(segments := t.segments[offset := payload], pendingBytes := t.pendingBytes + |payload|)
  }

  /** The transfer after a chunk, and whether the out-of-order bytes stayed within the limit. */
  ghost function ChunkAccepted(t: Transfer, offset: int, payload: seq<byte>, limit: int): (Transfer, bool) {
    if offset + |payload| <= t.nextOffset then (t, true)
    else if offset == t.nextOffset then (Drain(Append(t, payload)), true)
    else if offset in t.segments then (t, true)
    else (Park(t, offset, payload), t.pendingBytes + |payload| <= limit)
  }

  predicate ReadyToComplete(t: Transfer) {
    && t.eofSeen
    && t.segments == map[]
    && |t.ranges| == 1
    && (t.totalSize <= 0 || (t.totalSize <= t.coveredBytes && t.totalSize <= t.nextOffset
                             && t.ranges[0].start == 0 && t.totalSize <= t.ranges[0].end))
  }

  predicate HasUploadWork(t: Transfer, partSize: int) {
    |t.buffer| >= partSize || ReadyToComplete(t)
  }

  ghost function NoteChunk(t: Transfer, p: Chunk): Transfer
    requires Canonical(t.ranges)
  {
    var ranges := Add(t.ranges, p.offset, p.offset + |p.payload|);
    t.(totalSize := if p.totalSize > 0 then p.totalSize else t.totalSize,
       eofSeen := t.eofSeen || p.eof,
       ranges := ranges,
       coveredBytes := TotalBytes(ranges))
  }

  /** An accepted chunk elects its caller as the driver when there is work and no driver. */
  ghost function Elect(held: Transfer, ok: bool, partSize: int): (Transfer, bool, bool) {
    var drive := ok && !held.uploading && HasUploadWork(held, partSize);
    (if drive then held.(uploading := true) else held, drive, ok)
  }

  /** The transfer after a packet, whether the caller must drive the upload, and success. */
  ghost function PacketAccepted(t: Transfer, p: Chunk, limit: int, partSize: int): (Transfer, bool, bool)
    requires Canonical(t.ranges)
  {
    var (held, ok) := ChunkAccepted(NoteChunk(t, p), p.offset, p.payload, limit);
    Elect(held, ok, partSize)
  }

  // Driving the upload

  function EndOf(parts: seq<UploadedPart>): int {
    if parts == [] then 0 else parts[|parts| - 1].end
  }

  function ReservePart(t: Transfer, n: int): (Transfer, UploadOp)
    requires 0 <= n <= |t.buffer|
  {
    (t.(buffer := t.buffer[n..]), OpPart(t.nextPartNumber, EndOf(t.parts), t.buffer[..n]))
  }

  function InsertByNumber(ps: seq<CompletePart>, p: CompletePart): seq<CompletePart> {
    if ps == [] || ps[|ps| - 1].number <= p.number then ps + [p]
    else InsertByNumber(ps[..|ps| - 1], p) + [ps[|ps| - 1]]
  }

  function SortByNumber(ps: seq<CompletePart>): seq<CompletePart> {
    if ps == [] then [] else InsertByNumber(SortByNumber(ps[..|ps| - 1]), ps[|ps| - 1])
  }

  function Listed(parts: seq<UploadedPart>): (ps: seq<CompletePart>)
    ensures |ps| == |parts|
    ensures forall i :: 0 <= i < |parts| ==> ps[i] == CompletePart(parts[i].number, parts[i].etag)
  {
    seq(|parts|, i requires 0 <= i < |parts| => CompletePart(parts[i].number, parts[i].etag))
  }

  function NextOperation(t: Transfer, partSize: int): (Transfer, UploadOp)
    requires 0 < partSize
  {
    if |t.buffer| >= partSize then ReservePart(t, partSize)
    else if ReadyToComplete(t) then
      if |t.buffer| > 0 then ReservePart(t, |t.buffer|)
      else (t, OpComplete(SortByNumber(Listed(t.parts))))
    else (t.(uploading := false), OpNone)
  }

  function FinishPart(t: Transfer, op: UploadOp, etag: ETag, ok: bool): Transfer
    requires op.OpPart?
  {
    if ok then
      t.(parts := t.parts + [UploadedPart(op.number, etag, op.start, op.start + |op.payload|)],
         nextPartNumber := t.nextPartNumber + 1)
    else t.(buffer := op.payload + t.buffer, uploading := false)
  }

  function FinishComplete(t: Transfer): Transfer {
    t.(uploading := false)
  }

  lemma {:induction false} SortKeepsOrdered(ps: seq<CompletePart>)
    requires forall i, j :: 0 <= i < j < |ps| ==> ps[i].number < ps[j].number
    ensures SortByNumber(ps) == ps
  {
    if ps != [] {
      SortKeepsOrdered(ps[..|ps| - 1]);
      assert ps == ps[..|ps| - 1] + [ps[|ps| - 1]];
    }
  }

  class TransferState {
    var totalSize: int
    var eofSeen: bool
    var coveredRanges: seq<FileRange>
    var coveredBytes: int
    var nextOffset: int
    var pendingPartBuffer: seq<byte>
    var pendingSegments: map<int, seq<byte>>
    var pendingBytes: int
    var uploadedParts: seq<UploadedPart>
    var nextPartNumber: int
    var uploading: bool

    ghost function View(): Transfer
      reads this
    {
      Transfer(totalSize, eofSeen, coveredRanges, coveredBytes, nextOffset, pendingPartBuffer,
               pendingSegments, pendingBytes, uploadedParts, nextPartNumber, uploading)
    }

    ghost predicate Valid()
      reads this
    {
      Canonical(coveredRanges) && coveredBytes == TotalBytes(coveredRanges)
    }

    constructor (size: int)
      ensures Valid() && View() == Fresh(size)
    {
      totalSize, eofSeen, coveredRanges, coveredBytes := size, false, [], 0;
      nextOffset, pendingPartBuffer, pendingSegments, pendingBytes := 0, [], map[], 0;
      uploadedParts, nextPartNumber, uploading := [], 1, false;
    }

    method AcceptPacket(p: Chunk, pendingLimit: int, partSize: int) returns (drive: bool, ok: bool)
      requires Valid()
      modifies this
      ensures Valid()
      ensures (View(), drive, ok) == PacketAccepted(old(View()), p, pendingLimit, partSize)
    {
      Note(p);
      ok := AcceptChunk(p.offset, p.payload, pendingLimit);
      drive := false;
      if ok && !uploading && (|pendingPartBuffer| >= partSize || Ready()) {
        uploading := true;
        drive := true;
      }
    }

    method Note(p: Chunk)
      requires Valid()
      modifies `totalSize, `eofSeen, `coveredRanges, `coveredBytes
      ensures Valid()
      ensures View() == NoteChunk(old(View()), p)
    {
      NoteFlags(p);
      AddCovered(p.offset, p.offset + |p.payload|);
    }

    method NoteFlags(p: Chunk)
      modifies `totalSize, `eofSeen
      ensures totalSize == if p.totalSize > 0 then p.totalSize else old(totalSize)
      ensures eofSeen == (old(eofSeen) || p.eof)
    {
      if p.totalSize > 0 {
        totalSize := p.totalSize;
      }
      if p.eof {
        eofSeen := true;
      }
    }

    method AddCovered(start: int, end: int)
      requires Valid()
      modifies `coveredRanges, `coveredBytes
      ensures Valid() && coveredRanges == Add(old(coveredRanges), start, end)
    {
      coveredRanges, coveredBytes := AddRange(coveredRanges, coveredBytes, start, end);
    }

    method AcceptChunk(offset: int, payload: seq<byte>, pendingLimit: int) returns (ok: bool)
      requires Valid()
      modifies `nextOffset, `pendingPartBuffer, `pendingSegments, `pendingBytes
      ensures Valid()
      ensures (View(), ok) == ChunkAccepted(old(View()), offset, payload, pendingLimit)
    {
      var end := offset + |payload|;
      if end <= nextOffset {
        return true;
      }
      if offset == nextOffset {
        pendingPartBuffer := pendingPartBuffer + payload;
        nextOffset := end;
        DrainContiguousSegments();
        return true;
      }
      if offset in pendingSegments {
        return true;
      }
      pendingSegments := pendingSegments[offset := payload];
      pendingBytes := pendingBytes + |payload|;
      return pendingBytes <= pendingLimit;
    }

    /** Moves parked segments behind the contiguous bytes; each turn removes one, so it ends. */
    method DrainContiguousSegments()
      requires Valid()
      modifies `nextOffset, `pendingPartBuffer, `pendingSegments, `pendingBytes
      ensures Valid()
      ensures View() == Drain(old(View()))
    {
      while nextOffset in pendingSegments
        invariant Valid()
        invariant Drain(View()) == Drain(old(View()))
        decreases |pendingSegments|
      {
        MapShrinks(pendingSegments, nextOffset);
        var seg := pendingSegments[nextOffset];
        pendingSegments := pendingSegments - {nextOffset};
        pendingBytes := pendingBytes - |seg|;
        pendingPartBuffer := pendingPartBuffer + seg;
        nextOffset := nextOffset + |seg|;
      }
    }

    predicate Ready()
      reads this
      ensures Ready() == ReadyToComplete(View())
    {
      if !eofSeen || pendingSegments != map[] then false
      else if totalSize <= 0 then |coveredRanges| == 1
      else if coveredBytes < totalSize || nextOffset < totalSize then false
      else |coveredRanges| == 1 && coveredRanges[0].start == 0 && coveredRanges[0].end >= totalSize
    }

    method NextUploadOperation(partSize: int) returns (op: UploadOp)
      requires Valid() && 0 < partSize
      modifies `pendingPartBuffer, `uploading
      ensures Valid()
      ensures (View(), op) == NextOperation(old(View()), partSize)
    {
      if |pendingPartBuffer| >= partSize {
        op := ReservePartUpload(partSize);
      } else if Ready() {
        if |pendingPartBuffer| > 0 {
          op := ReservePartUpload(|pendingPartBuffer|);
        } else {
          var parts := CompleteParts();
          op := OpComplete(parts);
        }
      } else {
        uploading := false;
        op := OpNone;
      }
    }

    method ReservePartUpload(n: int) returns (op: UploadOp)
      requires 0 <= n <= |pendingPartBuffer|
      modifies `pendingPartBuffer
      ensures (View(), op) == ReservePart(old(View()), n)
    {
      var payload := pendingPartBuffer[..n];
      var start := EndOf(uploadedParts);
      pendingPartBuffer := pendingPartBuffer[n..];
      op := OpPart(nextPartNumber, start, payload);
    }

    method CompleteParts() returns (parts: seq<CompletePart>)
      ensures parts == SortByNumber(Listed(uploadedParts))
    {
      parts := [];
      for i := 0 to |uploadedParts|
        invariant parts == Listed(uploadedParts[..i])
      {
        parts := parts + [CompletePart(uploadedParts[i].number, uploadedParts[i].etag)];
      }
      assert uploadedParts[..|uploadedParts|] == uploadedParts;
      parts := SortByNumber(parts);
    }

    method FinishPartUpload(op: UploadOp, etag: ETag, uploadOk: bool)
      requires Valid() && op.OpPart?
      modifies `pendingPartBuffer, `uploading, `uploadedParts, `nextPartNumber
      ensures Valid()
      ensures View() == FinishPart(old(View()), op, etag, uploadOk)
    {
      if !uploadOk {
        pendingPartBuffer := op.payload + pendingPartBuffer;
        uploading := false;
        return;
      }
      uploadedParts := uploadedParts + [UploadedPart(op.number, etag, op.start, op.start + |op.payload|)];
      nextPartNumber := nextPartNumber + 1;
    }

    method FinishCompleteUpload()
      requires Valid()
      modifies `uploading
      ensures Valid()
      ensures View() == FinishComplete(old(View()))
    {
      uploading := false;
    }
  }
}
