/**
 * Delivery of a whole file.  The file is cut into fixed non-empty chunks, the last of which
 * carries EOF; chunks arrive in any order and any number of times while the driver runs.
 */
module OssDelivery {
  import opened Bytes
  import opened Ranges
  import opened OssTransfer
  import opened OssRuns

  /** A cut maps the start of each chunk to its end; chunks tile [0, size). */
  ghost predicate CutOf(ends: map<int, int>, size: int) {
    && 0 in ends
    && (forall o {:trigger ends[o]} :: o in ends ==> 0 <= o < ends[o] <= size && (ends[o] == size || ends[o] in ends))
    && (forall o, p {:trigger ends[o], ends[p]} :: o in ends && p in ends && o < p ==> ends[o] <= p)
  }

  ghost predicate ChunkOf(file: seq<byte>, ends: map<int, int>, p: Chunk) {
    && p.offset in ends && p.offset + |p.payload| == ends[p.offset]
    && PieceOf(file, p.offset, p.payload)
    && (p.eof <==> ends[p.offset] == |file|)
    && (p.totalSize <= 0 || p.totalSize == |file|)
  }

  ghost predicate SeenByte(ends: map<int, int>, seen: set<int>, x: int) {
    exists o :: o in seen && o in ends && o <= x < ends[o]
  }

  ghost predicate Parked(ends: map<int, int>, seen: set<int>, nextOffset: int, o: int, segment: seq<byte>) {
    o in ends && o in seen && nextOffset <= o && |segment| == ends[o] - o
  }

  ghost predicate Taken(ends: map<int, int>, nextOffset: int, o: int) {
    o in ends && ends[o] <= nextOffset
  }

  /** Every seen chunk is behind `nextOffset` or parked, and `nextOffset` is a chunk boundary. */
  ghost predicate Placed(ends: map<int, int>, size: int, seen: set<int>, t: Transfer) {
    && (t.nextOffset == size || t.nextOffset in ends)
    && (forall o :: o in t.segments ==> Parked(ends, seen, t.nextOffset, o, t.segments[o]))
    && (forall o :: o in seen ==> Taken(ends, t.nextOffset, o) || o in t.segments)
  }

  ghost predicate Noted(ends: map<int, int>, size: int, seen: set<int>, t: Transfer) {
    && Canonical(t.ranges) && t.coveredBytes == TotalBytes(t.ranges)
    && (forall x :: Covers(t.ranges, x) <==> SeenByte(ends, seen, x))
    && (t.eofSeen <==> LastSeen(ends, size, seen))
    && (t.totalSize <= 0 || t.totalSize == size)
  }

  /** The fields that say what has arrived and where it is. */
  ghost predicate SameArrivals(t: Transfer, u: Transfer) {
    SameNotes(t, u) && t.nextOffset == u.nextOffset && t.segments == u.segments
  }

  ghost predicate SameNotes(t: Transfer, u: Transfer) {
    t.ranges == u.ranges && t.coveredBytes == u.coveredBytes && t.eofSeen == u.eofSeen && t.totalSize == u.totalSize
  }

  lemma TakeParked(ends: map<int, int>, size: int, seen: set<int>, t: Transfer)
    requires CutOf(ends, size) && Placed(ends, size, seen, t) && t.nextOffset in t.segments
    ensures t.nextOffset in ends && TakeNext(t).nextOffset == ends[t.nextOffset] > t.nextOffset
    ensures forall o :: o in TakeNext(t).segments ==>
              Parked(ends, seen, TakeNext(t).nextOffset, o, TakeNext(t).segments[o])
  {
    var from, u := t.nextOffset, TakeNext(t);
    assert Parked(ends, seen, from, from, t.segments[from]);
    forall o | o in u.segments
      ensures Parked(ends, seen, u.nextOffset, o, u.segments[o])
    {
      assert Parked(ends, seen, from, o, t.segments[o]) && ends[from] <= ends[o];
    }
  }

  lemma TakePlaced(ends: map<int, int>, size: int, seen: set<int>, t: Transfer)
    requires CutOf(ends, size) && Placed(ends, size, seen, t) && t.nextOffset in t.segments
    ensures Placed(ends, size, seen, TakeNext(t))
  {
    var u := TakeNext(t);
    TakeParked(ends, size, seen, t);
    forall o | o in seen
      ensures Taken(ends, u.nextOffset, o) || o in u.segments
    {
      assert Taken(ends, t.nextOffset, o) || o in t.segments;
    }
  }

  lemma {:induction false} DrainPlaced(ends: map<int, int>, size: int, seen: set<int>, t: Transfer)
    requires CutOf(ends, size) && Placed(ends, size, seen, t)
    ensures Placed(ends, size, seen, Drain(t))
    ensures SameNotes(t, Drain(t))
    decreases |t.segments|
  {
    if t.nextOffset in t.segments {
      MapShrinks(t.segments, t.nextOffset);
      TakePlaced(ends, size, seen, t);
      DrainPlaced(ends, size, seen, TakeNext(t));
    }
  }

  lemma SeenGrows(ends: map<int, int>, seen: set<int>, offset: int, x: int)
    requires offset in ends
    ensures SeenByte(ends, seen + {offset}, x) <==> SeenByte(ends, seen, x) || offset <= x < ends[offset]
  {
    var more := seen + {offset};
    assert offset in more;
    if SeenByte(ends, seen, x) {
      var o :| o in seen && o in ends && o <= x < ends[o];
      assert o in more;
    }
  }

  ghost predicate LastSeen(ends: map<int, int>, size: int, seen: set<int>) {
    exists o :: o in seen && o in ends && ends[o] == size
  }

  lemma LastGrows(ends: map<int, int>, size: int, seen: set<int>, offset: int)
    requires offset in ends
    ensures LastSeen(ends, size, seen + {offset}) <==> LastSeen(ends, size, seen) || ends[offset] == size
  {
    assert offset in seen + {offset};
    if LastSeen(ends, size, seen) {
      var o :| o in seen && o in ends && ends[o] == size;
      assert o in seen + {offset};
    }
  }

  lemma NoteNoted(file: seq<byte>, ends: map<int, int>, seen: set<int>, t: Transfer, p: Chunk)
    requires Noted(ends, |file|, seen, t) && ChunkOf(file, ends, p)
    ensures Noted(ends, |file|, seen + {p.offset}, NoteChunk(t, p))
  {
    AddCovers(t.ranges, p.offset, p.offset + |p.payload|);
    LastGrows(ends, |file|, seen, p.offset);
    forall x
      ensures Covers(NoteChunk(t, p).ranges, x) <==> SeenByte(ends, seen + {p.offset}, x)
    {
      SeenGrows(ends, seen, p.offset, x);
    }
  }

  lemma AcceptPlaced(file: seq<byte>, ends: map<int, int>, seen: set<int>, t: Transfer, p: Chunk, limit: int)
    requires CutOf(ends, |file|) && ChunkOf(file, ends, p) && t.nextOffset !in t.segments
    requires Placed(ends, |file|, seen, t)
    ensures var (h, _) := ChunkAccepted(t, p.offset, p.payload, limit);
      Placed(ends, |file|, seen + {p.offset}, h) && SameNotes(t, h)
  {
    var more := seen + {p.offset};
    if p.offset + |p.payload| <= t.nextOffset || (p.offset != t.nextOffset && p.offset in t.segments) {
      SeenStays(ends, |file|, seen, t, p.offset);
    } else if p.offset == t.nextOffset {
      var v := Append(t, p.payload);
      AppendPlaced(ends, |file|, seen, t, v);
      DrainPlaced(ends, |file|, more, v);
    } else {
      ParkPlaced(ends, |file|, seen, t, p.offset, p.payload);
    }
  }

  lemma SeenStays(ends: map<int, int>, size: int, seen: set<int>, t: Transfer, offset: int)
    requires Placed(ends, size, seen, t) && offset in ends && (ends[offset] <= t.nextOffset || offset in t.segments)
    ensures Placed(ends, size, seen + {offset}, t)
  {
  }

  lemma AppendPlaced(ends: map<int, int>, size: int, seen: set<int>, t: Transfer, v: Transfer)
    requires CutOf(ends, size) && Placed(ends, size, seen, t)
    requires t.nextOffset in ends && t.nextOffset !in t.segments
    requires v.segments == t.segments && v.nextOffset == ends[t.nextOffset]
    ensures Placed(ends, size, seen + {t.nextOffset}, v)
  {
    var from, more := t.nextOffset, seen + {t.nextOffset};
    assert from < ends[from] && (ends[from] == size || ends[from] in ends);
    AppendParked(ends, size, seen, t, v);
    forall o | o in more
      ensures Taken(ends, v.nextOffset, o) || o in v.segments
    {
      assert o == from || Taken(ends, from, o) || o in t.segments;
    }
  }

  lemma AppendParked(ends: map<int, int>, size: int, seen: set<int>, t: Transfer, v: Transfer)
    requires CutOf(ends, size) && Placed(ends, size, seen, t)
    requires t.nextOffset in ends && t.nextOffset !in t.segments
    requires v.segments == t.segments && v.nextOffset == ends[t.nextOffset]
    ensures forall o :: o in v.segments ==>
              Parked(ends, seen + {t.nextOffset}, v.nextOffset, o, v.segments[o])
  {
    var from := t.nextOffset;
    forall o | o in v.segments
      ensures Parked(ends, seen + {from}, v.nextOffset, o, v.segments[o])
    {
      assert Parked(ends, seen, from, o, t.segments[o]) && ends[from] <= ends[o];
    }
  }

  lemma ParkPlaced(ends: map<int, int>, size: int, seen: set<int>, t: Transfer, offset: int, payload: seq<byte>)
    requires CutOf(ends, size) && Placed(ends, size, seen, t)
    requires offset in ends && offset + |payload| == ends[offset] && t.nextOffset < ends[offset]
    ensures Placed(ends, size, seen + {offset}, Park(t, offset, payload))
  {
  }

  lemma ChunkHolding(ends: map<int, int>, size: int, x: int, from: int) returns (o: int)
    requires CutOf(ends, size) && from in ends && from <= x < size
    ensures o in ends && o <= x < ends[o]
    decreases size - from
  {
    if x < ends[from] {
      o := from;
    } else {
      o := ChunkHolding(ends, size, x, ends[from]);
    }
  }

  /** A transfer that has seen its EOF chunk and parks nothing has taken the whole file. */
  lemma ReadyIsWhole(ends: map<int, int>, size: int, seen: set<int>, t: Transfer)
    requires CutOf(ends, size) && Placed(ends, size, seen, t) && Noted(ends, size, seen, t)
    requires ReadyToComplete(t)
    ensures t.nextOffset >= size
  {
  }

  lemma ParkedInside(ends: map<int, int>, size: int, seen: set<int>, t: Transfer)
    requires CutOf(ends, size) && Placed(ends, size, seen, t)
    ensures forall o :: o in t.segments ==> t.nextOffset <= o < size
  {
    forall o | o in t.segments
      ensures t.nextOffset <= o < size
    {
      assert Parked(ends, seen, t.nextOffset, o, t.segments[o]);
      assert o < ends[o] <= size;
    }
  }

  lemma AllSeenIsPlaced(ends: map<int, int>, size: int, seen: set<int>, t: Transfer)
    requires CutOf(ends, size) && Placed(ends, size, seen, t)
    requires seen == ends.Keys && t.nextOffset !in t.segments && t.nextOffset <= size
    ensures t.nextOffset == size && t.segments == map[]
  {
    assert forall o :: o in seen ==> Taken(ends, t.nextOffset, o) || o in t.segments;
    assert t.nextOffset !in ends;
    ParkedInside(ends, size, seen, t);
    assert forall o :: o !in t.segments;
  }

  lemma AllSeenIsCovered(ends: map<int, int>, size: int, seen: set<int>, t: Transfer)
    requires CutOf(ends, size) && Noted(ends, size, seen, t) && seen == ends.Keys
    ensures 0 < size && t.ranges == [FileRange(0, size)] && t.coveredBytes == size
  {
    assert 0 in ends;
    forall x
      ensures Covers(t.ranges, x) <==> 0 <= x < size
    {
      SeenInside(ends, size, seen, x);
      if 0 <= x < size {
        var o := ChunkHolding(ends, size, x, 0);
        assert o in seen;
      }
    }
    CoversPrefix(t.ranges, size);
  }

  lemma SeenInside(ends: map<int, int>, size: int, seen: set<int>, x: int)
    requires CutOf(ends, size)
    ensures SeenByte(ends, seen, x) ==> 0 <= x < size
  {
  }

  lemma AllSeenIsLast(ends: map<int, int>, size: int, seen: set<int>)
    requires CutOf(ends, size) && seen == ends.Keys && 0 < size
    ensures LastSeen(ends, size, seen)
  {
    var last := ChunkHolding(ends, size, size - 1, 0);
    assert last in seen && ends[last] == size;
  }

  /** Once every chunk has been seen, the file is contiguous and ready to complete. */
  lemma AllSeenIsReady(ends: map<int, int>, size: int, seen: set<int>, t: Transfer)
    requires CutOf(ends, size) && Placed(ends, size, seen, t) && Noted(ends, size, seen, t)
    requires seen == ends.Keys && t.nextOffset !in t.segments && t.nextOffset <= size
    ensures ReadyToComplete(t)
  {
    AllSeenIsPlaced(ends, size, seen, t);
    AllSeenIsCovered(ends, size, seen, t);
    AllSeenIsLast(ends, size, seen);
  }

  // The shape of the parts

  ghost predicate FullOrLast(size: int, partSize: int, start: int, content: seq<byte>) {
    |content| == partSize || (|content| < partSize && start + |content| == size)
  }

  ghost predicate PartsShaped(size: int, partSize: int, parts: seq<UploadedPart>) {
    forall i :: 0 <= i < |parts| ==> FullOrLast(size, partSize, parts[i].start, parts[i].etag.content)
  }

  /** The whole file, every part but the last exactly `partSize`, the last no longer. */
  ghost predicate WholeList(file: seq<byte>, partSize: int, listed: seq<CompletePart>) {
    && Concat(Contents(listed)) == file
    && (forall i :: 0 <= i < |listed| ==> 0 < |listed[i].etag.content| <= partSize)
    && (forall i :: 0 <= i < |listed| - 1 ==> |listed[i].etag.content| == partSize)
  }

  ghost predicate WholeObject(file: seq<byte>, partSize: int, ob: Object) {
    && Concat(ob.parts) == file
    && |ob.parts| == |ob.listed|
    && (forall i :: 0 <= i < |ob.parts| ==> ob.listed[i].number == i + 1 && 0 < |ob.parts[i]| <= partSize)
    && (forall i :: 0 <= i < |ob.parts| - 1 ==> |ob.parts[i]| == partSize)
  }

  lemma {:induction false} EndsGrow(parts: seq<UploadedPart>, next: int, i: int)
    requires PartsOk(parts, next) && 0 <= i < |parts| - 1
    ensures parts[i].end < EndOf(parts)
    decreases |parts| - i
  {
    assert PartOk(parts, i + 1);
    assert parts[..i + 1][|parts[..i + 1]| - 1] == parts[i];
    if i + 1 < |parts| - 1 {
      EndsGrow(parts, next, i + 1);
    }
  }

  lemma WholeParts(file: seq<byte>, partSize: int, parts: seq<UploadedPart>, next: int)
    requires PartsOk(parts, next) && PartsShaped(|file|, partSize, parts)
    requires Uploaded(parts) == file
    ensures WholeList(file, partSize, Listed(parts))
  {
    forall i | 0 <= i < |parts|
      ensures 0 < |parts[i].etag.content| <= partSize
      ensures i < |parts| - 1 ==> |parts[i].etag.content| == partSize
    {
      assert PartOk(parts, i);
      assert FullOrLast(|file|, partSize, parts[i].start, parts[i].etag.content);
      if i < |parts| - 1 {
        EndsGrow(parts, next, i);
      }
    }
  }

  ghost predicate DriverShaped(file: seq<byte>, partSize: int, d: Driver) {
    match d
    case Putting(op) => op.OpPart? && FullOrLast(|file|, partSize, op.start, op.payload)
    case PutDone(op, _) => op.OpPart? && FullOrLast(|file|, partSize, op.start, op.payload)
    case Completing(listed, _) => WholeList(file, partSize, listed)
    case AtNext => true
    case CompleteDone(_) => true
  }

  /** What every step of a run over one cut keeps, besides `Sound`. */
  ghost predicate Cut(file: seq<byte>, ends: map<int, int>, seen: set<int>, s: System, partSize: int) {
    && Placed(ends, |file|, seen, s.t) && Noted(ends, |file|, seen, s.t)
    && Shaped(file, s, partSize)
  }

  ghost predicate Shaped(file: seq<byte>, s: System, partSize: int) {
    && PartsShaped(|file|, partSize, s.t.parts)
    && (forall d :: d in s.drivers ==> DriverShaped(file, partSize, d))
    && (forall ob :: ob in s.objects ==> WholeObject(file, partSize, ob))
    && (forall lc :: lc in s.lateCompletes ==> WholeList(file, partSize, lc.0))
  }

  lemma DeliverCut(file: seq<byte>, ends: map<int, int>, seen: set<int>, s: System, p: Chunk, partSize: int)
    requires CutOf(ends, |file|) && 0 < partSize && ChunkOf(file, ends, p)
    requires Sound(file, s, partSize) && Cut(file, ends, seen, s, partSize)
    ensures Cut(file, ends, seen + {p.offset}, AfterDeliver(s, p, partSize), partSize)
  {
    NoteNoted(file, ends, seen, s.t, p);
    AcceptPlaced(file, ends, seen, NoteChunk(s.t, p), p, 2 * partSize);
    AcceptHeld(file, Uploaded(s.t.parts) + InFlight(s.drivers), s.t, p, 2 * partSize);
    var (h, ok) := ChunkAccepted(NoteChunk(s.t, p), p.offset, p.payload, 2 * partSize);
    ElectCut(file, ends, seen + {p.offset}, s, h, ok, partSize);
  }

  lemma ElectCut(file: seq<byte>, ends: map<int, int>, seen: set<int>, s: System, h: Transfer, ok: bool, partSize: int)
    requires Placed(ends, |file|, seen, h) && Noted(ends, |file|, seen, h)
    requires Shaped(file, s, partSize) && h.parts == s.t.parts
    ensures var (t, drive, _) := Elect(h, ok, partSize);
      Cut(file, ends, seen, s.(t := t, drivers := if drive then s.drivers + [AtNext] else s.drivers,
                               overLimit := s.overLimit || !ok), partSize)
  {
  }

  lemma ReserveShaped(file: seq<byte>, s: System, n: int, partSize: int)
    requires Shaped(file, s, partSize) && s.drivers == [AtNext] && Flow(file, s.drivers, s.t)
    requires 0 < n <= |s.t.buffer|
    requires n == partSize || (n == |s.t.buffer| < partSize && s.t.nextOffset == |file|)
    ensures var (t, op) := ReservePart(s.t, n); Shaped(file, s.(t := t, drivers := [Putting(op)]), partSize)
  {
    assert Uploaded(s.t.parts) + [] == Uploaded(s.t.parts);
  }

  lemma CompletingShaped(file: seq<byte>, s: System, partSize: int)
    requires Shaped(file, s, partSize) && s.drivers == [AtNext] && Flow(file, s.drivers, s.t)
    requires s.t.buffer == [] && s.t.nextOffset == |file|
    ensures Shaped(file, s.(drivers := [Completing(SortByNumber(Listed(s.t.parts)), s.t.totalSize)]), partSize)
  {
    assert Uploaded(s.t.parts) + [] + [] == Uploaded(s.t.parts);
    NumbersOrdered(s.t.parts);
    WholeParts(file, partSize, s.t.parts, s.t.nextPartNumber);
  }

  /** Choosing the next operation touches no arrival state. */
  lemma NextArrivals(s: System, i: nat, partSize: int)
    requires i < |s.drivers| && 0 < partSize
    ensures SameArrivals(s.t, AfterNext(s, i, partSize).t)
  {
  }

  lemma NextCut(file: seq<byte>, ends: map<int, int>, seen: set<int>, s: System, i: nat, partSize: int)
    requires CutOf(ends, |file|) && 0 < partSize && Enabled(s, Next(i))
    requires Sound(file, s, partSize) && Cut(file, ends, seen, s, partSize)
    ensures Cut(file, ends, seen, AfterNext(s, i, partSize), partSize)
  {
    assert s.drivers == [AtNext];
    NextArrivals(s, i, partSize);
    if |s.t.buffer| >= partSize {
      ReserveShaped(file, s, partSize, partSize);
    } else if ReadyToComplete(s.t) {
      ReadyIsWhole(ends, |file|, seen, s.t);
      if |s.t.buffer| > 0 {
        ReserveShaped(file, s, |s.t.buffer|, partSize);
      } else {
        CompletingShaped(file, s, partSize);
      }
    }
  }

  lemma AssembledWhole(file: seq<byte>, partSize: int, remote: map<int, seq<byte>>, listed: seq<CompletePart>, total: int)
    requires Matches(remote, listed) && WholeList(file, partSize, listed) && PrefixList(file, listed, total)
    ensures WholeObject(file, partSize, Assembled(remote, listed, total))
  {
    assert Assembled(remote, listed, total).parts == Contents(listed);
  }

  lemma PutShaped(file: seq<byte>, s: System, i: nat, ok: bool, partSize: int)
    requires Enabled(s, Put(i, ok)) && |s.drivers| == 1 && Shaped(file, s, partSize)
    ensures Shaped(file, AfterPut(s, i, ok), partSize)
    ensures SameArrivals(s.t, AfterPut(s, i, ok).t)
  {
    assert s.drivers[i] in s.drivers;
  }

  lemma FinishPutShaped(file: seq<byte>, s: System, i: nat, partSize: int)
    requires Enabled(s, FinishPut(i)) && |s.drivers| == 1 && Shaped(file, s, partSize)
    ensures Shaped(file, AfterFinishPut(s, i), partSize)
    ensures SameArrivals(s.t, AfterFinishPut(s, i).t)
  {
    assert s.drivers[i] in s.drivers;
  }

  lemma CompleteShaped(file: seq<byte>, s: System, i: nat, ok: bool, partSize: int)
    requires Enabled(s, Complete(i, ok)) && |s.drivers| == 1 && Shaped(file, s, partSize)
    requires PrefixList(file, s.drivers[i].listed, s.drivers[i].total)
    ensures Shaped(file, AfterComplete(s, i, ok), partSize)
    ensures SameArrivals(s.t, AfterComplete(s, i, ok).t)
  {
    assert s.drivers[i] in s.drivers;
    if ok {
      AssembledWhole(file, partSize, s.remote, s.drivers[i].listed, s.drivers[i].total);
    }
  }

  lemma LateCompleteShaped(file: seq<byte>, s: System, listed: seq<CompletePart>, total: int, partSize: int)
    requires Enabled(s, LateComplete(listed, total)) && Shaped(file, s, partSize) && PrefixList(file, listed, total)
    ensures Shaped(file, s.(objects := s.objects + [Assembled(s.remote, listed, total)]), partSize)
  {
    assert (listed, total) in s.lateCompletes;
    AssembledWhole(file, partSize, s.remote, listed, total);
  }

  lemma LeaveShaped(file: seq<byte>, s: System, i: nat, partSize: int)
    requires Enabled(s, FinishCompleting(i)) && Shaped(file, s, partSize) && 0 < partSize && Canonical(s.t.ranges)
    ensures Shaped(file, Step(s, FinishCompleting(i), partSize), partSize)
    ensures SameArrivals(s.t, Step(s, FinishCompleting(i), partSize).t)
  {
  }

  lemma DriverCut(file: seq<byte>, ends: map<int, int>, seen: set<int>, s: System, e: Event, partSize: int)
    requires CutOf(ends, |file|) && 0 < partSize && Enabled(s, e) && !e.Deliver? && !e.Next?
    requires Sound(file, s, partSize) && Cut(file, ends, seen, s, partSize)
    ensures Cut(file, ends, seen, Step(s, e, partSize), partSize)
  {
    match e
    case Put(i, ok) => PutShaped(file, s, i, ok, partSize);
    case LatePut(_, _) =>
    case FinishPut(i) => FinishPutShaped(file, s, i, partSize);
    case Complete(i, ok) => CompleteShaped(file, s, i, ok, partSize);
    case LateComplete(listed, total) => LateCompleteShaped(file, s, listed, total, partSize);
    case FinishCompleting(i) => LeaveShaped(file, s, i, partSize);
    CutStays(file, ends, seen, s, Step(s, e, partSize), partSize);
  }

  lemma CutStays(file: seq<byte>, ends: map<int, int>, seen: set<int>, s: System, t: System, partSize: int)
    requires Cut(file, ends, seen, s, partSize) && SameArrivals(s.t, t.t) && Shaped(file, t, partSize)
    ensures Cut(file, ends, seen, t, partSize)
  {
  }

  lemma StepCut(file: seq<byte>, ends: map<int, int>, seen: set<int>, s: System, e: Event, partSize: int)
    requires CutOf(ends, |file|) && 0 < partSize && Enabled(s, e)
    requires e.Deliver? ==> ChunkOf(file, ends, e.p)
    requires Sound(file, s, partSize) && Cut(file, ends, seen, s, partSize)
    ensures Cut(file, ends, seen + if e.Deliver? then {e.p.offset} else {}, Step(s, e, partSize), partSize)
  {
    match e
    case Deliver(p) => DeliverCut(file, ends, seen, s, p, partSize);
    case Next(i) =>
      NextCut(file, ends, seen, s, i, partSize);
      assert seen + {} == seen;
    case _ =>
      DriverCut(file, ends, seen, s, e, partSize);
      assert seen + {} == seen;
  }

  ghost function SeenBy(events: seq<Event>): set<int> {
    if events == [] then {}
    else
      var last := events[|events| - 1];
      SeenBy(events[..|events| - 1]) + if last.Deliver? then {last.p.offset} else {}
  }

  /** Every delivered packet is a chunk of the cut. */
  ghost predicate OverCut(r: Run, file: seq<byte>, ends: map<int, int>) {
    && CutOf(ends, |file|)
    && (r.totalSize <= 0 || r.totalSize == |file|)
    && (forall k :: 0 <= k < |r.events| && r.events[k].Deliver? ==> ChunkOf(file, ends, r.events[k].p))
  }

  lemma InitCut(file: seq<byte>, ends: map<int, int>, totalSize: int, partSize: int)
    requires CutOf(ends, |file|) && (totalSize <= 0 || totalSize == |file|)
    ensures Cut(file, ends, {}, Init(totalSize), partSize)
  {
    assert forall x :: !Covers([], x);
  }

  lemma {:induction false} EveryCutRun(r: Run, file: seq<byte>, ends: map<int, int>)
    requires Possible(r) && OverCut(r, file, ends)
    ensures Cut(file, ends, SeenBy(r.events), After(r), r.partSize)
    decreases |r.events|
  {
    if r.events == [] {
      InitCut(file, ends, r.totalSize, r.partSize);
    } else {
      EveryRunSound(Before(r), file);
      EveryCutRun(Before(r), file, ends);
      StepCut(file, ends, SeenBy(Before(r).events), After(Before(r)), LastEvent(r), r.partSize);
    }
  }
}
