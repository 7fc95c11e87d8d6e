/**
 * Every interleaving of an OSS transfer.  Each locked section is one step, each remote call another;
 * a failed part upload or completion may still take effect at the store at any later time.
 */
module OssRuns {
  import opened Bytes
  import opened Ranges
  import opened OssTransfer

  datatype Driver =
    | AtNext
    | Putting(op: UploadOp)
    | PutDone(op: UploadOp, ok: bool)
    | Completing(listed: seq<CompletePart>, total: int)
    | CompleteDone(ok: bool)

  /** An object the store assembled: the list it was sent, the bytes of each part, and the
      transfer's known size when the list was drawn up. */
  datatype Object = Object(listed: seq<CompletePart>, parts: seq<seq<byte>>, total: int)

  /** Why the last driver left. */
  datatype Exit = Idle | PutFailed | CompleteFailed | Finished

  datatype System = System(
    t: Transfer,
    drivers: seq<Driver>,
    remote: map<int, seq<byte>>,
    latePuts: set<(int, seq<byte>)>,
    lateCompletes: set<(seq<CompletePart>, int)>,
    objects: seq<Object>,
    overLimit: bool,
    lastExit: Exit)

  datatype Event =
    | Deliver(p: Chunk)
    | Next(i: nat)
    | Put(i: nat, ok: bool)
    | LatePut(number: int, content: seq<byte>)
    | FinishPut(i: nat)
    | Complete(i: nat, ok: bool)
    | LateComplete(listed: seq<CompletePart>, total: int)
    | FinishCompleting(i: nat)

  function Init(totalSize: int): System {
    System(Fresh(totalSize), [], map[], {}, {}, [], false, Idle)
  }

  /** The store assembles an object only when it holds every listed part with its ETag. */
  ghost predicate Matches(remote: map<int, seq<byte>>, listed: seq<CompletePart>) {
    forall i :: 0 <= i < |listed| ==>
      listed[i].number in remote && remote[listed[i].number] == listed[i].etag.content
  }

  ghost function Assembled(remote: map<int, seq<byte>>, listed: seq<CompletePart>, total: int): Object
    requires Matches(remote, listed)
  {
    Object(listed, seq(|listed|, i requires 0 <= i < |listed| => remote[listed[i].number]), total)
  }

  ghost predicate Enabled(s: System, e: Event) {
    match e
    case Deliver(p) => p.offset >= 0
    case Next(i) => i < |s.drivers| && s.drivers[i].AtNext?
    case Put(i, _) => i < |s.drivers| && s.drivers[i].Putting? && s.drivers[i].op.OpPart?
    case LatePut(number, content) => (number, content) in s.latePuts
    case FinishPut(i) => i < |s.drivers| && s.drivers[i].PutDone? && s.drivers[i].op.OpPart?
    case Complete(i, ok) =>
      i < |s.drivers| && s.drivers[i].Completing? && (ok ==> Matches(s.remote, s.drivers[i].listed))
    case LateComplete(listed, total) => (listed, total) in s.lateCompletes && Matches(s.remote, listed)
    case FinishCompleting(i) => i < |s.drivers| && s.drivers[i].CompleteDone?
  }

  ghost function Leave(s: System, i: nat, why: Exit): System
    requires i < |s.drivers|
  {
    s.(drivers := s.drivers[..i] + s.drivers[i + 1..], lastExit := why)
  }

  ghost function Advance(s: System, i: nat, d: Driver): System
    requires i < |s.drivers|
  {
    s.(drivers := s.drivers[i := d])
  }

  ghost function AfterDeliver(s: System, p: Chunk, partSize: int): System
    requires Canonical(s.t.ranges)
  {
    var (t, drive, ok) := PacketAccepted(s.t, p, 2 * partSize, partSize);
    s.(t := t, drivers := if drive then s.drivers + [AtNext] else s.drivers, overLimit := s.overLimit || !ok)
  }

  ghost function AfterNext(s: System, i: nat, partSize: int): System
    requires i < |s.drivers| && 0 < partSize
  {
    var (t, op) := NextOperation(s.t, partSize);
    match op
    case OpNone => Leave(s.(t := t), i, Idle)
    case OpPart(_, _, _) => Advance(s.(t := t), i, Putting(op))
    case OpComplete(listed) => Advance(s.(t := t), i, Completing(listed, s.t.totalSize))
  }

  ghost function AfterPut(s: System, i: nat, ok: bool): System
    requires Enabled(s, Put(i, ok))
  {
    var op := s.drivers[i].op;
    var s' := Advance(s, i, PutDone(op, ok));
    if ok then s'.(remote := s.remote[op.number := op.payload])
    else s'.(latePuts := s.latePuts + {(op.number, op.payload)})
  }

  ghost function AfterFinishPut(s: System, i: nat): System
    requires Enabled(s, FinishPut(i))
  {
    var d := s.drivers[i];
    var s' := s.(t := FinishPart(s.t, d.op, ETag(d.op.payload), d.ok));
    if d.ok then Advance(s', i, AtNext) else Leave(s', i, PutFailed)
  }

  ghost function AfterComplete(s: System, i: nat, ok: bool): System
    requires Enabled(s, Complete(i, ok))
  {
    var d := s.drivers[i];
    var s' := Advance(s, i, CompleteDone(ok));
    if ok then s'.(objects := s.objects + [Assembled(s.remote, d.listed, d.total)])
    else s'.(lateCompletes := s.lateCompletes + {(d.listed, d.total)})
  }

  ghost function Step(s: System, e: Event, partSize: int): System
    requires Enabled(s, e) && Canonical(s.t.ranges) && 0 < partSize
  {
    match e
    case Deliver(p) => AfterDeliver(s, p, partSize)
    case Next(i) => AfterNext(s, i, partSize)
    case Put(i, ok) => AfterPut(s, i, ok)
    case LatePut(number, content) => s.(remote := s.remote[number := content])
    case FinishPut(i) => AfterFinishPut(s, i)
    case Complete(i, ok) => AfterComplete(s, i, ok)
    case LateComplete(listed, total) => s.(objects := s.objects + [Assembled(s.remote, listed, total)])
    case FinishCompleting(i) =>
      Leave(s.(t := FinishComplete(s.t)), i, if s.drivers[i].ok then Finished else CompleteFailed)
  }

  // Runs

  datatype Run = Run(totalSize: int, partSize: int, events: seq<Event>)

  ghost predicate Possible(r: Run)
    decreases |r.events|, 0
  {
    && 0 < r.partSize
    && (r.events != [] ==>
          Possible(Before(r)) && Canonical(After(Before(r)).t.ranges) && Enabled(After(Before(r)), LastEvent(r)))
  }

  ghost function Before(r: Run): Run
    requires r.events != []
  {
    r.(events := r.events[..|r.events| - 1])
  }

  ghost function LastEvent(r: Run): Event
    requires r.events != []
  {
    r.events[|r.events| - 1]
  }

  ghost function After(r: Run): System
    requires Possible(r)
    decreases |r.events|, 1
  {
    if r.events == [] then Init(r.totalSize) else Step(After(Before(r)), LastEvent(r), r.partSize)
  }

  // What every step keeps

  /** The bytes taken so far, `pre` of them already reserved or uploaded, are a prefix of the file. */
  ghost predicate Held(file: seq<byte>, pre: seq<byte>, t: Transfer) {
    && Canonical(t.ranges) && t.coveredBytes == TotalBytes(t.ranges)
    && t.pendingBytes == SumLengths(t.segments)
    && 0 <= t.nextOffset <= |file|
    && pre + t.buffer == file[..t.nextOffset]
    && (forall o :: o in t.segments ==> PieceOf(file, o, t.segments[o]))
  }

  ghost predicate SameUploads(t: Transfer, u: Transfer) {
    t.parts == u.parts && t.nextPartNumber == u.nextPartNumber && t.uploading == u.uploading
  }

  lemma {:induction false} DrainHeld(file: seq<byte>, pre: seq<byte>, t: Transfer)
    requires Held(file, pre, t)
    ensures Held(file, pre, Drain(t)) && Drain(t).nextOffset !in Drain(t).segments
    ensures SameUploads(t, Drain(t)) && Drain(t).pendingBytes <= t.pendingBytes
    decreases |t.segments|
  {
    if t.nextOffset in t.segments {
      MapShrinks(t.segments, t.nextOffset);
      SumLengthsRemove(t.segments, t.nextOffset);
      var seg := t.segments[t.nextOffset];
      assert pre + (t.buffer + seg) == (pre + t.buffer) + seg == file[..t.nextOffset + |seg|];
      DrainHeld(file, pre, TakeNext(t));
    }
  }

  lemma AcceptHeld(file: seq<byte>, pre: seq<byte>, t: Transfer, p: Chunk, limit: int)
    requires Held(file, pre, t) && t.nextOffset !in t.segments
    requires PieceOf(file, p.offset, p.payload)
    ensures var (h, ok) := ChunkAccepted(NoteChunk(t, p), p.offset, p.payload, limit);
      && Held(file, pre, h) && h.nextOffset !in h.segments && SameUploads(t, h)
      && (ok && t.pendingBytes <= limit ==> h.pendingBytes <= limit)
      && (!ok ==> h.buffer == t.buffer && p.offset in h.segments)
  {
    var u := NoteChunk(t, p);
    assert Held(file, pre, u);
    if p.offset + |p.payload| <= u.nextOffset {
    } else if p.offset == u.nextOffset {
      var v := Append(u, p.payload);
      assert pre + v.buffer == (pre + u.buffer) + p.payload == file[..v.nextOffset];
      DrainHeld(file, pre, v);
    } else if p.offset !in u.segments {
      SumLengthsInsert(u.segments, p.offset, p.payload);
    }
  }

  ghost function Contents(listed: seq<CompletePart>): seq<seq<byte>> {
    seq(|listed|, i requires 0 <= i < |listed| => listed[i].etag.content)
  }

  ghost function Uploaded(parts: seq<UploadedPart>): seq<byte> {
    Concat(Contents(Listed(parts)))
  }

  /** Parts are non-empty, numbered from 1 and contiguous from offset 0. */
  ghost predicate PartsOk(parts: seq<UploadedPart>, nextPartNumber: int) {
    && nextPartNumber == |parts| + 1
    && (forall i :: 0 <= i < |parts| ==> PartOk(parts, i))
    && |Uploaded(parts)| == EndOf(parts)
  }

  ghost predicate PartOk(parts: seq<UploadedPart>, i: int)
    requires 0 <= i < |parts|
  {
    && parts[i].number == i + 1
    && |parts[i].etag.content| > 0
    && parts[i].start == EndOf(parts[..i])
    && parts[i].end == parts[i].start + |parts[i].etag.content|
  }

  lemma UploadedSnoc(parts: seq<UploadedPart>, part: UploadedPart)
    ensures Uploaded(parts + [part]) == Uploaded(parts) + part.etag.content
  {
    ConcatSnoc(Contents(Listed(parts)), part.etag.content);
    assert Contents(Listed(parts + [part])) == Contents(Listed(parts)) + [part.etag.content];
  }

  ghost function InFlight(drivers: seq<Driver>): seq<byte> {
    if |drivers| == 1 && (drivers[0].Putting? || drivers[0].PutDone?) && drivers[0].op.OpPart? then drivers[0].op.payload
    else []
  }

  /** A list whose parts make a prefix of the file reaching the known size. */
  ghost predicate PrefixList(file: seq<byte>, listed: seq<CompletePart>, total: int) {
    && (forall i :: 0 <= i < |listed| ==> listed[i].number == i + 1)
    && Concat(Contents(listed)) <= file
    && (total > 0 ==> total <= |Concat(Contents(listed))|)
  }

  ghost predicate PrefixObject(file: seq<byte>, ob: Object) {
    ob.parts == Contents(ob.listed) && PrefixList(file, ob.listed, ob.total)
  }

  ghost predicate DriverOk(file: seq<byte>, t: Transfer, d: Driver) {
    match d
    case AtNext => true
    case Putting(op) => OpOk(t, op)
    case PutDone(op, _) => OpOk(t, op)
    case Completing(listed, total) => listed == Listed(t.parts) && PrefixList(file, listed, total)
    case CompleteDone(_) => true
  }

  ghost predicate OpOk(t: Transfer, op: UploadOp) {
    op.OpPart? && op.number == t.nextPartNumber && op.start == EndOf(t.parts) && |op.payload| > 0
  }

  /** At most one driver, and none missing unless it left with work behind it. */
  ghost predicate OneDriver(s: System, partSize: int) {
    && |s.drivers| <= 1
    && (s.t.uploading <==> |s.drivers| == 1)
    && (s.drivers == [] && s.lastExit.Idle? ==> !HasUploadWork(s.t, partSize))
  }

  /** The bytes uploaded, in flight and buffered, in that order, are the file up to `nextOffset`. */
  ghost predicate Flow(file: seq<byte>, drivers: seq<Driver>, t: Transfer) {
    && Held(file, Uploaded(t.parts) + InFlight(drivers), t)
    && t.nextOffset !in t.segments
    && PartsOk(t.parts, t.nextPartNumber)
    && (|drivers| == 1 ==> DriverOk(file, t, drivers[0]))
  }

  ghost predicate Sound(file: seq<byte>, s: System, partSize: int) {
    && OneDriver(s, partSize)
    && Flow(file, s.drivers, s.t)
    && (!s.overLimit ==> s.t.pendingBytes <= 2 * partSize)
    && (forall ob :: ob in s.objects ==> PrefixObject(file, ob))
    && (forall lc :: lc in s.lateCompletes ==> PrefixList(file, lc.0, lc.1))
  }

  lemma DeliverFlow(file: seq<byte>, s: System, p: Chunk, partSize: int)
    requires Sound(file, s, partSize) && PieceOf(file, p.offset, p.payload) && 0 < partSize
    ensures var (h, ok) := ChunkAccepted(NoteChunk(s.t, p), p.offset, p.payload, 2 * partSize);
      && Flow(file, s.drivers, h) && h.uploading == s.t.uploading
      && (ok && !s.overLimit ==> h.pendingBytes <= 2 * partSize)
      && (!ok && !HasUploadWork(s.t, partSize) ==> !HasUploadWork(h, partSize))
  {
    AcceptHeld(file, Uploaded(s.t.parts) + InFlight(s.drivers), s.t, p, 2 * partSize);
  }

  lemma ElectSound(file: seq<byte>, s: System, h: Transfer, ok: bool, partSize: int)
    requires Sound(file, s, partSize) && 0 < partSize
    requires Flow(file, s.drivers, h) && h.uploading == s.t.uploading
    requires ok && !s.overLimit ==> h.pendingBytes <= 2 * partSize
    requires !ok && !HasUploadWork(s.t, partSize) ==> !HasUploadWork(h, partSize)
    ensures var (t, drive, _) := Elect(h, ok, partSize);
      Sound(file, s.(t := t, drivers := if drive then s.drivers + [AtNext] else s.drivers,
                     overLimit := s.overLimit || !ok), partSize)
  {
  }

  lemma DeliverSound(file: seq<byte>, s: System, p: Chunk, partSize: int)
    requires Sound(file, s, partSize) && PieceOf(file, p.offset, p.payload) && 0 < partSize
    ensures Sound(file, AfterDeliver(s, p, partSize), partSize)
  {
    DeliverFlow(file, s, p, partSize);
    var (h, ok) := ChunkAccepted(NoteChunk(s.t, p), p.offset, p.payload, 2 * partSize);
    ElectSound(file, s, h, ok, partSize);
  }

  lemma NumbersOrdered(parts: seq<UploadedPart>)
    requires PartsOk(parts, |parts| + 1)
    ensures SortByNumber(Listed(parts)) == Listed(parts)
    ensures forall i :: 0 <= i < |parts| ==> Listed(parts)[i].number == i + 1
  {
    forall i | 0 <= i < |parts|
      ensures Listed(parts)[i].number == i + 1
    {
      assert PartOk(parts, i);
    }
    SortKeepsOrdered(Listed(parts));
  }

  lemma ReserveSound(file: seq<byte>, s: System, n: int, partSize: int)
    requires Sound(file, s, partSize) && s.drivers == [AtNext] && 0 < n <= |s.t.buffer|
    ensures var (t, op) := ReservePart(s.t, n); Sound(file, s.(t := t, drivers := [Putting(op)]), partSize)
  {
    var (t, op) := ReservePart(s.t, n);
    var pre := Uploaded(s.t.parts);
    assert pre + [] == pre;
    assert pre + op.payload + t.buffer == pre + s.t.buffer;
  }

  lemma CompletingSound(file: seq<byte>, s: System, partSize: int)
    requires Sound(file, s, partSize) && s.drivers == [AtNext] && s.t.buffer == [] && ReadyToComplete(s.t)
    ensures Sound(file, s.(drivers := [Completing(SortByNumber(Listed(s.t.parts)), s.t.totalSize)]), partSize)
  {
    NumbersOrdered(s.t.parts);
    var pre := Uploaded(s.t.parts);
    assert pre + [] == pre && pre + [] + [] == pre;
  }

  lemma NextSound(file: seq<byte>, s: System, i: nat, partSize: int)
    requires Sound(file, s, partSize) && Enabled(s, Next(i)) && 0 < partSize
    ensures Sound(file, AfterNext(s, i, partSize), partSize)
  {
    assert s.drivers == [AtNext];
    if |s.t.buffer| >= partSize {
      ReserveSound(file, s, partSize, partSize);
    } else if ReadyToComplete(s.t) {
      if |s.t.buffer| > 0 {
        ReserveSound(file, s, |s.t.buffer|, partSize);
      } else {
        CompletingSound(file, s, partSize);
      }
    }
  }

  lemma PartsSnoc(parts: seq<UploadedPart>, part: UploadedPart)
    requires PartsOk(parts, part.number) && |part.etag.content| > 0
    requires part.start == EndOf(parts) && part.end == part.start + |part.etag.content|
    ensures PartsOk(parts + [part], part.number + 1)
  {
    UploadedSnoc(parts, part);
    var more := parts + [part];
    forall i | 0 <= i < |more|
      ensures PartOk(more, i)
    {
      if i < |parts| {
        assert PartOk(parts, i);
        assert more[..i] == parts[..i];
      } else {
        assert more[..i] == parts;
      }
    }
  }

  lemma PutRecorded(file: seq<byte>, s: System, i: nat, partSize: int)
    requires Sound(file, s, partSize) && Enabled(s, FinishPut(i)) && 0 < partSize && s.drivers[i].ok
    ensures Sound(file, AfterFinishPut(s, i), partSize)
  {
    var op, pre := s.drivers[i].op, Uploaded(s.t.parts);
    var part := UploadedPart(op.number, ETag(op.payload), op.start, op.start + |op.payload|);
    UploadedSnoc(s.t.parts, part);
    PartsSnoc(s.t.parts, part);
    assert pre + op.payload + [] == pre + op.payload;
  }

  lemma PutReturned(file: seq<byte>, s: System, i: nat, partSize: int)
    requires Sound(file, s, partSize) && Enabled(s, FinishPut(i)) && 0 < partSize && !s.drivers[i].ok
    ensures Sound(file, AfterFinishPut(s, i), partSize)
  {
    var op, pre := s.drivers[i].op, Uploaded(s.t.parts);
    assert pre + [] + (op.payload + s.t.buffer) == pre + op.payload + s.t.buffer;
  }

  lemma FinishPutSound(file: seq<byte>, s: System, i: nat, partSize: int)
    requires Sound(file, s, partSize) && Enabled(s, FinishPut(i)) && 0 < partSize
    ensures Sound(file, AfterFinishPut(s, i), partSize)
  {
    if s.drivers[i].ok {
      PutRecorded(file, s, i, partSize);
    } else {
      PutReturned(file, s, i, partSize);
    }
  }

  lemma PutSound(file: seq<byte>, s: System, i: nat, ok: bool, partSize: int)
    requires Sound(file, s, partSize) && Enabled(s, Put(i, ok)) && 0 < partSize
    ensures Sound(file, AfterPut(s, i, ok), partSize)
  {
  }

  lemma CompleteSound(file: seq<byte>, s: System, i: nat, ok: bool, partSize: int)
    requires Sound(file, s, partSize) && Enabled(s, Complete(i, ok)) && 0 < partSize
    ensures Sound(file, AfterComplete(s, i, ok), partSize)
  {
    if ok {
      AssembledPrefix(file, s.remote, s.drivers[i].listed, s.drivers[i].total);
    }
  }

  lemma AssembledPrefix(file: seq<byte>, remote: map<int, seq<byte>>, listed: seq<CompletePart>, total: int)
    requires Matches(remote, listed) && PrefixList(file, listed, total)
    ensures PrefixObject(file, Assembled(remote, listed, total))
  {
    assert Assembled(remote, listed, total).parts == Contents(listed);
  }

  lemma StepSound(file: seq<byte>, s: System, e: Event, partSize: int)
    requires Sound(file, s, partSize) && Enabled(s, e) && 0 < partSize
    requires e.Deliver? ==> PieceOf(file, e.p.offset, e.p.payload)
    ensures Sound(file, Step(s, e, partSize), partSize)
  {
    match e
    case Deliver(p) => DeliverSound(file, s, p, partSize);
    case Next(i) => NextSound(file, s, i, partSize);
    case Put(i, ok) => PutSound(file, s, i, ok, partSize);
    case LatePut(_, _) =>
    case FinishPut(i) => FinishPutSound(file, s, i, partSize);
    case Complete(i, ok) => CompleteSound(file, s, i, ok, partSize);
    case LateComplete(listed, total) => AssembledPrefix(file, s.remote, listed, total);
    case FinishCompleting(i) =>
  }

  /** Every delivered chunk is a piece of the one file being sent. */
  ghost predicate OfFile(r: Run, file: seq<byte>) {
    forall k :: 0 <= k < |r.events| && r.events[k].Deliver? ==>
      PieceOf(file, r.events[k].p.offset, r.events[k].p.payload)
  }

  /** In every interleaving the transfer holds, in order, exactly a prefix of the file. */
  lemma {:induction false} EveryRunSound(r: Run, file: seq<byte>)
    requires Possible(r) && OfFile(r, file)
    ensures Sound(file, After(r), r.partSize)
    decreases |r.events|
  {
    if r.events == [] {
      assert Contents(Listed([])) == [];
      assert SumLengths<byte>(map[]) == 0;
    } else {
      EveryRunSound(Before(r), file);
      StepSound(file, After(Before(r)), LastEvent(r), r.partSize);
    }
  }

  /** Whatever the store ever assembles is a prefix of the file, in parts numbered from 1, and
      reaches the known size; with the true size known it is the file. */
  lemma CompletedObjectsAreTheFile(r: Run, file: seq<byte>, ob: Object)
    requires Possible(r) && OfFile(r, file) && ob in After(r).objects
    ensures Concat(ob.parts) <= file
    ensures forall i :: 0 <= i < |ob.listed| ==> ob.listed[i].number == i + 1
    ensures ob.total > 0 ==> ob.total <= |Concat(ob.parts)|
    ensures ob.total == |file| > 0 ==> Concat(ob.parts) == file
  {
    EveryRunSound(r, file);
  }

  /** In every interleaving, failures included: at most one driver, no part or completion left
      waiting behind an idle one, parked bytes counted exactly and within the limit until a chunk
      was refused for it, and the bytes uploaded, in flight and buffered are the file so far. */
  lemma SingleDriverNoLostWork(r: Run, file: seq<byte>)
    requires Possible(r) && OfFile(r, file)
    ensures var s := After(r);
            && |s.drivers| <= 1 && (s.t.uploading <==> |s.drivers| == 1)
            && (!s.t.uploading && s.lastExit.Idle? ==> !HasUploadWork(s.t, r.partSize))
            && s.t.pendingBytes == SumLengths(s.t.segments)
            && (!s.overLimit ==> s.t.pendingBytes <= 2 * r.partSize)
            && 0 <= s.t.nextOffset <= |file|
            && Uploaded(s.t.parts) + InFlight(s.drivers) + s.t.buffer == file[..s.t.nextOffset]
  {
    EveryRunSound(r, file);
  }
}
