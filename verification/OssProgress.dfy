/**
 * Progress of an OSS transfer: the driver always finishes, and when uploads succeed and every
 * chunk has arrived the object has been completed.  An empty file shows that delivery really
 * depends on there being a byte to deliver.
 */
module OssProgress {
  import opened Bytes
  import opened Ranges
  import opened OssTransfer
  import opened OssRuns
  import opened OssDelivery

  // The driver finishes

  function Weight(d: Driver): nat {
    match d
    case AtNext => 3
    case Putting(op) => 2 + if op.OpPart? then 3 * |op.payload| else 0
    case PutDone(op, _) => 1 + if op.OpPart? then 3 * |op.payload| else 0
    case Completing(_, _) => 2
    case CompleteDone(_) => 1
  }

  /** Work left for the driver: unreserved and in-flight bytes, then its position in the loop. */
  function Work(s: System): nat {
    if |s.drivers| == 1 then 3 * |s.t.buffer| + Weight(s.drivers[0]) else 3 * |s.t.buffer|
  }

  predicate IsDriverStep(e: Event) {
    e.Next? || e.Put? || e.FinishPut? || e.Complete? || e.FinishCompleting?
  }

  /** Every step of the driver, successful or not, leaves less work: the loop cannot run forever. */
  lemma DriverStepDecreases(file: seq<byte>, s: System, e: Event, partSize: int)
    requires Sound(file, s, partSize) && 0 < partSize && Enabled(s, e) && IsDriverStep(e)
    ensures Work(Step(s, e, partSize)) < Work(s)
  {
    assert |s.drivers| == 1 && DriverOk(file, s.t, s.drivers[0]);
    match e
    case Next(_) => NextDecreases(s, partSize);
    case Put(_, ok) => PutDecreases(s, ok);
    case FinishPut(_) => FinishPutDecreases(s);
    case Complete(_, ok) =>
    case FinishCompleting(_) =>
  }

  lemma NextDecreases(s: System, partSize: int)
    requires s.drivers == [AtNext] && 0 < partSize
    ensures Work(AfterNext(s, 0, partSize)) < Work(s)
  {
    var op := NextOperation(s.t, partSize).1;
    if op.OpPart? {
      var n := |op.payload|;
      assert |NextOperation(s.t, partSize).0.buffer| == |s.t.buffer| - n;
    }
  }

  lemma PutDecreases(s: System, ok: bool)
    requires |s.drivers| == 1 && Enabled(s, Put(0, ok))
    ensures Work(AfterPut(s, 0, ok)) < Work(s)
  {
  }

  lemma FinishPutDecreases(s: System)
    requires |s.drivers| == 1 && Enabled(s, FinishPut(0)) && |s.drivers[0].op.payload| > 0
    ensures Work(AfterFinishPut(s, 0)) < Work(s)
  {
  }

  // When uploads succeed

  predicate Succeeds(e: Event) {
    (e.Put? ==> e.ok) && (e.Complete? ==> e.ok)
  }

  predicate AllSucceed(events: seq<Event>) {
    forall k :: 0 <= k < |events| ==> Succeeds(events[k])
  }

  ghost predicate DriverStored(s: System, d: Driver) {
    && (d.PutDone? ==> d.op.OpPart? && d.ok && d.op.number in s.remote && s.remote[d.op.number] == d.op.payload)
    && (d.CompleteDone? ==> d.ok && s.objects != [])
  }

  /** The store holds every recorded part, and nothing is outstanding. */
  ghost predicate Stored(s: System) {
    && s.latePuts == {} && s.lateCompletes == {}
    && Matches(s.remote, Listed(s.t.parts))
    && (|s.drivers| == 1 ==> DriverStored(s, s.drivers[0]))
    && (s.lastExit.Idle? || s.lastExit.Finished?)
    && (s.lastExit.Finished? ==> s.objects != [])
  }

  lemma DeliverStored(file: seq<byte>, s: System, p: Chunk, partSize: int)
    requires Sound(file, s, partSize) && 0 < partSize && Stored(s) && PieceOf(file, p.offset, p.payload)
    ensures Stored(AfterDeliver(s, p, partSize))
  {
    AcceptHeld(file, Uploaded(s.t.parts) + InFlight(s.drivers), s.t, p, 2 * partSize);
  }

  lemma PutStored(file: seq<byte>, s: System, i: nat, partSize: int)
    requires Sound(file, s, partSize) && 0 < partSize && Stored(s) && Enabled(s, Put(i, true))
    ensures Stored(AfterPut(s, i, true))
  {
    forall k | 0 <= k < |s.t.parts|
      ensures s.t.parts[k].number != s.drivers[i].op.number
    {
      assert PartOk(s.t.parts, k);
    }
  }

  lemma MatchesSnoc(remote: map<int, seq<byte>>, parts: seq<UploadedPart>, part: UploadedPart)
    requires Matches(remote, Listed(parts)) && part.number in remote && remote[part.number] == part.etag.content
    ensures Matches(remote, Listed(parts + [part]))
  {
    assert Listed(parts + [part]) == Listed(parts) + [CompletePart(part.number, part.etag)];
  }

  lemma FinishPutStored(s: System, i: nat)
    requires |s.drivers| == 1 && Stored(s) && Enabled(s, FinishPut(i))
    ensures Stored(AfterFinishPut(s, i))
  {
    var op := s.drivers[0].op;
    assert s.drivers[0].ok;
    MatchesSnoc(s.remote, s.t.parts, UploadedPart(op.number, ETag(op.payload), op.start, op.start + |op.payload|));
  }

  lemma NextStored(file: seq<byte>, s: System, i: nat, partSize: int)
    requires Sound(file, s, partSize) && 0 < partSize && Stored(s) && Enabled(s, Next(i))
    ensures Stored(AfterNext(s, i, partSize))
  {
    NextKeepsParts(s.t, partSize);
    assert s.drivers == [AtNext];
  }

  lemma NextKeepsParts(t: Transfer, partSize: int)
    requires 0 < partSize
    ensures NextOperation(t, partSize).0.parts == t.parts
  {
  }

  lemma StepStored(file: seq<byte>, s: System, e: Event, partSize: int)
    requires Sound(file, s, partSize) && 0 < partSize && Stored(s) && Enabled(s, e) && Succeeds(e)
    requires e.Deliver? ==> PieceOf(file, e.p.offset, e.p.payload)
    ensures Stored(Step(s, e, partSize))
  {
    match e
    case Deliver(p) => DeliverStored(file, s, p, partSize);
    case Next(i) => NextStored(file, s, i, partSize);
    case Put(i, ok) => PutStored(file, s, i, partSize);
    case LatePut(_, _) =>
    case FinishPut(i) => FinishPutStored(s, i);
    case Complete(i, ok) => CompleteStored(s, i, ok);
    case LateComplete(_, _) =>
    case FinishCompleting(i) => LeaveStored(s, i);
  }

  lemma CompleteStored(s: System, i: nat, ok: bool)
    requires |s.drivers| == 1 && Stored(s) && Enabled(s, Complete(i, ok)) && ok
    ensures Stored(AfterComplete(s, i, ok))
  {
  }

  lemma LeaveStored(s: System, i: nat)
    requires |s.drivers| == 1 && Stored(s) && Enabled(s, FinishCompleting(i))
    ensures Stored(Leave(s.(t := FinishComplete(s.t)), i, Finished))
  {
  }

  lemma {:induction false} EveryGoodRunStored(r: Run, file: seq<byte>)
    requires Possible(r) && OfFile(r, file) && AllSucceed(r.events)
    ensures Stored(After(r))
    decreases |r.events|
  {
    if r.events != [] {
      EveryRunSound(Before(r), file);
      EveryGoodRunStored(Before(r), file);
      StepStored(file, After(Before(r)), LastEvent(r), r.partSize);
    }
  }

  /** A driver that is running always has a successful step to take. */
  lemma NextDriverStep(file: seq<byte>, s: System, partSize: int) returns (e: Event)
    requires Sound(file, s, partSize) && Stored(s) && |s.drivers| == 1
    ensures IsDriverStep(e) && Succeeds(e) && Enabled(s, e)
  {
    match s.drivers[0]
    case AtNext => e := Next(0);
    case Putting(_) => e := Put(0, true);
    case PutDone(_, _) => e := FinishPut(0);
    case Completing(_, _) => e := Complete(0, true);
    case CompleteDone(_) => e := FinishCompleting(0);
  }

  function Then(r: Run, e: Event): Run {
    r.(events := r.events + [e])
  }

  lemma Extended(r: Run, e: Event)
    requires Possible(r) && Canonical(After(r).t.ranges) && Enabled(After(r), e)
    ensures Possible(Then(r, e)) && After(Then(r, e)) == Step(After(r), e, r.partSize)
  {
    assert Before(Then(r, e)) == r;
  }

  /** `longer` continues `r` by successful driver steps only. */
  ghost predicate Driven(r: Run, longer: Run) {
    && longer.totalSize == r.totalSize && longer.partSize == r.partSize
    && r.events <= longer.events
    && (forall k :: |r.events| <= k < |longer.events| ==> IsDriverStep(longer.events[k]) && Succeeds(longer.events[k]))
  }

  lemma DrivenOneMore(r: Run, mid: Run, e: Event)
    requires Driven(r, mid) && IsDriverStep(e) && Succeeds(e)
    ensures Driven(r, Then(mid, e))
  {
  }

  lemma DrivenOn(r: Run, mid: Run, longer: Run)
    requires Driven(r, mid) && Driven(mid, longer)
    ensures Driven(r, longer)
  {
  }

  /** One successful driver step. */
  lemma Drive(r: Run, e: Event) returns (longer: Run)
    requires Possible(r) && Canonical(After(r).t.ranges) && Enabled(After(r), e) && IsDriverStep(e) && Succeeds(e)
    ensures Possible(longer) && Driven(r, longer) && After(longer) == Step(After(r), e, r.partSize)
  {
    Extended(r, e);
    longer := Then(r, e);
  }

  lemma DrivenGood(r: Run, longer: Run, file: seq<byte>)
    requires Driven(r, longer)
    ensures OfFile(r, file) ==> OfFile(longer, file)
    ensures AllSucceed(r.events) ==> AllSucceed(longer.events)
  {
  }

  lemma DriverKeepsLimit(s: System, e: Event, partSize: int)
    requires Enabled(s, e) && Canonical(s.t.ranges) && 0 < partSize && IsDriverStep(e)
    ensures Step(s, e, partSize).overLimit == s.overLimit
  {
  }

  /** From any point of a good run the driver alone reaches the end of its loop. */
  lemma {:induction false} DriveToEnd(r: Run, mid: Run, file: seq<byte>) returns (done: Run)
    requires Possible(r) && OfFile(r, file) && AllSucceed(r.events)
    requires Possible(mid) && Driven(r, mid)
    ensures Possible(done) && Driven(r, done) && |done.events| <= |mid.events| + Work(After(mid))
    ensures After(done).drivers == [] && After(done).overLimit == After(mid).overLimit
    decreases Work(After(mid))
  {
    DrivenGood(r, mid, file);
    EveryRunSound(mid, file);
    var s := After(mid);
    if s.drivers == [] {
      return mid;
    }
    EveryGoodRunStored(mid, file);
    var e := NextDriverStep(file, s, mid.partSize);
    DriverStepDecreases(file, s, e, mid.partSize);
    DriverKeepsLimit(s, e, mid.partSize);
    Extended(mid, e);
    DrivenOneMore(r, mid, e);
    done := DriveToEnd(r, Then(mid, e), file);
  }

  /** Once every chunk has been accepted within the pending limit, a transfer with no driver left
      has been completed, and what was completed is the whole file in full-sized parts. */
  lemma Delivered(r: Run, file: seq<byte>, ends: map<int, int>)
    requires Possible(r) && OverCut(r, file, ends) && AllSucceed(r.events)
    requires SeenBy(r.events) == ends.Keys && !After(r).overLimit && After(r).drivers == []
    ensures After(r).objects != []
    ensures forall ob :: ob in After(r).objects ==> WholeObject(file, r.partSize, ob)
  {
    EveryRunSound(r, file);
    EveryCutRun(r, file, ends);
    EveryGoodRunStored(r, file);
    AllSeenIsReady(ends, |file|, ends.Keys, After(r).t);
  }

  lemma {:induction false} SeenByDriverSteps(a: seq<Event>, b: seq<Event>)
    requires a <= b && forall k :: |a| <= k < |b| ==> IsDriverStep(b[k])
    ensures SeenBy(b) == SeenBy(a)
    decreases |b|
  {
    if |a| == |b| {
      assert a == b;
    } else {
      SeenByDriverSteps(a, b[..|b| - 1]);
    }
  }

  /** Whenever the last missing chunk has arrived, letting the driver run on delivers the file. */
  lemma EventuallyDelivered(r: Run, file: seq<byte>, ends: map<int, int>) returns (done: Run)
    requires Possible(r) && OverCut(r, file, ends) && AllSucceed(r.events)
    requires SeenBy(r.events) == ends.Keys && !After(r).overLimit
    ensures Possible(done) && Driven(r, done) && |done.events| <= |r.events| + Work(After(r))
    ensures After(done).drivers == [] && After(done).objects != []
    ensures forall ob :: ob in After(done).objects ==> WholeObject(file, r.partSize, ob)
  {
    done := DriveToEnd(r, r, file);
    DrivenGood(r, done, file);
    SeenByDriverSteps(r.events, done.events);
    Delivered(done, file, ends);
  }

  // An empty file

  ghost predicate NothingHeld(s: System) {
    && s.t.ranges == [] && s.t.buffer == [] && s.t.nextOffset == 0 && s.t.segments == map[]
    && s.drivers == [] && s.objects == [] && s.lateCompletes == {}
  }

  lemma NothingHeldStep(s: System, e: Event, partSize: int)
    requires NothingHeld(s) && Canonical(s.t.ranges) && 0 < partSize && Enabled(s, e)
    requires e.Deliver? ==> e.p.payload == [] && e.p.offset == 0
    ensures NothingHeld(Step(s, e, partSize))
  {
  }

  /** An empty file is never completed: its chunks cover no range, so the transfer is never ready. */
  lemma {:induction false} EmptyFileNeverCompletes(r: Run)
    requires Possible(r) && OfFile(r, [])
    ensures NothingHeld(After(r))
    decreases |r.events|
  {
    if r.events != [] {
      EmptyFileNeverCompletes(Before(r));
      NothingHeldStep(After(Before(r)), LastEvent(r), r.partSize);
    }
  }
}
