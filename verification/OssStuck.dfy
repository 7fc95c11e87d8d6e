/** When a transfer that has received every byte is not ready, and stays so for good. */
module OssStuck {
  import opened Bytes
  import opened Ranges
  import opened OssTransfer
  import opened OssRuns
  import opened OssDelivery
  import opened OssUnknownSize

  /** A parked segment the contiguous prefix has gone past: it will never be drained. */
  ghost predicate Stale(t: Transfer) {
    exists o :: o in t.segments && o < t.nextOffset
  }

  ghost predicate InSegment(t: Transfer, x: int) {
    exists o :: o in t.segments && o <= x < o + |t.segments[o]|
  }

  /** Every received byte is in the prefix or parked. */
  ghost predicate NoneIgnored(t: Transfer) {
    forall x :: Covers(t.ranges, x) ==> x < t.nextOffset || InSegment(t, x)
  }

  /** All bytes and EOF have been received, and the size is known right or not at all. */
  ghost predicate AllReceived(file: seq<byte>, t: Transfer) {
    && CoversAll(t.ranges, 0, |file|) && Inside(t.ranges, |file|) && t.eofSeen
    && (t.totalSize <= 0 || t.totalSize == |file|)
  }

  lemma ReceivedRange(file: seq<byte>, pre: seq<byte>, t: Transfer)
    requires Held(file, pre, t) && AllReceived(file, t) && file != []
    ensures t.ranges == [FileRange(0, |file|)] && t.coveredBytes == |file|
  {
    CoversPrefix(t.ranges, |file|);
  }

  /** A byte missing from the prefix although it was received is parked behind it. */
  lemma GapIsStale(file: seq<byte>, t: Transfer)
    requires 0 <= t.nextOffset && t.nextOffset !in t.segments && AllReceived(file, t) && NoneIgnored(t)
    ensures t.nextOffset < |file| ==> Stale(t)
  {
    if t.nextOffset < |file| {
      assert Covers(t.ranges, t.nextOffset);
      var o :| o in t.segments && o <= t.nextOffset < o + |t.segments[o]|;
      assert o in t.segments && o < t.nextOffset;
    }
  }

  lemma NothingParked(file: seq<byte>, pre: seq<byte>, t: Transfer)
    requires Held(file, pre, t) && t.nextOffset !in t.segments && AllReceived(file, t) && !Stale(t) && NoneIgnored(t)
    ensures t.nextOffset == |file| && t.segments == map[]
  {
    GapIsStale(file, t);
    assert forall o :: o in t.segments ==> PieceOf(file, o, t.segments[o]) && t.nextOffset < o;
  }

  /** With the size known, a transfer that has received everything is ready if and only if no parked
      segment is behind the prefix and no received byte was ignored. */
  lemma ReadyExactly(file: seq<byte>, pre: seq<byte>, t: Transfer)
    requires Held(file, pre, t) && t.nextOffset !in t.segments && AllReceived(file, t)
    requires t.totalSize == |file| > 0
    ensures ReadyToComplete(t) <==> !Stale(t) && NoneIgnored(t)
  {
    ReceivedRange(file, pre, t);
    if !Stale(t) && NoneIgnored(t) {
      NothingParked(file, pre, t);
    }
  }

  // Chunks that are always cut the same

  predicate SameCut(d: Event, e: Event) {
    d.Deliver? && e.Deliver? && d.p.offset == e.p.offset ==> |d.p.payload| == |e.p.payload|
  }

  /** A chunk sent again at one offset is the same chunk. */
  predicate SameCuts(r: Run) {
    forall j, k :: 0 <= j < |r.events| && 0 <= k < |r.events| ==> SameCut(r.events[j], r.events[k])
  }

  predicate SizesRight(r: Run, file: seq<byte>) {
    && (r.totalSize <= 0 || r.totalSize == |file|)
    && forall k :: 0 <= k < |r.events| && r.events[k].Deliver? ==>
         r.events[k].p.totalSize <= 0 || r.events[k].p.totalSize == |file|
  }

  predicate Delivers(e: Event, o: int, n: nat) {
    e.Deliver? && e.p.offset == o && |e.p.payload| == n
  }

  ghost predicate Delivered(events: seq<Event>, o: int, n: nat) {
    exists k :: 0 <= k < |events| && Delivers(events[k], o, n)
  }

  /** Each parked segment has the length of a chunk of the run. */
  ghost predicate ParkedDelivered(events: seq<Event>, t: Transfer) {
    forall o :: o in t.segments ==> Delivered(events, o, |t.segments[o]|)
  }

  lemma DeliveredLater(events: seq<Event>, e: Event, o: int, n: nat)
    ensures Delivered(events, o, n) ==> Delivered(events + [e], o, n)
    ensures Delivers(e, o, n) ==> Delivered(events + [e], o, n)
  {
    if Delivered(events, o, n) {
      var k :| 0 <= k < |events| && Delivers(events[k], o, n);
      assert (events + [e])[k] == events[k];
    }
    if Delivers(e, o, n) {
      assert (events + [e])[|events|] == e;
    }
  }

  lemma {:induction false} DrainPlaces(t: Transfer)
    requires NoneIgnored(t)
    ensures NoneIgnored(Drain(t)) && SameNotes(t, Drain(t))
    ensures forall o :: o in Drain(t).segments ==> o in t.segments && Drain(t).segments[o] == t.segments[o]
    decreases |t.segments|
  {
    if t.nextOffset in t.segments {
      MapShrinks(t.segments, t.nextOffset);
      TakePlaces(t);
      DrainPlaces(TakeNext(t));
    }
  }

  lemma TakePlaces(t: Transfer)
    requires NoneIgnored(t) && t.nextOffset in t.segments
    ensures NoneIgnored(TakeNext(t))
  {
    var u := TakeNext(t);
    forall x | Covers(u.ranges, x) && x >= u.nextOffset
      ensures InSegment(u, x)
    {
      var o :| o in t.segments && o <= x < o + |t.segments[o]|;
      assert o in u.segments;
    }
  }

  /** The chunk is placed: behind the prefix, parked, or already parked in the same length. */
  lemma AcceptPlaces(t0: Transfer, t: Transfer, p: Chunk, limit: int)
    requires NoneIgnored(t0) && t.segments == t0.segments && t.nextOffset == t0.nextOffset
    requires forall x :: Covers(t.ranges, x) <==> Covers(t0.ranges, x) || p.offset <= x < p.offset + |p.payload|
    requires p.offset in t.segments ==> |t.segments[p.offset]| == |p.payload|
    ensures var (h, _) := ChunkAccepted(t, p.offset, p.payload, limit);
      && NoneIgnored(h)
      && (forall o :: o in h.segments ==> (o in t.segments && h.segments[o] == t.segments[o]) || (o == p.offset && h.segments[o] == p.payload))
  {
    if p.offset + |p.payload| <= t.nextOffset {
      SegmentsStay(t0, t);
    } else if p.offset == t.nextOffset {
      var v := Append(t, p.payload);
      SegmentsStay(t0, v);
      DrainPlaces(v);
    } else if p.offset in t.segments {
      SegmentsStay(t0, t);
      assert forall x :: p.offset <= x < p.offset + |p.payload| ==> InSegment(t, x);
    } else {
      ParkPlaces(t0, t, p);
    }
  }

  lemma SegmentsStay(t: Transfer, u: Transfer)
    requires u.segments == t.segments
    ensures forall x :: InSegment(t, x) <==> InSegment(u, x)
  {
    forall x
      ensures InSegment(t, x) <==> InSegment(u, x)
    {
      if InSegment(t, x) {
        var o :| o in t.segments && o <= x < o + |t.segments[o]|;
        assert o in u.segments;
      }
      if InSegment(u, x) {
        var o :| o in u.segments && o <= x < o + |u.segments[o]|;
        assert o in t.segments;
      }
    }
  }

  lemma ParkPlaces(t0: Transfer, t: Transfer, p: Chunk)
    requires NoneIgnored(t0) && t.segments == t0.segments && t.nextOffset == t0.nextOffset && p.offset !in t.segments
    requires forall x :: Covers(t.ranges, x) <==> Covers(t0.ranges, x) || p.offset <= x < p.offset + |p.payload|
    ensures NoneIgnored(Park(t, p.offset, p.payload))
  {
    var h := Park(t, p.offset, p.payload);
    assert p.offset in h.segments;
    forall x | Covers(h.ranges, x) && x >= h.nextOffset
      ensures InSegment(h, x)
    {
      if !(p.offset <= x < p.offset + |p.payload|) {
        var o :| o in t0.segments && o <= x < o + |t0.segments[o]|;
        assert o in h.segments;
      }
    }
  }

  ghost predicate Kept(r: Run, file: seq<byte>)
    requires Possible(r)
  {
    var t := After(r).t;
    NoneIgnored(t) && ParkedDelivered(r.events, t) && (t.totalSize <= 0 || t.totalSize == |file|)
  }

  lemma LastDeliver(r: Run, file: seq<byte>)
    requires Possible(r) && r.events != [] && LastEvent(r).Deliver? && Kept(Before(r), file)
    requires SameCuts(r) && SizesRight(r, file)
    ensures Kept(r, file)
  {
    var s, p := After(Before(r)), LastEvent(r).p;
    var noted := NoteChunk(s.t, p);
    AddCovers(s.t.ranges, p.offset, p.offset + |p.payload|);
    ParkedSame(r, s.t, p);
    AcceptPlaces(s.t, noted, p, 2 * r.partSize);
    var h := ChunkAccepted(noted, p.offset, p.payload, 2 * r.partSize).0;
    ParkedGrow(Before(r).events, LastEvent(r), s.t, h);
    assert r.events == Before(r).events + [LastEvent(r)];
    AcceptSize(s.t, p, 2 * r.partSize);
  }

  lemma AcceptSize(t: Transfer, p: Chunk, limit: int)
    requires Canonical(t.ranges)
    ensures ChunkAccepted(NoteChunk(t, p), p.offset, p.payload, limit).0.totalSize == NoteChunk(t, p).totalSize
  {
    var u := NoteChunk(t, p);
    if p.offset == u.nextOffset {
      DrainSize(Append(u, p.payload));
    }
  }

  lemma {:induction false} DrainSize(t: Transfer)
    ensures Drain(t).totalSize == t.totalSize
    decreases |t.segments|
  {
    if t.nextOffset in t.segments {
      MapShrinks(t.segments, t.nextOffset);
      DrainSize(TakeNext(t));
    }
  }

  lemma ParkedSame(r: Run, t: Transfer, p: Chunk)
    requires r.events != [] && LastEvent(r) == Deliver(p) && SameCuts(r) && ParkedDelivered(Before(r).events, t)
    ensures p.offset in t.segments ==> |t.segments[p.offset]| == |p.payload|
  {
    if p.offset in t.segments {
      var k :| 0 <= k < |Before(r).events| && Delivers(Before(r).events[k], p.offset, |t.segments[p.offset]|);
      assert SameCut(r.events[k], r.events[|r.events| - 1]) && r.events[k] == Before(r).events[k];
    }
  }

  lemma ParkedGrow(events: seq<Event>, e: Event, t: Transfer, h: Transfer)
    requires e.Deliver? && ParkedDelivered(events, t)
    requires forall o :: o in h.segments ==>
      (o in t.segments && h.segments[o] == t.segments[o]) || (o == e.p.offset && h.segments[o] == e.p.payload)
    ensures ParkedDelivered(events + [e], h)
  {
    forall o | o in h.segments
      ensures Delivered(events + [e], o, |h.segments[o]|)
    {
      DeliveredLater(events, e, o, |h.segments[o]|);
    }
  }

  lemma LastOther(r: Run, file: seq<byte>)
    requires Possible(r) && r.events != [] && !LastEvent(r).Deliver? && Kept(Before(r), file)
    ensures Kept(r, file)
  {
    var s, e := After(Before(r)), LastEvent(r);
    DriverKeepsArrivals(s, e, r.partSize);
    SegmentsStay(s.t, After(r).t);
    assert r.events == Before(r).events + [e];
    forall o | o in After(r).t.segments
      ensures Delivered(r.events, o, |After(r).t.segments[o]|)
    {
      DeliveredLater(Before(r).events, e, o, |s.t.segments[o]|);
    }
  }

  lemma {:induction false} EveryRunKept(r: Run, file: seq<byte>)
    requires Possible(r) && SameCuts(r) && SizesRight(r, file)
    ensures Kept(r, file)
    decreases |r.events|
  {
    if r.events == [] {
      assert forall x :: !Covers([], x);
    } else {
      EveryRunKept(Before(r), file);
      if LastEvent(r).Deliver? {
        LastDeliver(r, file);
      } else {
        LastOther(r, file);
      }
    }
  }

  /** With chunks always cut the same, a run that has received every byte and EOF is ready to
      complete if and only if no parked segment is behind the contiguous prefix. */
  lemma StuckExactly(r: Run, file: seq<byte>)
    requires Possible(r) && OfFile(r, file) && EofOnlyAtEnd(r, file) && SameCuts(r) && SizesRight(r, file)
    requires file != [] && CoversAll(After(r).t.ranges, 0, |file|) && After(r).t.eofSeen
    ensures ReadyToComplete(After(r).t) <==> !Stale(After(r).t)
  {
    EveryRunSound(r, file);
    EveryRunReceived(r, file);
    EveryRunKept(r, file);
    var s := After(r);
    var pre := Uploaded(s.t.parts) + InFlight(s.drivers);
    ReceivedRange(file, pre, s.t);
    if !Stale(s.t) {
      NothingParked(file, pre, s.t);
    }
  }

  // For good

  lemma {:induction false} DrainStale(t: Transfer, o: int)
    requires o in t.segments && o < t.nextOffset
    ensures o in Drain(t).segments && o < Drain(t).nextOffset
    decreases |t.segments|
  {
    if t.nextOffset in t.segments {
      MapShrinks(t.segments, t.nextOffset);
      DrainStale(TakeNext(t), o);
    }
  }

  lemma AcceptStale(t: Transfer, p: Chunk, limit: int)
    requires Canonical(t.ranges) && Stale(t)
    ensures Stale(ChunkAccepted(NoteChunk(t, p), p.offset, p.payload, limit).0)
  {
    var u := NoteChunk(t, p);
    var o :| o in t.segments && o < t.nextOffset;
    assert o in u.segments && o < u.nextOffset;
    var h := ChunkAccepted(u, p.offset, p.payload, limit).0;
    if p.offset + |p.payload| > u.nextOffset && p.offset == u.nextOffset {
      DrainStale(Append(u, p.payload), o);
    }
    assert o in h.segments && o < h.nextOffset;
  }

  /** Stuck, and nothing is on its way to being completed. */
  ghost predicate NeverCompletes(s: System) {
    && Stale(s.t) && s.objects == [] && s.lateCompletes == {}
    && forall d :: d in s.drivers ==> !d.Completing?
  }

  lemma StaysStuck(s: System, e: Event, partSize: int)
    requires Enabled(s, e) && Canonical(s.t.ranges) && 0 < partSize && NeverCompletes(s)
    ensures NeverCompletes(Step(s, e, partSize))
  {
    if e.Deliver? {
      AcceptStale(s.t, e.p, 2 * partSize);
    } else {
      DriverKeepsArrivals(s, e, partSize);
      var t := Step(s, e, partSize).t;
      var o :| o in s.t.segments && o < s.t.nextOffset;
      assert o in t.segments && o < t.nextOffset;
      OtherStuck(s, e, partSize);
    }
  }

  lemma OtherStuck(s: System, e: Event, partSize: int)
    requires Enabled(s, e) && Canonical(s.t.ranges) && 0 < partSize && NeverCompletes(s) && !e.Deliver?
    ensures var u := Step(s, e, partSize);
      u.objects == [] && u.lateCompletes == {} && forall d :: d in u.drivers ==> !d.Completing?
  {
    if e.Next? {
      assert s.t.segments != map[];
    }
  }

  predicate ContinuesRun(r: Run, longer: Run) {
    longer.totalSize == r.totalSize && longer.partSize == r.partSize && r.events <= longer.events
  }

  /** Once stuck, whatever else arrives, however often it is sent again: nothing is ever completed. */
  lemma {:induction false} StuckForGood(r: Run, longer: Run)
    requires Possible(r) && NeverCompletes(After(r)) && Possible(longer) && ContinuesRun(r, longer)
    ensures NeverCompletes(After(longer)) && !ReadyToComplete(After(longer).t)
    decreases |longer.events|
  {
    if |longer.events| == |r.events| {
      assert longer == r;
    } else {
      StuckForGood(r, Before(longer));
      StaysStuck(After(Before(longer)), LastEvent(longer), longer.partSize);
    }
  }

  // An overlap that gets stuck

  const FILE: seq<byte> := [1, 2, 3, 4]

  function Overlapping(): Run {
    Run(4, 10, [Deliver(Chunk(2, [3, 4], 4, true)), Deliver(Chunk(0, [1, 2, 3], 4, false))])
  }

  lemma TailNoted()
    ensures NoteChunk(Fresh(4), Chunk(2, [3, 4], 4, true)) ==
      Fresh(4).(eofSeen := true, ranges := [FileRange(2, 4)], coveredBytes := 2)
  {
    assert Add([], 2, 4) == [FileRange(2, 4)];
    assert [FileRange(2, 4)][..0] == [];
  }

  /** After the tail: it is parked. */
  function TailParked(): Transfer {
    Fresh(4).(eofSeen := true, ranges := [FileRange(2, 4)], coveredBytes := 2, segments := map[2 := [3, 4]], pendingBytes := 2)
  }

  lemma TailArrives()
    ensures var r := Run(4, 10, [Deliver(Chunk(2, [3, 4], 4, true))]);
      Possible(r) && After(r) == Init(4).(t := TailParked())
  {
    TailNoted();
    var r := Run(4, 10, [Deliver(Chunk(2, [3, 4], 4, true))]);
    assert Before(r) == Run(4, 10, []);
    assert map[][2 := [3 as byte, 4]] == map[2 := [3, 4]];
    assert PacketAccepted(Fresh(4), Chunk(2, [3, 4], 4, true), 20, 10) == (TailParked(), false, true);
  }

  lemma HeadNoted()
    ensures NoteChunk(TailParked(), Chunk(0, [1, 2, 3], 4, false)) ==
      TailParked().(ranges := [FileRange(0, 4)], coveredBytes := 4)
  {
    assert [FileRange(2, 4)][1..] == [];
    assert Add([FileRange(2, 4)], 0, 3) == [FileRange(0, 4)];
    assert [FileRange(0, 4)][..0] == [];
  }

  function HeadTaken(): Transfer {
    TailParked().(ranges := [FileRange(0, 4)], coveredBytes := 4, nextOffset := 3, buffer := [1, 2, 3])
  }

  lemma HeadArrives()
    ensures PacketAccepted(TailParked(), Chunk(0, [1, 2, 3], 4, false), 20, 10) == (HeadTaken(), false, true)
  {
    HeadNoted();
    var noted := NoteChunk(TailParked(), Chunk(0, [1, 2, 3], 4, false));
    var v := Append(noted, [1, 2, 3]);
    assert [] + [1 as byte, 2, 3] == [1, 2, 3];
    assert v == HeadTaken() && v.nextOffset !in v.segments;
    assert Drain(v) == v;
  }

  lemma OverlappingRun()
    ensures Possible(Overlapping()) && After(Overlapping()) == Init(4).(t := HeadTaken())
  {
    TailArrives();
    HeadArrives();
    var r := Overlapping();
    assert Before(r) == Run(4, 10, [Deliver(Chunk(2, [3, 4], 4, true))]);
  }

  lemma OverlappingOfFile()
    ensures OfFile(Overlapping(), FILE) && EofOnlyAtEnd(Overlapping(), FILE) && SameCuts(Overlapping())
  {
    assert FILE[2..4] == [3, 4];
    assert FILE[0..3] == [1, 2, 3];
  }

  /** Every byte has arrived, the last with EOF, nothing failed, and no driver is left; yet the
      transfer is not ready, and never will be. */
  lemma OverlapGetsStuck()
    ensures var r := Overlapping();
      && Possible(r) && OfFile(r, FILE) && EofOnlyAtEnd(r, FILE) && SameCuts(r) && SizesRight(r, FILE)
      && CoversAll(After(r).t.ranges, 0, |FILE|) && After(r).t.eofSeen && After(r).drivers == [] && !After(r).overLimit
      && NeverCompletes(After(r))
  {
    OverlappingRun();
    OverlappingOfFile();
    HeadIsStuck();
  }

  lemma HeadIsStuck()
    ensures CoversAll(HeadTaken().ranges, 0, 4) && Stale(HeadTaken())
  {
    var t := HeadTaken();
    forall x | 0 <= x < 4
      ensures Covers(t.ranges, x)
    {
      assert In(t.ranges[0], x);
    }
    assert 2 in t.segments && 2 < t.nextOffset;
  }
}
