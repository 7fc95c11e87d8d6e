/**
 * A transfer of unknown size can be completed short.
 *
 * A chunk whose offset is already parked is ignored even when it is longer, yet its range is
 * counted as received; with no size to check against, the transfer then looks complete.  The run
 * is built chunk by chunk: what arrives, what is parked, what the driver then uploads and
 * completes.
 */
module OssLimits {
  import opened Bytes
  import opened Ranges
  import opened OssTransfer
  import opened OssRuns
  import opened OssDelivery
  import opened OssProgress
  import opened OssUnknownSize

  const FILE: seq<byte> := [1, 2, 3]

  function Arrivals(): seq<Event> {
    [Deliver(Chunk(1, [2], 0, false)), Deliver(Chunk(1, [2, 3], 0, true)), Deliver(Chunk(0, [1], 0, false))]
  }

  lemma FirstArrival()
    ensures var r := Run(0, 10, Arrivals()[..1]);
      Possible(r) && After(r) == Init(0).(t := Fresh(0).(ranges := [FileRange(1, 2)], coveredBytes := 1,
        segments := map[1 := [2]], pendingBytes := 1))
  {
    var r0 := Run(0, 10, []);
    var p := Chunk(1, [2], 0, false);
    assert Add([], 1, 2) == [FileRange(1, 2)];
    assert TotalBytes([FileRange(1, 2)]) == 1 by {
      assert [FileRange(1, 2)][..0] == [];
    }
    Extended(r0, Deliver(p));
    assert Then(r0, Deliver(p)).events == Arrivals()[..1];
  }

  lemma FirstArrivals()
    ensures var r := Run(0, 10, Arrivals()[..2]);
      Possible(r) && After(r) == Init(0).(t := Fresh(0).(eofSeen := true, ranges := [FileRange(1, 3)],
        coveredBytes := 2, segments := map[1 := [2]], pendingBytes := 1))
  {
    FirstArrival();
    var r1 := Run(0, 10, Arrivals()[..1]);
    var q := Chunk(1, [2, 3], 0, true);
    assert Add([FileRange(1, 2)], 1, 3) == [FileRange(1, 3)];
    assert [FileRange(1, 3)][..0] == [];
    Extended(r1, Deliver(q));
    assert Then(r1, Deliver(q)).events == Arrivals()[..2];
  }

  lemma DrainsOne(t: Transfer)
    requires t.nextOffset == 1 && t.segments == map[1 := [2]]
    ensures Drain(t) == t.(buffer := t.buffer + [2], nextOffset := 2, segments := map[],
                            pendingBytes := t.pendingBytes - 1)
  {
    assert TakeNext(t).segments == map[];
    assert Drain(TakeNext(t)) == TakeNext(t);
  }

  lemma LastNoted(t: Transfer)
    requires t == Fresh(0).(eofSeen := true, ranges := [FileRange(1, 3)],
                            coveredBytes := 2, segments := map[1 := [2]], pendingBytes := 1)
    ensures NoteChunk(t, Chunk(0, [1], 0, false)) == t.(ranges := [FileRange(0, 3)], coveredBytes := 3)
  {
    assert [FileRange(1, 3)][1..] == [];
    assert Add([FileRange(1, 3)], 0, 1) == [FileRange(0, 3)];
    assert [FileRange(0, 3)][..0] == [];
  }

  ghost function Arrived(): Transfer {
    Fresh(0).(eofSeen := true, ranges := [FileRange(0, 3)], coveredBytes := 3, nextOffset := 2,
              buffer := [1, 2], uploading := true)
  }

  /** What was received before the first byte arrives. */
  function Waiting(): Transfer {
    Fresh(0).(eofSeen := true, ranges := [FileRange(1, 3)], coveredBytes := 2, segments := map[1 := [2]], pendingBytes := 1)
  }

  lemma LastDrained(noted: Transfer)
    requires noted == Waiting().(ranges := [FileRange(0, 3)], coveredBytes := 3)
    ensures ChunkAccepted(noted, 0, [1], 20) == (Arrived().(uploading := false), true)
  {
    DrainsOne(Append(noted, [1]));
    assert Append(noted, [1]).buffer + [2] == [1, 2];
  }

  lemma LastAccepted()
    ensures PacketAccepted(Waiting(), Chunk(0, [1], 0, false), 20, 10) == (Arrived(), true, true)
  {
    LastNoted(Waiting());
    LastDrained(NoteChunk(Waiting(), Chunk(0, [1], 0, false)));
  }

  lemma AllArrivals()
    ensures var r := Run(0, 10, Arrivals());
      Possible(r) && After(r) == Init(0).(drivers := [AtNext], t := Arrived())
  {
    FirstArrivals();
    LastAccepted();
    var r, p := Run(0, 10, Arrivals()[..2]), Chunk(0, [1], 0, false);
    Extended(r, Deliver(p));
    assert Then(r, Deliver(p)).events == Arrivals();
  }

  lemma ArrivalsOfFile()
    ensures OfFile(Run(0, 10, Arrivals()), FILE) && EofOnlyAtEnd(Run(0, 10, Arrivals()), FILE) && AllSucceed(Arrivals())
  {
    assert FILE[1..2] == [2];
    assert FILE[1..3] == [2, 3];
    assert FILE[0..1] == [1];
  }

  lemma GoodArrivals() returns (r: Run)
    ensures Possible(r) && r.partSize == 10 && OfFile(r, FILE) && EofOnlyAtEnd(r, FILE) && AllSucceed(r.events)
    ensures After(r) == Init(0).(drivers := [AtNext], t := Arrived())
  {
    AllArrivals();
    ArrivalsOfFile();
    r := Run(0, 10, Arrivals());
  }

  ghost function Stored(): Transfer {
    Arrived().(buffer := [], parts := [UploadedPart(1, ETag([1, 2]), 0, 2)], nextPartNumber := 2)
  }

  lemma UploadFirst(r3: Run) returns (r6: Run)
    requires Possible(r3) && r3.partSize == 10 && After(r3) == Init(0).(drivers := [AtNext], t := Arrived())
    ensures Possible(r6) && Driven(r3, r6)
    ensures After(r6) == Init(0).(t := Stored(), drivers := [AtNext], remote := map[1 := [1, 2]])
  {
    var op := OpPart(1, 0, [1, 2]);
    var t := Arrived().(buffer := []);
    assert Arrived().buffer[2..] == [] && Arrived().buffer[..2] == [1, 2];
    assert NextOperation(Arrived(), 10) == (t, op);
    var r4 := Drive(r3, Next(0));
    assert After(r4) == Init(0).(t := t, drivers := [Putting(op)]);
    var r5 := Drive(r4, Put(0, true));
    assert After(r5) == Init(0).(t := t, drivers := [PutDone(op, true)], remote := map[1 := [1, 2]]);
    r6 := RecordFirst(r5, t, op);
    DrivenOn(r3, r4, r5);
    DrivenOn(r3, r5, r6);
  }

  lemma RecordFirst(r5: Run, t: Transfer, op: UploadOp) returns (r6: Run)
    requires Possible(r5) && r5.partSize == 10 && t == Arrived().(buffer := []) && op == OpPart(1, 0, [1, 2])
    requires After(r5) == Init(0).(t := t, drivers := [PutDone(op, true)], remote := map[1 := [1, 2]])
    ensures Possible(r6) && Driven(r5, r6)
    ensures After(r6) == Init(0).(t := Stored(), drivers := [AtNext], remote := map[1 := [1, 2]])
  {
    assert FinishPart(t, op, ETag([1, 2]), true) == Stored() by {
      assert t.parts + [UploadedPart(1, ETag([1, 2]), 0, 2)] == [UploadedPart(1, ETag([1, 2]), 0, 2)];
    }
    assert [PutDone(op, true)][0 := AtNext] == [AtNext];
    r6 := Drive(r5, FinishPut(0));
  }

  lemma CompleteFirst(r6: Run) returns (r: Run, ob: Object)
    requires Possible(r6) && r6.partSize == 10
    requires After(r6) == Init(0).(t := Stored(), drivers := [AtNext], remote := map[1 := [1, 2]])
    ensures Possible(r) && Driven(r6, r) && After(r).t == Stored() && ob in After(r).objects
    ensures Concat(ob.parts) == [1, 2]
  {
    var listed := [CompletePart(1, ETag([1, 2]))];
    assert Listed(Stored().parts) == listed;
    SortKeepsOrdered(listed);
    var r7 := Drive(r6, Next(0));
    assert After(r7).drivers == [Completing(listed, 0)];
    assert After(r7).remote == map[1 := [1, 2]];
    assert Matches(After(r7).remote, listed);
    ob := Assembled(After(r7).remote, listed, 0);
    assert ob.parts == [] + [[1, 2]];
    ConcatSnoc([], [1 as byte, 2]);
    r := Drive(r7, Complete(0, true));
    DrivenOn(r6, r7, r);
  }

  lemma DrivenEof(r: Run, longer: Run)
    requires Driven(r, longer) && EofOnlyAtEnd(r, FILE)
    ensures EofOnlyAtEnd(longer, FILE)
  {
  }

  /** All three bytes arrived, the last with EOF, and no remote call failed, yet the completed
      object is the first two: when its list was drawn up the contiguous prefix was behind the
      received ranges, the case that `UnknownSizeIsTheFileExactly` singles out. */
  lemma UnknownSizeCompletesShort() returns (r: Run, ob: Object, drawn: Transfer)
    ensures Possible(r) && OfFile(r, FILE) && EofOnlyAtEnd(r, FILE) && AllSucceed(r.events)
    ensures After(r).t.totalSize == 0 && After(r).t.eofSeen && After(r).t.ranges == [FileRange(0, |FILE|)]
    ensures ob in After(r).objects && Concat(ob.parts) == FILE[..2]
    ensures DrawnUpFrom(r, drawn, ob.listed) && ReadyToComplete(drawn)
    ensures drawn.nextOffset == 2 < drawn.ranges[0].end == 3
  {
    var r3 := GoodArrivals();
    var r6 := UploadFirst(r3);
    r, ob := CompleteFirst(r6);
    DrivenOn(r3, r6, r);
    DrivenGood(r3, r, FILE);
    DrivenEof(r3, r);
    drawn := UnknownSizeIsTheFileExactly(r, FILE, ob);
    assert |FILE[..drawn.nextOffset]| == 2;
  }
}
