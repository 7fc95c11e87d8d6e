/** When an object completed without a known size is the whole file. */
module OssUnknownSize {
  import opened Bytes
  import opened Ranges
  import opened OssTransfer
  import opened OssRuns
  import opened OssDelivery

  /** What a driver about to complete has uploaded is exactly the file up to `nextOffset`. */
  lemma ReadyPartsArePrefix(file: seq<byte>, s: System, partSize: int)
    requires Sound(file, s, partSize) && s.drivers == [AtNext] && s.t.buffer == []
    ensures Uploaded(s.t.parts) == file[..s.t.nextOffset]
    ensures SortByNumber(Listed(s.t.parts)) == Listed(s.t.parts)
  {
    NumbersOrdered(s.t.parts);
    var pre := Uploaded(s.t.parts);
    assert pre + [] == pre && pre + [] + [] == pre;
  }

  // Received ranges and the contiguous prefix, when EOF is only on a chunk that reaches the end

  ghost predicate EofAtEnd(file: seq<byte>, p: Chunk) {
    p.eof ==> p.offset + |p.payload| == |file|
  }

  ghost predicate CoversAll(ranges: seq<FileRange>, start: int, end: int) {
    forall x :: start <= x < end ==> Covers(ranges, x)
  }

  ghost predicate Inside(ranges: seq<FileRange>, size: int) {
    forall x :: Covers(ranges, x) ==> 0 <= x < size
  }

  ghost predicate ParkedCovered(t: Transfer) {
    forall o :: o in t.segments ==> CoversAll(t.ranges, o, o + |t.segments[o]|)
  }

  /** The chunk with EOF left its mark, even when it was empty. */
  ghost predicate EndSeen(t: Transfer, size: int) {
    Covers(t.ranges, size - 1) || size in t.segments || t.nextOffset == size
  }

  ghost predicate Received(file: seq<byte>, t: Transfer) {
    && Inside(t.ranges, |file|)
    && CoversAll(t.ranges, 0, t.nextOffset)
    && ParkedCovered(t)
    && (t.eofSeen ==> EndSeen(t, |file|))
  }

  lemma CoveredEndsInside(ranges: seq<FileRange>, size: int, start: int, end: int)
    requires Inside(ranges, size) && CoversAll(ranges, start, end) && start < end
    ensures end <= size
  {
    assert Covers(ranges, end - 1);
  }

  lemma {:induction false} DrainReceived(file: seq<byte>, t: Transfer)
    requires Received(file, t)
    ensures Received(file, Drain(t)) && SameNotes(t, Drain(t))
    decreases |t.segments|
  {
    if t.nextOffset in t.segments {
      MapShrinks(t.segments, t.nextOffset);
      var end := t.nextOffset + |t.segments[t.nextOffset]|;
      assert CoversAll(t.ranges, t.nextOffset, end);
      if t.nextOffset < end {
        CoveredEndsInside(t.ranges, |file|, t.nextOffset, end);
      }
      DrainReceived(file, TakeNext(t));
    }
  }

  /** Noting a chunk before it is placed: all but the mark of its EOF. */
  ghost predicate Expecting(file: seq<byte>, t: Transfer, p: Chunk) {
    && Inside(t.ranges, |file|)
    && CoversAll(t.ranges, 0, t.nextOffset)
    && ParkedCovered(t)
    && CoversAll(t.ranges, p.offset, p.offset + |p.payload|)
    && (t.eofSeen ==> EndSeen(t, |file|) || p.offset + |p.payload| == |file|)
  }

  lemma NoteExpects(file: seq<byte>, t: Transfer, p: Chunk)
    requires Canonical(t.ranges) && Received(file, t) && PieceOf(file, p.offset, p.payload) && EofAtEnd(file, p)
    ensures Expecting(file, NoteChunk(t, p), p)
  {
    AddCovers(t.ranges, p.offset, p.offset + |p.payload|);
    assert forall o :: o in t.segments ==> CoversAll(t.ranges, o, o + |t.segments[o]|);
  }

  lemma AcceptReceived(file: seq<byte>, t: Transfer, p: Chunk, limit: int)
    requires Expecting(file, t, p) && 0 <= t.nextOffset <= |file| && PieceOf(file, p.offset, p.payload)
    ensures var (h, _) := ChunkAccepted(t, p.offset, p.payload, limit); Received(file, h) && SameNotes(t, h)
  {
    if p.payload != [] {
      assert p.offset + |p.payload| == |file| ==> Covers(t.ranges, |file| - 1);
    }
    if p.offset + |p.payload| <= t.nextOffset {
    } else if p.offset == t.nextOffset {
      DrainReceived(file, Append(t, p.payload));
    } else if p.offset !in t.segments {
      var h := Park(t, p.offset, p.payload);
      assert forall o :: o in h.segments ==> o == p.offset || o in t.segments;
    }
  }

  lemma DeliverReceived(file: seq<byte>, s: System, p: Chunk, partSize: int)
    requires Sound(file, s, partSize) && Received(file, s.t)
    requires PieceOf(file, p.offset, p.payload) && EofAtEnd(file, p)
    ensures Received(file, AfterDeliver(s, p, partSize).t)
  {
    NoteExpects(file, s.t, p);
    AcceptReceived(file, NoteChunk(s.t, p), p, 2 * partSize);
  }

  lemma SameReceived(file: seq<byte>, t: Transfer, u: Transfer)
    requires Received(file, t) && SameArrivals(t, u)
    ensures Received(file, u)
  {
  }

  lemma DriverKeepsArrivals(s: System, e: Event, partSize: int)
    requires Enabled(s, e) && Canonical(s.t.ranges) && 0 < partSize && !e.Deliver?
    ensures SameArrivals(s.t, Step(s, e, partSize).t)
  {
    if e.Next? {
      NextArrivals(s, e.i, partSize);
    }
  }

  ghost predicate EofOnlyAtEnd(r: Run, file: seq<byte>) {
    forall k :: 0 <= k < |r.events| && r.events[k].Deliver? ==> EofAtEnd(file, r.events[k].p)
  }

  lemma {:induction false} EveryRunReceived(r: Run, file: seq<byte>)
    requires Possible(r) && OfFile(r, file) && EofOnlyAtEnd(r, file)
    ensures Received(file, After(r).t)
    decreases |r.events|
  {
    if r.events == [] {
      assert forall x :: !Covers([], x);
    } else {
      var s, e := After(Before(r)), LastEvent(r);
      EveryRunSound(Before(r), file);
      EveryRunReceived(Before(r), file);
      if e.Deliver? {
        DeliverReceived(file, s, e.p, r.partSize);
      } else {
        DriverKeepsArrivals(s, e, r.partSize);
        SameReceived(file, s.t, Step(s, e, r.partSize).t);
      }
    }
  }

  /** A transfer ready to complete has received the last byte of the file. */
  lemma ReadyReachesEnd(file: seq<byte>, t: Transfer)
    requires Received(file, t) && Canonical(t.ranges) && ReadyToComplete(t)
    ensures t.ranges[0].end == |file|
  {
    var it := t.ranges[0];
    assert In(it, it.end - 1) && In(it, it.start);
    assert Covers(t.ranges, it.end - 1) && Covers(t.ranges, it.start);
    assert Covers(t.ranges, |file| - 1);
    assert In(it, |file| - 1);
  }

  // Where the list of an object comes from

  function Prefix(r: Run, n: nat): Run
    requires n <= |r.events|
  {
    r.(events := r.events[..n])
  }

  lemma {:induction false} PrefixPossible(r: Run, n: nat)
    requires Possible(r) && n <= |r.events|
    ensures Possible(Prefix(r, n))
    decreases |r.events|
  {
    if n == |r.events| {
      assert Prefix(r, n) == r;
    } else {
      PrefixPossible(Before(r), n);
      assert Prefix(Before(r), n) == Prefix(r, n);
    }
  }

  /** In state `s` the driver is about to complete with this list. */
  ghost predicate DrawsUp(s: System, listed: seq<CompletePart>, total: int) {
    && s.drivers == [AtNext] && s.t.buffer == [] && ReadyToComplete(s.t)
    && listed == SortByNumber(Listed(s.t.parts)) && total == s.t.totalSize
  }

  ghost predicate DrawnAt(r: Run, n: nat, listed: seq<CompletePart>, total: int) {
    n <= |r.events| && Possible(Prefix(r, n)) && DrawsUp(After(Prefix(r, n)), listed, total)
  }

  ghost predicate Drawn(r: Run, listed: seq<CompletePart>, total: int) {
    exists n: nat :: DrawnAt(r, n, listed, total)
  }

  ghost predicate AllDrawn(r: Run, s: System) {
    && (forall d :: d in s.drivers && d.Completing? ==> Drawn(r, d.listed, d.total))
    && (forall lc :: lc in s.lateCompletes ==> Drawn(r, lc.0, lc.1))
    && (forall ob :: ob in s.objects ==> Drawn(r, ob.listed, ob.total))
  }

  lemma DrawnLater(r: Run, listed: seq<CompletePart>, total: int)
    requires r.events != [] && Drawn(Before(r), listed, total)
    ensures Drawn(r, listed, total)
  {
    var n: nat :| DrawnAt(Before(r), n, listed, total);
    assert Prefix(Before(r), n) == Prefix(r, n);
    assert DrawnAt(r, n, listed, total);
  }

  lemma DrawnBefore(r: Run, s: System)
    requires r.events != [] && AllDrawn(Before(r), s)
    ensures AllDrawn(r, s)
  {
    forall listed, total | Drawn(Before(r), listed, total)
      ensures Drawn(r, listed, total)
    {
      DrawnLater(r, listed, total);
    }
  }

  lemma DrawnNow(r: Run, listed: seq<CompletePart>, total: int)
    requires Possible(r) && r.events != [] && DrawsUp(After(Before(r)), listed, total)
    ensures Drawn(r, listed, total)
  {
    var n: nat := |r.events| - 1;
    assert Prefix(r, n) == Before(r);
    assert DrawnAt(r, n, listed, total);
  }

  lemma NextDrawn(r: Run, s: System, i: nat)
    requires Possible(r) && r.events != [] && s == After(Before(r)) && LastEvent(r) == Next(i)
    requires AllDrawn(r, s) && |s.drivers| == 1
    ensures AllDrawn(r, AfterNext(s, i, r.partSize))
  {
    assert s.drivers == [AtNext];
    var op := NextOperation(s.t, r.partSize).1;
    if op.OpComplete? {
      DrawnNow(r, op.complete, s.t.totalSize);
    }
  }

  lemma OtherDrawn(r: Run, s: System, e: Event, partSize: int)
    requires Enabled(s, e) && Canonical(s.t.ranges) && 0 < partSize && !e.Next? && AllDrawn(r, s)
    ensures AllDrawn(r, Step(s, e, partSize))
  {
    if e.Complete? {
      assert s.drivers[e.i] in s.drivers;
    }
  }

  lemma {:induction false} EveryListDrawn(r: Run, file: seq<byte>)
    requires Possible(r) && OfFile(r, file)
    ensures AllDrawn(r, After(r))
    decreases |r.events|
  {
    if r.events != [] {
      var s, e := After(Before(r)), LastEvent(r);
      EveryListDrawn(Before(r), file);
      DrawnBefore(r, s);
      if e.Next? {
        EveryRunSound(Before(r), file);
        NextDrawn(r, s, e.i);
      } else {
        OtherDrawn(r, s, e, r.partSize);
      }
    }
  }

  /** The transfer when a driver drew up the list of a completed object. */
  ghost predicate DrawnUpFrom(r: Run, t: Transfer, listed: seq<CompletePart>) {
    exists n: nat :: n <= |r.events| && Possible(Prefix(r, n)) && After(Prefix(r, n)).t == t && listed == Listed(t.parts)
  }

  /** Every object of every run, EOF being only on a chunk that reaches the end: when its list was
      drawn up the contiguous prefix was what it holds, and the received ranges reached the end of
      the file.  Without a known size it is the file if and only if the prefix had caught up with
      the ranges, the one comparison the ready test leaves out when no size is known. */
  lemma UnknownSizeIsTheFileExactly(r: Run, file: seq<byte>, ob: Object) returns (t: Transfer)
    requires Possible(r) && OfFile(r, file) && EofOnlyAtEnd(r, file) && ob in After(r).objects
    ensures DrawnUpFrom(r, t, ob.listed) && ReadyToComplete(t) && t.totalSize == ob.total
    ensures 0 <= t.nextOffset <= |file| == t.ranges[0].end
    ensures Concat(ob.parts) == file[..t.nextOffset]
    ensures Concat(ob.parts) == file <==> t.nextOffset == t.ranges[0].end
  {
    var n := ObjectDrawn(r, file, ob);
    var q := Prefix(r, n);
    t := After(q).t;
    PrefixOfFile(r, n, file);
    DrawnFromPrefix(q, file, ob.listed, ob.total);
    assert Concat(ob.parts) == Uploaded(t.parts);
    WholePrefix(file, t.nextOffset);
  }

  lemma WholePrefix(file: seq<byte>, n: int)
    requires 0 <= n <= |file|
    ensures file[..n] == file <==> n == |file|
  {
    assert |file[..n]| == n;
  }

  lemma ObjectDrawn(r: Run, file: seq<byte>, ob: Object) returns (n: nat)
    requires Possible(r) && OfFile(r, file) && ob in After(r).objects
    ensures DrawnAt(r, n, ob.listed, ob.total) && ob.parts == Contents(ob.listed)
  {
    EveryListDrawn(r, file);
    EveryRunSound(r, file);
    assert PrefixObject(file, ob);
    n :| DrawnAt(r, n, ob.listed, ob.total);
  }

  lemma PrefixOfFile(r: Run, n: nat, file: seq<byte>)
    requires n <= |r.events| && OfFile(r, file) && EofOnlyAtEnd(r, file)
    ensures OfFile(Prefix(r, n), file) && EofOnlyAtEnd(Prefix(r, n), file)
  {
  }

  lemma DrawnFromPrefix(q: Run, file: seq<byte>, listed: seq<CompletePart>, total: int)
    requires Possible(q) && OfFile(q, file) && EofOnlyAtEnd(q, file) && DrawsUp(After(q), listed, total)
    ensures var t := After(q).t;
      && 0 <= t.nextOffset <= |file| == t.ranges[0].end
      && listed == Listed(t.parts) && Uploaded(t.parts) == file[..t.nextOffset]
  {
    EveryRunSound(q, file);
    EveryRunReceived(q, file);
    ReadyPartsArePrefix(file, After(q), q.partSize);
    ReadyReachesEnd(file, After(q).t);
  }
}
