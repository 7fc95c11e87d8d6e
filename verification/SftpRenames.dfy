/** What each rename of the SFTP sender moves, in every run, and what a lost rename reply leads to. */
module SftpRenames {
  import opened Bytes
  import opened Ranges
  import opened Sftp
  import opened SftpRuns

  ghost predicate IsFirst(renames: seq<Rename>, id: string, k: int) {
    0 <= k < |renames| && renames[k].id == id && forall j :: 0 <= j < k ==> renames[j].id != id
  }

  /** The temporary file a rename moves starts from what an earlier run left only at the first move. */
  ghost function BaseAt(renames: seq<Rename>, id: string, k: int, stale: Content): Content {
    if IsFirst(renames, id, k) then stale else map[]
  }

  lemma OneMore(all: seq<Rename>, front: seq<Rename>, k: nat)
    requires |all| == |front| + 1 && all[..|front|] == front && |front| <= k < |all|
    ensures k == |front| && all == front + [all[k]]
  {
  }

  lemma LastIsFirst(s: Sender, r: Rename, id: string)
    requires r.id == id
    ensures IsFirst(s.renames + [r], id, |s.renames|) <==> NeverRenamed(s, id)
  {
    var all := s.renames + [r];
    assert forall j :: 0 <= j < |s.renames| ==> all[j] == s.renames[j] && s.renames[j] in s.renames;
  }

  /** Rename `k` of the run moves what was written since the previous one, over what was there. */
  ghost predicate MovesWhatWasWritten(r: Run, id: string, file: seq<byte>, k: nat)
    requires Possible(r) && k < |After(r).renames|
  {
    var renames, w := After(r).renames, WrittenFor(r, k);
    && Overlaid(renames[k].content, BaseAt(renames, id, k, StaleOf(r, id)), file, w)
    && (IsFirst(renames, id, k) ==> CoversSize(w, renames[k].totalSize))
  }

  /** The last event adds at most one rename, and one of the transfer as `StepTracked` says. */
  ghost predicate LastRename(r: Run, id: string, file: seq<byte>)
    requires Possible(r) && r.events != []
  {
    var s, renames := After(Before(r)), After(r).renames;
    || renames == s.renames
    || (&& |renames| == |s.renames| + 1 && renames[..|s.renames|] == s.renames
        && (renames[|s.renames|].id == id ==>
              RenameOf(s, renames[|s.renames|], id, file, StaleOf(r, id), WrittenFor(r, |s.renames|))))
  }

  lemma LastRenames(r: Run, id: string, file: seq<byte>)
    requires Possible(r) && OfFile(r, id, file) && r.events != []
    ensures LastRename(r, id, file)
  {
    EveryRunTracked(Before(r), id, file);
    StepTracked(After(Before(r)), LastEvent(r), id, file, StaleOf(r, id), WrittenSince(Before(r), id));
  }

  lemma EarlierRename(r: Run, id: string, file: seq<byte>, k: nat)
    requires Possible(r) && r.events != [] && k < |After(Before(r)).renames|
    requires LastRename(r, id, file) && MovesWhatWasWritten(Before(r), id, file, k)
    ensures MovesWhatWasWritten(r, id, file, k)
  {
    var before, renames := After(Before(r)).renames, After(r).renames;
    assert renames[..|before|] == before;
    assert forall j :: 0 <= j < |before| ==> renames[j] == before[j];
    assert IsFirst(renames, id, k) <==> IsFirst(before, id, k);
  }

  lemma NewRename(r: Run, id: string, file: seq<byte>, k: nat)
    requires Possible(r) && r.events != [] && |After(Before(r)).renames| <= k < |After(r).renames|
    requires LastRename(r, id, file) && After(r).renames[k].id == id
    ensures MovesWhatWasWritten(r, id, file, k)
  {
    OneMore(After(r).renames, After(Before(r)).renames, k);
    LastIsFirst(After(Before(r)), After(r).renames[k], id);
  }

  /** Every rename moves exactly what was written since the previous one of its transfer. */
  lemma {:induction false} EveryRename(r: Run, id: string, file: seq<byte>, k: nat)
    requires Possible(r) && OfFile(r, id, file)
    requires k < |After(r).renames| && After(r).renames[k].id == id
    ensures MovesWhatWasWritten(r, id, file, k)
    decreases |r.events|
  {
    LastRenames(r, id, file);
    if k < |After(Before(r)).renames| {
      assert After(Before(r)).renames[k] == After(r).renames[k];
      EveryRename(Before(r), id, file, k);
      EarlierRename(r, id, file, k);
    } else {
      NewRename(r, id, file, k);
    }
  }

  ghost predicate Right(file: seq<byte>, content: Content, x: int) {
    x in content && 0 <= x < |file| && content[x] == file[x]
  }

  lemma OverlaidRight(content: Content, file: seq<byte>, w: set<int>, x: int)
    requires Overlaid(content, map[], file, w)
    ensures Right(file, content, x) <==> x in w
  {
  }

  /** A rename has every offset below the known size right if and only if the pieces written since
      the previous move of that transfer cover the size, for any retries and connection losses. */
  lemma RenameRightIffCovered(r: Run, id: string, file: seq<byte>, k: nat)
    requires Possible(r) && OfFile(r, id, file)
    requires k < |After(r).renames| && After(r).renames[k].id == id
    ensures (forall x :: 0 <= x < After(r).renames[k].totalSize ==> Right(file, After(r).renames[k].content, x))
      <==> CoversSize(WrittenFor(r, k), After(r).renames[k].totalSize)
  {
    EveryRename(r, id, file, k);
    var it, w := After(r).renames[k], WrittenFor(r, k);
    if IsFirst(After(r).renames, id, k) {
      assert forall x :: x in w ==> Right(file, it.content, x);
    } else {
      forall x
        ensures Right(file, it.content, x) <==> x in w
      {
        OverlaidRight(it.content, file, w, x);
      }
    }
  }

  ghost predicate IsTheFile(content: Content, file: seq<byte>) {
    (forall x :: x in content <==> 0 <= x < |file|) && forall x :: x in content ==> content[x] == file[x]
  }

  lemma OverlaidIsTheFile(content: Content, base: Content, file: seq<byte>, w: set<int>)
    requires Overlaid(content, base, file, w) && CoversSize(w, |file|)
    ensures IsTheFile(content, file) <==> forall x :: x in base ==> 0 <= x < |file|
  {
    if IsTheFile(content, file) {
      assert forall x :: x in base ==> x in content;
    }
  }

  /** The first rename of a transfer happens only when every offset below the known size holds the
      source byte.  With the true size known the renamed file is exactly the source, unless an
      earlier run left a temporary file reaching beyond it. */
  lemma FirstRenameIsTheFile(r: Run, id: string, file: seq<byte>, k: int)
    requires Possible(r) && OfFile(r, id, file) && IsFirst(After(r).renames, id, k)
    ensures forall x :: 0 <= x < After(r).renames[k].totalSize ==> Right(file, After(r).renames[k].content, x)
    ensures After(r).renames[k].totalSize == |file| ==>
      (IsTheFile(After(r).renames[k].content, file) <==> forall x :: x in StaleOf(r, id) ==> 0 <= x < |file|)
  {
    EveryRename(r, id, file, k);
    RenameRightIffCovered(r, id, file, k);
    if After(r).renames[k].totalSize == |file| {
      OverlaidIsTheFile(After(r).renames[k].content, StaleOf(r, id), file, WrittenFor(r, k));
    }
  }

  /** A later rename of the same transfer is the source if and only if it was written again in full. */
  lemma LaterRenameIsTheFile(r: Run, id: string, file: seq<byte>, k: nat)
    requires Possible(r) && OfFile(r, id, file)
    requires k < |After(r).renames| && After(r).renames[k].id == id && !IsFirst(After(r).renames, id, k)
    ensures IsTheFile(After(r).renames[k].content, file) <==> CoversSize(WrittenFor(r, k), |file|)
  {
    EveryRename(r, id, file, k);
    var content, w := After(r).renames[k].content, WrittenFor(r, k);
    if IsTheFile(content, file) {
      forall x | 0 <= x < |file|
        ensures x in w
      {
        assert x in content;
      }
    }
    if CoversSize(w, |file|) {
      OverlaidIsTheFile(content, map[], file, w);
    }
  }

  /** With no chunk past the size, the commit test is exactly: EOF seen and no hole left. */
  lemma ReadyIffComplete(t: Transfer)
    requires Canonical(t.ranges) && t.coveredBytes == TotalBytes(t.ranges) && 0 < t.totalSize
    requires forall x :: Covers(t.ranges, x) ==> 0 <= x < t.totalSize
    ensures ReadyToCommit(t) <==> t.eofSeen && forall x :: 0 <= x < t.totalSize ==> Covers(t.ranges, x)
  {
    if forall x :: 0 <= x < t.totalSize ==> Covers(t.ranges, x) {
      CoversPrefix(t.ranges, t.totalSize);
    } else if ReadyToCommit(t) {
      forall x | 0 <= x < t.totalSize
        ensures Covers(t.ranges, x)
      {
        ReadyCovers(t, x);
      }
    }
  }

  // A lost rename reply

  lemma WithinOne(n: int, start: int, end: int)
    requires 0 <= start <= end <= n && 0 < n
    ensures Canonical([FileRange(0, n)]) && Add([FileRange(0, n)], start, end) == [FileRange(0, n)]
  {
    var rs := [FileRange(0, n)];
    assert rs[1..] == [];
    if start < end {
      assert Hull(rs[0], FileRange(start, end)) == rs[0];
      assert Insert(rs, FileRange(start, end)) == Insert(rs[1..], rs[0]) == [rs[0]];
    }
  }

  /** Complete ranges although the temporary file has been moved away. */
  ghost predicate Orphaned(s: Sender, idx: nat, id: string, size: int) {
    && idx < |s.states| && id in s.states[idx]
    && ReadyToCommit(s.states[idx][id])
    && s.states[idx][id].totalSize == size && s.states[idx][id].ranges == [FileRange(0, size)]
  }

  lemma ReadyIsWhole(t: Transfer)
    requires ReadyToCommit(t) && 0 < t.totalSize && forall x :: Covers(t.ranges, x) ==> 0 <= x < t.totalSize
    ensures t.ranges == [FileRange(0, t.totalSize)]
  {
    assert !Covers(t.ranges, t.totalSize);
    assert !In(t.ranges[0], t.totalSize);
  }

  /** A call that renames and whose reply is lost leaves the transfer orphaned, with no temporary file. */
  lemma LostReplyOrphans(s: Sender, idx: nat, id: string, p: Chunk, size: int)
    requires WellFormed(s) && idx < s.concurrency && 0 < size
    requires Opened(s.states[idx], id, p).totalSize == size
    requires 0 <= p.offset && p.offset + |p.payload| <= size
    requires forall x :: Covers(Opened(s.states[idx], id, p).ranges, x) ==> 0 <= x < size
    requires |Sent(s, idx, id, p, Written(ReplyLost)).renames| == |s.renames| + 1
    ensures var s1 := Sent(s, idx, id, p, Written(ReplyLost)); Orphaned(s1, idx, id, size) && id !in s1.temp
  {
    var t := Opened(s.states[idx], id, p);
    LostReplySent(s, idx, id, p);
    AddCovers(t.ranges, p.offset, p.offset + |p.payload|);
    ReadyIsWhole(Recorded(t, p));
  }

  lemma LostReplySent(s: Sender, idx: nat, id: string, p: Chunk)
    requires WellFormed(s) && idx < s.concurrency
    ensures var s1, t := Sent(s, idx, id, p, Written(ReplyLost)), Recorded(Opened(s.states[idx], id, p), p);
      && |s1.states| == |s.states| && id in s1.states[idx] && s1.states[idx][id] == t
      && (if ReadyToCommit(t) then id !in s1.temp else s1.renames == s.renames)
  {
  }

  lemma ResentRecorded(t: Transfer, q: Chunk, size: int)
    requires ReadyToCommit(t) && t.totalSize == size > 0 && t.ranges == [FileRange(0, size)]
    requires Canonical(t.ranges) && t.coveredBytes == TotalBytes(t.ranges)
    requires 0 <= q.offset && q.offset + |q.payload| <= size
    ensures ReadyToCommit(Recorded(t, q)) && Recorded(t, q).totalSize == size && Recorded(t, q).ranges == t.ranges
  {
    WithinOne(size, q.offset, q.offset + |q.payload|);
  }

  /** The next chunk an orphaned transfer writes in full is renamed at once, with whatever failed
      calls wrote since the move: `RenameRightIffCovered` says when that is right. */
  lemma ResendRenamesAtOnce(s: Sender, idx: nat, id: string, q: Chunk, size: int)
    requires WellFormed(s) && Orphaned(s, idx, id, size) && 0 < size
    requires 0 <= q.offset && q.offset + |q.payload| <= size && (q.totalSize <= 0 || q.totalSize == size)
    ensures Sent(s, idx, id, q, Written(Renamed)).renames ==
      s.renames + [Rename(id, TempOf(s, id) + Piece(q.offset, q.payload), size)]
    ensures Orphaned(Sent(s, idx, id, q, CloseFailed), idx, id, size)
  {
    var t := Opened(s.states[idx], id, q);
    assert t == s.states[idx][id];
    ResentRecorded(t, q, size);
  }

  /** One call of the single shard, alone: chosen, then run. */
  function Extended(r: Run, id: string, p: Chunk, reply: Reply): Run {
    r.(events := r.events + [Pick(id, p), Send(0, reply)])
  }

  lemma Appended(r: Run, e: Event)
    requires Possible(r) && WellFormed(After(r)) && Enabled(After(r), e)
    ensures var r' := r.(events := r.events + [e]); Possible(r') && After(r') == Step(After(r), e)
  {
    var r' := r.(events := r.events + [e]);
    assert Before(r') == r && LastEvent(r') == e;
  }

  lemma PickThenSend(s: Sender, id: string, p: Chunk, reply: Reply)
    requires WellFormed(s) && s.inFlight == [] && s.concurrency == 1
    ensures var s1 := Picked(s, id, p);
      WellFormed(s1) && |s1.inFlight| == 1 && Step(s1, Send(0, reply)) == Sent(s, 0, id, p, reply)
  {
    assert Taken(Picked(s, id, p), 0) == s;
  }

  lemma ExtendedSent(r: Run, id: string, p: Chunk, reply: Reply, file: seq<byte>)
    requires Possible(r) && OfFile(r, id, file) && After(r).inFlight == [] && After(r).concurrency == 1
    requires PieceOf(file, p.offset, p.payload)
    ensures var r' := Extended(r, id, p, reply);
      Possible(r') && OfFile(r', id, file) && WellFormed(After(r)) && After(r') == Sent(After(r), 0, id, p, reply)
  {
    var r1, r' := r.(events := r.events + [Pick(id, p)]), Extended(r, id, p, reply);
    EveryRunTracked(r, id, file);
    Appended(r, Pick(id, p));
    PickThenSend(After(r), id, p, reply);
    Appended(r1, Send(0, reply));
    assert r1.events + [Send(0, reply)] == r'.events;
    ExtendedOfFile(r, id, p, reply, file);
  }

  lemma ExtendedOfFile(r: Run, id: string, p: Chunk, reply: Reply, file: seq<byte>)
    requires OfFile(r, id, file) && PieceOf(file, p.offset, p.payload)
    ensures OfFile(Extended(r, id, p, reply), id, file)
  {
  }

  lemma FirstHalf(s: Sender, id: string, a: byte)
    requires WellFormed(s) && s == Init(1, map[], map[])
    ensures var s1 := Sent(s, 0, id, Chunk(0, [a], 2, false), Written(NotRenamed(false)));
      && s1.states == [map[id := Transfer(2, false, [FileRange(0, 1)], 1)]]
      && s1.temp == map[id := map[0 := a]] && s1.finals == map[]
      && s1.renames == [] && s1.inFlight == [] && s1.concurrency == 1
  {
    assert s.states[0] == map[];
    AddCovers([], 0, 1);
    CoversPrefix(Add([], 0, 1), 1);
    var s1 := Sent(s, 0, id, Chunk(0, [a], 2, false), Written(NotRenamed(false)));
    assert s1.states[0] == map[id := Transfer(2, false, [FileRange(0, 1)], 1)];
    assert map[] + Piece(0, [a]) == map[0 := a];
  }

  lemma SecondHalf(s: Sender, id: string, a: byte, b: byte)
    requires WellFormed(s) && s.states == [map[id := Transfer(2, false, [FileRange(0, 1)], 1)]]
    requires s.temp == map[id := map[0 := a]] && s.finals == map[] && s.renames == []
    ensures var s1 := Sent(s, 0, id, Chunk(1, [b], 2, true), Written(ReplyLost));
      && Orphaned(s1, 0, id, 2) && id !in s1.temp && s1.finals == map[id := map[0 := a, 1 := b]]
      && s1.renames == [Rename(id, map[0 := a, 1 := b], 2)] && s1.inFlight == s.inFlight && s1.concurrency == s.concurrency
  {
    var t := s.states[0][id];
    AddCovers(t.ranges, 1, 2);
    CoversPrefix(Add(t.ranges, 1, 2), 2);
    assert map[0 := a] + Piece(1, [b]) == map[0 := a, 1 := b];
  }

  /** The whole file is renamed and the reply is lost. */
  function LostRun(id: string, a: byte, b: byte): Run {
    Extended(Extended(Run(1, map[], map[], []), id, Chunk(0, [a], 2, false), Written(NotRenamed(false))),
      id, Chunk(1, [b], 2, true), Written(ReplyLost))
  }

  lemma LostRunOrphans(id: string, a: byte, b: byte)
    ensures var r := LostRun(id, a, b);
      && Possible(r) && OfFile(r, id, [a, b]) && After(r).inFlight == [] && After(r).concurrency == 1
      && Orphaned(After(r), 0, id, 2) && id !in After(r).temp
      && After(r).finals == map[id := map[0 := a, 1 := b]]
      && After(r).renames == [Rename(id, map[0 := a, 1 := b], 2)]
  {
    var r0, first := Run(1, map[], map[], []), Chunk(0, [a], 2, false);
    ExtendedSent(r0, id, first, Written(NotRenamed(false)), [a, b]);
    FirstHalf(After(r0), id, a);
    var r1 := Extended(r0, id, first, Written(NotRenamed(false)));
    ExtendedSent(r1, id, Chunk(1, [b], 2, true), Written(ReplyLost), [a, b]);
    SecondHalf(After(r1), id, a, b);
  }

  lemma ResentAlone(s: Sender, id: string, b: byte)
    requires WellFormed(s) && Orphaned(s, 0, id, 2) && id !in s.temp
    ensures Sent(s, 0, id, Chunk(1, [b], 2, true), Written(Renamed)).renames == s.renames + [Rename(id, map[1 := b], 2)]
  {
    ResendRenamesAtOnce(s, 0, id, Chunk(1, [b], 2, true), 2);
    assert map[] + Piece(1, [b]) == map[1 := b];
  }

  /** A run that fails: the last chunk, sent again because of the lost reply, is renamed alone over
      the complete file. */
  lemma ResentChunkReplacesTheFile(id: string, a: byte, b: byte)
    ensures var r := Extended(LostRun(id, a, b), id, Chunk(1, [b], 2, true), Written(Renamed));
      && Possible(r) && OfFile(r, id, [a, b])
      && After(r).renames == [Rename(id, map[0 := a, 1 := b], 2), Rename(id, map[1 := b], 2)]
  {
    var r, last := LostRun(id, a, b), Chunk(1, [b], 2, true);
    LostRunOrphans(id, a, b);
    ExtendedSent(r, id, last, Written(Renamed), [a, b]);
    ResentAlone(After(r), id, b);
  }
}
