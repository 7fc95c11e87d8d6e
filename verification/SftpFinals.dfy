/** What the SFTP sender leaves at a transfer's final path, and when a complete file is lost there. */
module SftpFinals {
  import opened Bytes
  import opened Ranges
  import opened Sftp
  import opened SftpRuns
  import opened SftpRenames

  /** The call commits: its chunk is recorded and the transfer is then ready. */
  ghost predicate Commits(s: Sender, e: Event, id: string)
    requires WellFormed(s) && Enabled(s, e)
  {
    && Sends(s, e, id) && e.reply.Written?
    && var x := s.inFlight[e.k]; ReadyToCommit(Recorded(Opened(s.states[x.idx], id, x.p), x.p))
  }

  /** The commit removes the file at the final path and does not put the new one there. */
  ghost predicate OnlyRemoves(s: Sender, e: Event, id: string)
    requires WellFormed(s) && Enabled(s, e)
  {
    Commits(s, e, id) && e.reply.rename == NotRenamed(true)
  }

  /** Since its last move some commit of the transfer only removed the final file. */
  ghost predicate RemovedSince(r: Run, id: string)
    requires Possible(r)
    decreases |r.events|
  {
    r.events != [] &&
    var s, e := After(Before(r)), LastEvent(r);
    !Moves(s, e, id) && (OnlyRemoves(s, e, id) || RemovedSince(Before(r), id))
  }

  // One step

  lemma SettledFinals(s: Sender, idx: nat, sid: string, rename: RenameReply, id: string)
    requires idx < |s.states| && sid in s.states[idx]
    ensures var s', ready := Settled(s, idx, sid, rename), ReadyToCommit(s.states[idx][sid]);
      && (sid != id || !ready || rename == NotRenamed(false) ==>
            (id in s'.finals <==> id in s.finals) && (id in s.finals ==> s'.finals[id] == s.finals[id]))
      && (sid == id && ready && rename == NotRenamed(true) ==> id !in s'.finals)
      && (sid == id && ready && !rename.NotRenamed? ==> id in s'.finals && s'.finals[id] == TempOf(s, id))
      && s'.renames == if ready && !rename.NotRenamed? then s.renames + [Rename(sid, TempOf(s, sid), s.states[idx][sid].totalSize)]
                       else s.renames
  {
  }

  ghost predicate SameFinal(s: Sender, s': Sender, id: string) {
    (id in s'.finals <==> id in s.finals) && (id in s.finals ==> s'.finals[id] == s.finals[id])
  }

  /** What one call does to the final path of `id` and to the renames. */
  ghost predicate FinalStep(s: Sender, s': Sender, sid: string, id: string, ready: bool, rename: RenameReply) {
    && (sid != id || !ready || rename == NotRenamed(false) ==> SameFinal(s, s', id))
    && (sid == id && ready && rename == NotRenamed(true) ==> id !in s'.finals)
    && (if ready && !rename.NotRenamed?
        then |s'.renames| == |s.renames| + 1 && s'.renames[..|s.renames|] == s.renames && s'.renames[|s.renames|].id == sid
             && (sid == id ==> id in s'.finals && s'.finals[id] == s'.renames[|s.renames|].content)
        else s'.renames == s.renames)
  }

  lemma SentFinals(s: Sender, idx: nat, sid: string, p: Chunk, rename: RenameReply, id: string)
    requires WellFormed(s) && idx < s.concurrency
    ensures FinalStep(s, Sent(s, idx, sid, p, Written(rename)), sid, id,
              ReadyToCommit(Recorded(Opened(s.states[idx], sid, p), p)), rename)
  {
    var t := Opened(s.states[idx], sid, p);
    var u := WithState(Wrote(WithState(s, idx, sid, t), sid, p.offset, p.payload), idx, sid, Recorded(t, p));
    SettledFinals(u, idx, sid, rename, id);
  }

  lemma QuietFinals(s: Sender, e: Event, id: string)
    requires WellFormed(s) && Enabled(s, e) && (e.Pick? || !e.reply.Written?)
    ensures SameFinal(s, Step(s, e), id) && Step(s, e).renames == s.renames
  {
  }

  /** The three things a step can do to the final path of `id`: put the new file there, only remove
      the old one, or leave it. */
  ghost predicate FinalBetween(s: Sender, s': Sender, id: string, moves: bool, removes: bool) {
    && |s.renames| <= |s'.renames| && s'.renames[..|s.renames|] == s.renames
    && (moves ==> |s'.renames| == |s.renames| + 1 && s'.renames[|s.renames|].id == id
                  && id in s'.finals && s'.finals[id] == s'.renames[|s.renames|].content)
    && (!moves && removes ==> id !in s'.finals)
    && (!moves && !removes ==> SameFinal(s, s', id))
    && (!moves ==> forall k :: |s.renames| <= k < |s'.renames| ==> s'.renames[k].id != id)
  }

  lemma FinalStepIs(s: Sender, t: Sender, s': Sender, sid: string, id: string, ready: bool, rename: RenameReply)
    requires t.renames == s.renames && t.finals == s.finals && FinalStep(t, s', sid, id, ready, rename)
    ensures FinalBetween(s, s', id, sid == id && |s.renames| < |s'.renames|, sid == id && ready && rename == NotRenamed(true))
  {
  }

  lemma QuietIs(s: Sender, s': Sender, id: string)
    requires SameFinal(s, s', id) && s'.renames == s.renames
    ensures FinalBetween(s, s', id, false, false)
  {
  }

  lemma StepFinals(s: Sender, e: Event, id: string)
    requires WellFormed(s) && Enabled(s, e)
    ensures FinalBetween(s, Step(s, e), id, Moves(s, e, id), OnlyRemoves(s, e, id))
  {
    if e.Send? && e.reply.Written? {
      WrittenStep(s, e.k, e.reply.rename, id);
    } else {
      QuietFinals(s, e, id);
      QuietIs(s, Step(s, e), id);
    }
  }

  lemma WrittenStep(s: Sender, k: nat, rename: RenameReply, id: string)
    requires WellFormed(s) && k < |s.inFlight|
    ensures var e := Send(k, Written(rename));
      FinalBetween(s, Step(s, e), id, Moves(s, e, id), OnlyRemoves(s, e, id))
  {
    var x, t := s.inFlight[k], Taken(s, k);
    assert x in s.inFlight;
    SentFinals(t, x.idx, x.id, x.p, rename, id);
    FinalStepIs(s, t, Sent(t, x.idx, x.id, x.p, Written(rename)), x.id, id,
                ReadyToCommit(Recorded(Opened(t.states[x.idx], x.id, x.p), x.p)), rename);
  }

  // Every run

  ghost predicate IsLast(renames: seq<Rename>, id: string, k: int) {
    0 <= k < |renames| && renames[k].id == id && forall j :: k < j < |renames| ==> renames[j].id != id
  }

  lemma WellFormedBefore(r: Run)
    requires Possible(r) && r.events != []
    ensures Possible(Before(r)) && WellFormed(After(Before(r))) && Enabled(After(Before(r)), LastEvent(r))
    ensures After(r) == Step(After(Before(r)), LastEvent(r))
  {
  }

  lemma LastStays(all: seq<Rename>, front: seq<Rename>, id: string, k: int)
    requires |front| <= |all| && all[..|front|] == front && IsLast(all, id, k)
    ensures k < |front| ==> IsLast(front, id, k) && all[k] == front[k]
  {
    assert forall j :: 0 <= j < |front| ==> all[j] == front[j];
  }

  lemma LastOfStep(s: Sender, s': Sender, id: string, k: int, removes: bool)
    requires FinalBetween(s, s', id, true, removes) && IsLast(s'.renames, id, k)
    ensures k == |s.renames| && id in s'.finals && s'.finals[id] == s'.renames[k].content
  {
  }

  lemma LastBeforeStep(s: Sender, s': Sender, id: string, k: int, removes: bool)
    requires FinalBetween(s, s', id, false, removes) && IsLast(s'.renames, id, k)
    ensures IsLast(s.renames, id, k) && s'.renames[k] == s.renames[k]
    ensures if removes then id !in s'.finals else SameFinal(s, s', id)
  {
    LastStays(s'.renames, s.renames, id, k);
  }

  /** The file at the final path of a transfer that has been renamed is what its last rename moved
      there, unless a later commit removed it and did not rename. */
  lemma {:induction false} FinalIsLastRename(r: Run, id: string, k: int)
    requires Possible(r) && IsLast(After(r).renames, id, k)
    ensures id in After(r).finals <==> !RemovedSince(r, id)
    ensures id in After(r).finals ==> After(r).finals[id] == After(r).renames[k].content
    decreases |r.events|
  {
    WellFormedBefore(r);
    var s, e := After(Before(r)), LastEvent(r);
    StepFinals(s, e, id);
    if Moves(s, e, id) {
      LastOfStep(s, After(r), id, k, OnlyRemoves(s, e, id));
    } else {
      LastBeforeStep(s, After(r), id, k, OnlyRemoves(s, e, id));
      FinalIsLastRename(Before(r), id, k);
    }
  }

  /** Of a transfer that was never renamed it is what an earlier run left, unless removed. */
  lemma {:induction false} FinalBeforeRename(r: Run, id: string)
    requires Possible(r) && NeverRenamed(After(r), id)
    ensures id in After(r).finals <==> id in r.existing && !RemovedSince(r, id)
    ensures id in After(r).finals ==> After(r).finals[id] == r.existing[id]
    decreases |r.events|
  {
    if r.events != [] {
      WellFormedBefore(r);
      var s, e := After(Before(r)), LastEvent(r);
      StepFinals(s, e, id);
      NotYetRenamed(s, After(r), id, Moves(s, e, id), OnlyRemoves(s, e, id));
      FinalBeforeRename(Before(r), id);
    }
  }

  lemma NotYetRenamed(s: Sender, s': Sender, id: string, moves: bool, removes: bool)
    requires FinalBetween(s, s', id, moves, removes) && NeverRenamed(s', id)
    ensures NeverRenamed(s, id) && !moves
  {
    forall q | q in s.renames
      ensures q.id != id
    {
      var j :| 0 <= j < |s.renames| && s.renames[j] == q;
      assert s'.renames[..|s.renames|][j] == s'.renames[j];
    }
  }

  /** When a removal has taken the final file of a renamed transfer, the whole file is still on the
      remote side, in the temporary file, if and only if it was written again since the last move. */
  lemma LostExactly(r: Run, id: string, file: seq<byte>, k: int)
    requires Possible(r) && OfFile(r, id, file) && IsLast(After(r).renames, id, k) && RemovedSince(r, id)
    ensures id !in After(r).finals
    ensures IsTheFile(TempOf(After(r), id), file) <==> CoversSize(WrittenSince(r, id), |file|)
  {
    FinalIsLastRename(r, id, k);
    EveryRunTracked(r, id, file);
    var s, w := After(r), WrittenSince(r, id);
    assert s.renames[k] in s.renames;
    OnlyWritten(TempOf(s, id), file, w);
  }

  lemma OnlyWritten(content: Content, file: seq<byte>, w: set<int>)
    requires Overlaid(content, map[], file, w)
    ensures IsTheFile(content, file) <==> CoversSize(w, |file|)
  {
    if IsTheFile(content, file) {
      forall x | 0 <= x < |file|
        ensures x in w
      {
        assert x in content;
      }
    }
    if CoversSize(w, |file|) {
      OverlaidIsTheFile(content, map[], file, w);
    }
  }

  /** After a lost rename reply one chunk sent again is enough: if its rename fails after the removal,
      the final file is gone. */
  lemma OrphanCanLoseFinal(s: Sender, idx: nat, id: string, q: Chunk, size: int)
    requires WellFormed(s) && Orphaned(s, idx, id, size) && 0 < size
    requires 0 <= q.offset && q.offset + |q.payload| <= size && (q.totalSize <= 0 || q.totalSize == size)
    ensures var s1 := Sent(s, idx, id, q, Written(NotRenamed(true)));
      id !in s1.finals && TempOf(s1, id) == TempOf(s, id) + Piece(q.offset, q.payload)
  {
    assert Opened(s.states[idx], id, q) == s.states[idx][id];
    ResentRecorded(s.states[idx][id], q, size);
    SentFinals(s, idx, id, q, NotRenamed(true), id);
  }

  /** A run that loses the file: it is renamed and the reply is lost; the last chunk is sent again, the
      removal succeeds and the rename does not. */
  lemma ResentChunkLosesTheFile(id: string, a: byte, b: byte)
    ensures Possible(LostRun(id, a, b)) && After(LostRun(id, a, b)).finals == map[id := map[0 := a, 1 := b]]
    ensures var r := Extended(LostRun(id, a, b), id, Chunk(1, [b], 2, true), Written(NotRenamed(true)));
      && Possible(r) && OfFile(r, id, [a, b])
      && id !in After(r).finals && TempOf(After(r), id) == map[1 := b]
  {
    var r, last := LostRun(id, a, b), Chunk(1, [b], 2, true);
    LostRunOrphans(id, a, b);
    ExtendedSent(r, id, last, Written(NotRenamed(true)), [a, b]);
    OrphanCanLoseFinal(After(r), 0, id, last, 2);
    assert map[] + Piece(1, [b]) == map[1 := b];
  }
}
