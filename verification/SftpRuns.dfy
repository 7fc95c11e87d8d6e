/**
 * Every interleaving of concurrent `Send` calls on the SFTP sender.  A call first picks its shard
 * and later runs under that shard's lock; other calls may run in between.  Transfers are assumed
 * to have different temporary paths.
 */
module SftpRuns {
  import opened Bytes
  import opened Ranges
  import opened Sftp

  datatype Event = Pick(id: string, p: Chunk) | Send(k: nat, reply: Reply)

  datatype Run = Run(concurrency: nat, stale: map<string, Content>, existing: map<string, Content>, events: seq<Event>)

  ghost predicate WellFormed(s: Sender) {
    && 0 < s.concurrency == |s.states|
    && Stateful(s.states)
    && (forall id :: id in s.transferShard ==> s.transferShard[id] < s.concurrency)
    && (forall x :: x in s.inFlight ==> x.idx < s.concurrency)
  }

  ghost predicate Enabled(s: Sender, e: Event) {
    match e
    case Pick(_, p) => p.offset >= 0
    case Send(k, _) => k < |s.inFlight|
  }

  ghost function Picked(s: Sender, id: string, p: Chunk): Sender
    requires 0 < s.concurrency
  {
    var (s', idx) := ShardPicked(s, id);
    s'.(inFlight := s.inFlight + [Sending(id, idx, p)])
  }

  ghost function Taken(s: Sender, k: nat): Sender
    requires k < |s.inFlight|
  {
    s.(inFlight := s.inFlight[..k] + s.inFlight[k + 1..])
  }

  ghost function Step(s: Sender, e: Event): Sender
    requires WellFormed(s) && Enabled(s, e)
  {
    match e
    case Pick(id, p) => Picked(s, id, p)
    case Send(k, reply) =>
      var x := s.inFlight[k];
      Sent(Taken(s, k), x.idx, x.id, x.p, reply)
  }

  ghost function Before(r: Run): Run
    requires r.events != []
  {
    r.(events := r.events[..|r.events| - 1])
  }

  ghost function LastEvent(r: Run): Event
    requires r.events != []
  {
    r.events[|r.events| - 1]
  }

  ghost predicate Possible(r: Run)
    decreases |r.events|, 0
  {
    && 0 < r.concurrency
    && (r.events != [] ==>
          Possible(Before(r)) && WellFormed(After(Before(r))) && Enabled(After(Before(r)), LastEvent(r)))
  }

  ghost function After(r: Run): Sender
    requires Possible(r)
    decreases |r.events|, 1
  {
    if r.events == [] then Init(r.concurrency, r.stale, r.existing) else Step(After(Before(r)), LastEvent(r))
  }

  // What has been written into the temporary file of one transfer `id` whose chunks are pieces of `file`

  /** The part of the chunk that a call writes, whatever it then answers. */
  ghost function LeadingPart(p: Chunk, reply: Reply): seq<byte> {
    match reply
    case Refused => []
    case OpenFailed => []
    case WriteFailed(n) => p.payload[..if n <= |p.payload| then n else |p.payload|]
    case CloseFailed => p.payload
    case Written(_) => p.payload
  }

  ghost function WrittenBy(p: Chunk, reply: Reply): set<int> {
    Interval(p.offset, p.offset + |LeadingPart(p, reply)|)
  }

  ghost predicate Sends(s: Sender, e: Event, id: string)
    requires Enabled(s, e)
  {
    e.Send? && s.inFlight[e.k].id == id
  }

  ghost function Writes(s: Sender, e: Event, id: string): set<int>
    requires Enabled(s, e)
  {
    if Sends(s, e, id) then WrittenBy(s.inFlight[e.k].p, e.reply) else {}
  }

  ghost predicate Moves(s: Sender, e: Event, id: string)
    requires WellFormed(s) && Enabled(s, e)
  {
    Sends(s, e, id) && |s.renames| < |Step(s, e).renames|
  }

  /** The offsets written into the temporary file since it was last moved away, failed calls included. */
  ghost function WrittenSince(r: Run, id: string): set<int>
    requires Possible(r)
    decreases |r.events|
  {
    if r.events == [] then {}
    else
      var s, e := After(Before(r)), LastEvent(r);
      if Moves(s, e, id) then {} else WrittenSince(Before(r), id) + Writes(s, e, id)
  }

  /** The same when rename number `k` was carried out: since the previous move of that transfer. */
  ghost function WrittenFor(r: Run, k: nat): set<int>
    requires Possible(r) && k < |After(r).renames|
    decreases |r.events|
  {
    var s, e := After(Before(r)), LastEvent(r);
    if k < |s.renames| then WrittenFor(Before(r), k)
    else WrittenSince(Before(r), After(r).renames[k].id) + Writes(s, e, After(r).renames[k].id)
  }

  // What every step keeps

  ghost predicate NeverRenamed(s: Sender, id: string) {
    forall r :: r in s.renames ==> r.id != id
  }

  ghost predicate Inside(file: seq<byte>, w: set<int>) {
    forall x :: x in w ==> 0 <= x < |file|
  }

  /** The source's bytes at the offsets of `w`. */
  ghost function Part(file: seq<byte>, w: set<int>): Content
    requires Inside(file, w)
  {
    map x | x in w :: file[x]
  }

  ghost predicate Home(s: Sender, id: string, idx: nat) {
    if s.concurrency <= 1 then idx == 0 else id in s.transferShard && s.transferShard[id] == idx
  }

  /** All calls in flight and all state for the transfer are on its one shard. */
  ghost predicate OneShard(s: Sender, id: string) {
    && (forall x :: x in s.inFlight && x.id == id ==> Home(s, id, x.idx))
    && (forall i :: 0 <= i < |s.states| && id in s.states[i] ==> Home(s, id, i))
  }

  ghost predicate RangesWithin(ranges: seq<FileRange>, w: set<int>) {
    forall x :: Covers(ranges, x) ==> x in w
  }

  ghost predicate StatesWithin(s: Sender, id: string, w: set<int>) {
    forall i :: 0 <= i < |s.states| && id in s.states[i] ==> RangesWithin(s.states[i][id].ranges, w)
  }

  /** What the temporary file held before the writes that `w` counts. */
  ghost function BaseOf(s: Sender, id: string, stale: Content): Content {
    if NeverRenamed(s, id) then stale else map[]
  }

  ghost predicate Overlaid(content: Content, base: Content, file: seq<byte>, w: set<int>) {
    Inside(file, w) && content == base + Part(file, w)
  }

  ghost predicate Tracked(s: Sender, id: string, file: seq<byte>, stale: Content, w: set<int>) {
    && WellFormed(s)
    && Overlaid(TempOf(s, id), BaseOf(s, id, stale), file, w)
    && (NeverRenamed(s, id) ==> OneShard(s, id) && StatesWithin(s, id, w))
    && (forall x :: x in s.inFlight && x.id == id ==> PieceOf(file, x.p.offset, x.p.payload))
  }

  lemma WithStateTracked(s: Sender, idx: nat, sid: string, t: Transfer, id: string, file: seq<byte>, stale: Content, w: set<int>)
    requires Tracked(s, id, file, stale, w) && idx < s.concurrency
    requires Canonical(t.ranges) && t.coveredBytes == TotalBytes(t.ranges)
    requires sid == id && NeverRenamed(s, id) ==> Home(s, id, idx) && RangesWithin(t.ranges, w)
    ensures Tracked(WithState(s, idx, sid, t), id, file, stale, w)
  {
    var s' := WithState(s, idx, sid, t);
    assert TempOf(s', id) == TempOf(s, id) && NeverRenamed(s', id) == NeverRenamed(s, id);
  }

  lemma OverlaidMore(content: Content, base: Content, file: seq<byte>, w: set<int>, offset: int, data: seq<byte>)
    requires Overlaid(content, base, file, w) && PieceOf(file, offset, data)
    ensures Overlaid(content + Piece(offset, data), base, file, w + Interval(offset, offset + |data|))
  {
    var more := w + Interval(offset, offset + |data|);
    forall x | offset <= x < offset + |data|
      ensures Piece(offset, data)[x] == file[x]
    {
      assert data[x - offset] == file[x];
    }
    assert content + Piece(offset, data) == base + Part(file, more);
  }

  lemma WroteTracked(s: Sender, sid: string, offset: int, data: seq<byte>, id: string, file: seq<byte>, stale: Content, w: set<int>)
    requires Tracked(s, id, file, stale, w)
    requires sid == id ==> PieceOf(file, offset, data)
    ensures Tracked(Wrote(s, sid, offset, data), id, file, stale,
              if sid == id then w + Interval(offset, offset + |data|) else w)
  {
    var s' := Wrote(s, sid, offset, data);
    assert NeverRenamed(s', id) == NeverRenamed(s, id);
    if sid == id {
      OverlaidMore(TempOf(s, id), BaseOf(s, id, stale), file, w, offset, data);
      assert TempOf(s', id) == TempOf(s, id) + Piece(offset, data);
    } else {
      assert TempOf(s', id) == TempOf(s, id);
    }
  }

  lemma ReadyCovers(t: Transfer, x: int)
    requires ReadyToCommit(t) && 0 <= x < t.totalSize
    ensures Covers(t.ranges, x)
  {
    assert In(t.ranges[0], x);
  }

  /** Until its first rename a transfer is moved only when the writes cover its size. */
  lemma MovedCovers(s: Sender, idx: nat, id: string, file: seq<byte>, stale: Content, w: set<int>)
    requires Tracked(s, id, file, stale, w) && idx < s.concurrency && id in s.states[idx]
    requires NeverRenamed(s, id) && ReadyToCommit(s.states[idx][id])
    ensures CoversSize(w, s.states[idx][id].totalSize)
  {
    var t := s.states[idx][id];
    forall x | 0 <= x < t.totalSize
      ensures x in w
    {
      ReadyCovers(t, x);
    }
  }

  lemma MovedTracked(s: Sender, idx: nat, sid: string, id: string, file: seq<byte>, stale: Content, w: set<int>)
    requires Tracked(s, id, file, stale, w) && idx < s.concurrency && sid in s.states[idx]
    ensures var s' := Moved(s, sid, s.states[idx][sid].totalSize);
      Tracked(s', id, file, stale, if sid == id then {} else w) && (sid == id ==> !NeverRenamed(s', id))
  {
    var s' := Moved(s, sid, s.states[idx][sid].totalSize);
    assert s'.renames[|s.renames|] in s'.renames;
    assert forall r :: r in s.renames ==> r in s'.renames;
    if sid == id {
      assert Part(file, {}) == map[] && TempOf(s', id) == map[];
    } else {
      assert TempOf(s', id) == TempOf(s, id) && NeverRenamed(s', id) == NeverRenamed(s, id);
    }
  }

  lemma CommittedTracked(s: Sender, idx: nat, sid: string, id: string, file: seq<byte>, stale: Content, w: set<int>)
    requires Tracked(s, id, file, stale, w) && idx < s.concurrency && (sid == id ==> !NeverRenamed(s, id))
    ensures Tracked(Committed(s, idx, sid), id, file, stale, w)
  {
    var s' := Committed(s, idx, sid);
    assert TempOf(s', id) == TempOf(s, id) && NeverRenamed(s', id) == NeverRenamed(s, id);
  }

  ghost predicate CoversSize(w: set<int>, size: int) {
    forall x :: 0 <= x < size ==> x in w
  }

  /** What a rename of the transfer moves, and when it is the first one that the writes cover the size. */
  ghost predicate RenameOf(s: Sender, r: Rename, id: string, file: seq<byte>, stale: Content, w: set<int>) {
    && r.id == id
    && Overlaid(r.content, BaseOf(s, id, stale), file, w)
    && (NeverRenamed(s, id) ==> CoversSize(w, r.totalSize))
  }

  /** From `s` to `s'` at most one rename, of the transfer `sid`. */
  ghost predicate Renaming(s: Sender, s': Sender, sid: string, id: string, file: seq<byte>, stale: Content, w: set<int>) {
    || s'.renames == s.renames
    || (&& |s'.renames| == |s.renames| + 1 && s'.renames[..|s.renames|] == s.renames
        && s'.renames[|s.renames|].id == sid
        && (sid == id ==> RenameOf(s, s'.renames[|s.renames|], id, file, stale, w)))
  }

  /** What a call for `sid` leaves: `w` are the writes so far when the transfer is not moved. */
  ghost predicate Left(s: Sender, s': Sender, sid: string, id: string, file: seq<byte>, stale: Content, w: set<int>) {
    && Tracked(s', id, file, stale, if sid == id && |s.renames| < |s'.renames| then {} else w)
    && Renaming(s, s', sid, id, file, stale, w)
  }

  lemma RemovedTracked(s: Sender, sid: string, id: string, file: seq<byte>, stale: Content, w: set<int>)
    requires Tracked(s, id, file, stale, w)
    ensures Tracked(Removed(s, sid), id, file, stale, w)
  {
    var s' := Removed(s, sid);
    assert TempOf(s', id) == TempOf(s, id) && NeverRenamed(s', id) == NeverRenamed(s, id);
  }

  lemma SettledTracked(s: Sender, idx: nat, sid: string, rename: RenameReply, id: string, file: seq<byte>, stale: Content, w: set<int>)
    requires Tracked(s, id, file, stale, w) && idx < s.concurrency && sid in s.states[idx]
    ensures Left(s, Settled(s, idx, sid, rename), sid, id, file, stale, w)
  {
    if ReadyToCommit(s.states[idx][sid]) && rename.NotRenamed? {
      RemovedTracked(s, sid, id, file, stale, w);
    } else if ReadyToCommit(s.states[idx][sid]) {
      var s1 := Moved(s, sid, s.states[idx][sid].totalSize);
      MovedTracked(s, idx, sid, id, file, stale, w);
      if sid == id && NeverRenamed(s, id) {
        MovedCovers(s, idx, id, file, stale, w);
      }
      if rename.Renamed? {
        CommittedTracked(s1, idx, sid, id, file, stale, if sid == id then {} else w);
      }
    }
  }

  lemma OpenedTracked(s: Sender, idx: nat, sid: string, p: Chunk, id: string, file: seq<byte>, stale: Content, w: set<int>)
    requires Tracked(s, id, file, stale, w) && idx < s.concurrency
    requires sid == id && NeverRenamed(s, id) ==> Home(s, id, idx)
    ensures Tracked(WithState(s, idx, sid, Opened(s.states[idx], sid, p)), id, file, stale, w)
  {
    WithStateTracked(s, idx, sid, Opened(s.states[idx], sid, p), id, file, stale, w);
  }

  lemma RecordTracked(s: Sender, idx: nat, sid: string, p: Chunk, id: string, file: seq<byte>, stale: Content, w: set<int>)
    requires Tracked(s, id, file, stale, w) && idx < s.concurrency && sid in s.states[idx]
    requires sid == id && NeverRenamed(s, id) ==> Home(s, id, idx)
    requires sid == id ==> forall x :: p.offset <= x < p.offset + |p.payload| ==> x in w
    ensures Tracked(WithState(s, idx, sid, Recorded(s.states[idx][sid], p)), id, file, stale, w)
  {
    var t := s.states[idx][sid];
    AddCovers(t.ranges, p.offset, p.offset + |p.payload|);
    WithStateTracked(s, idx, sid, Recorded(t, p), id, file, stale, w);
  }

  ghost function Noted(s: Sender, idx: nat, sid: string, p: Chunk): Sender
    requires WellFormed(s) && idx < s.concurrency && sid in s.states[idx]
  {
    WithState(Wrote(s, sid, p.offset, p.payload), idx, sid, Recorded(s.states[idx][sid], p))
  }

  ghost function Added(sid: string, id: string, w: set<int>, p: Chunk, reply: Reply): set<int> {
    if sid == id then w + WrittenBy(p, reply) else w
  }

  lemma NotedTracked(s: Sender, idx: nat, sid: string, p: Chunk, w': set<int>, id: string, file: seq<byte>, stale: Content, w: set<int>)
    requires Tracked(s, id, file, stale, w) && idx < s.concurrency && sid in s.states[idx]
    requires sid == id && NeverRenamed(s, id) ==> Home(s, id, idx)
    requires sid == id ==> PieceOf(file, p.offset, p.payload)
    requires w' == if sid == id then w + Interval(p.offset, p.offset + |p.payload|) else w
    ensures Tracked(Noted(s, idx, sid, p), id, file, stale, w')
  {
    var s2 := Wrote(s, sid, p.offset, p.payload);
    WroteTracked(s, sid, p.offset, p.payload, id, file, stale, w);
    assert Tracked(s2, id, file, stale, w');
    SameRenames(s, s2, id);
    RecordTracked(s2, idx, sid, p, id, file, stale, w');
  }

  lemma SameRenames(s: Sender, s': Sender, id: string)
    requires s.renames == s'.renames
    ensures NeverRenamed(s', id) == NeverRenamed(s, id)
  {
  }

  lemma LeftSame(s: Sender, s0: Sender, s': Sender, sid: string, id: string, file: seq<byte>, stale: Content, w: set<int>)
    requires Left(s, s', sid, id, file, stale, w) && s0.renames == s.renames
    ensures Left(s0, s', sid, id, file, stale, w)
  {
    assert NeverRenamed(s0, id) == NeverRenamed(s, id);
  }

  lemma WrittenTracked(s: Sender, idx: nat, sid: string, p: Chunk, rename: RenameReply, id: string, file: seq<byte>, stale: Content, w: set<int>)
    requires Tracked(s, id, file, stale, w) && idx < s.concurrency && sid in s.states[idx]
    requires sid == id && NeverRenamed(s, id) ==> Home(s, id, idx)
    requires sid == id ==> PieceOf(file, p.offset, p.payload)
    ensures Left(s, Settled(Noted(s, idx, sid, p), idx, sid, rename), sid, id, file, stale, Added(sid, id, w, p, Written(rename)))
  {
    var s3, w' := Noted(s, idx, sid, p), Added(sid, id, w, p, Written(rename));
    NotedTracked(s, idx, sid, p, w', id, file, stale, w);
    SettledTracked(s3, idx, sid, rename, id, file, stale, w');
    LeftSame(s3, s, Settled(s3, idx, sid, rename), sid, id, file, stale, w');
  }

  lemma LeadingPiece(file: seq<byte>, p: Chunk, reply: Reply)
    requires PieceOf(file, p.offset, p.payload)
    ensures PieceOf(file, p.offset, LeadingPart(p, reply))
  {
  }

  ghost function Started(s: Sender, idx: nat, sid: string, p: Chunk): Sender
    requires idx < |s.states|
  {
    WithState(s, idx, sid, Opened(s.states[idx], sid, p))
  }

  lemma FailedSent(s: Sender, idx: nat, sid: string, p: Chunk, reply: Reply)
    requires WellFormed(s) && idx < s.concurrency && (reply.WriteFailed? || reply.CloseFailed?)
    ensures Sent(s, idx, sid, p, reply) == Wrote(Started(s, idx, sid, p), sid, p.offset, LeadingPart(p, reply))
  {
  }

  lemma PartTracked(s: Sender, sid: string, offset: int, data: seq<byte>, w': set<int>, id: string, file: seq<byte>, stale: Content, w: set<int>)
    requires Tracked(s, id, file, stale, w)
    requires sid == id ==> PieceOf(file, offset, data)
    requires w' == if sid == id then w + Interval(offset, offset + |data|) else w
    ensures Tracked(Wrote(s, sid, offset, data), id, file, stale, w')
  {
    WroteTracked(s, sid, offset, data, id, file, stale, w);
  }

  lemma SentTracked(s: Sender, idx: nat, sid: string, p: Chunk, reply: Reply, id: string, file: seq<byte>, stale: Content, w: set<int>)
    requires Tracked(s, id, file, stale, w) && idx < s.concurrency
    requires sid == id && NeverRenamed(s, id) ==> Home(s, id, idx)
    requires sid == id ==> PieceOf(file, p.offset, p.payload)
    ensures Left(s, Sent(s, idx, sid, p, reply), sid, id, file, stale, Added(sid, id, w, p, reply))
  {
    if reply.Refused? || reply.OpenFailed? {
      assert w + {} == w;
      OpenedTracked(s, idx, sid, p, id, file, stale, w);
    } else if reply.Written? {
      var s1 := Started(s, idx, sid, p);
      OpenedTracked(s, idx, sid, p, id, file, stale, w);
      WrittenTracked(s1, idx, sid, p, reply.rename, id, file, stale, w);
      assert Sent(s, idx, sid, p, reply) == Settled(Noted(s1, idx, sid, p), idx, sid, reply.rename);
      LeftSame(s1, s, Sent(s, idx, sid, p, reply), sid, id, file, stale, Added(sid, id, w, p, reply));
    } else {
      OpenedTracked(s, idx, sid, p, id, file, stale, w);
      if sid == id {
        LeadingPiece(file, p, reply);
      }
      PartTracked(Started(s, idx, sid, p), sid, p.offset, LeadingPart(p, reply), Added(sid, id, w, p, reply), id, file, stale, w);
      FailedSent(s, idx, sid, p, reply);
    }
  }

  lemma ShardTracked(s: Sender, sid: string, id: string, file: seq<byte>, stale: Content, w: set<int>)
    requires Tracked(s, id, file, stale, w)
    ensures var (s', idx) := ShardPicked(s, sid);
      Tracked(s', id, file, stale, w) && idx < s'.concurrency && Home(s', sid, idx)
      && s'.inFlight == s.inFlight
  {
    var s' := ShardPicked(s, sid).0;
    assert TempOf(s', id) == TempOf(s, id);
    SameRenames(s, s', id);
  }

  lemma AppendTracked(s: Sender, x: Sending, id: string, file: seq<byte>, stale: Content, w: set<int>)
    requires Tracked(s, id, file, stale, w) && x.idx < s.concurrency
    requires x.id == id ==> Home(s, id, x.idx) && PieceOf(file, x.p.offset, x.p.payload)
    ensures Tracked(s.(inFlight := s.inFlight + [x]), id, file, stale, w)
  {
    var s' := s.(inFlight := s.inFlight + [x]);
    assert TempOf(s', id) == TempOf(s, id);
    SameRenames(s, s', id);
  }

  lemma PickedTracked(s: Sender, sid: string, p: Chunk, id: string, file: seq<byte>, stale: Content, w: set<int>)
    requires Tracked(s, id, file, stale, w) && (sid == id ==> PieceOf(file, p.offset, p.payload))
    ensures Tracked(Picked(s, sid, p), id, file, stale, w)
  {
    ShardTracked(s, sid, id, file, stale, w);
    var (s', idx) := ShardPicked(s, sid);
    AppendTracked(s', Sending(sid, idx, p), id, file, stale, w);
  }

  ghost function SinceStep(s: Sender, e: Event, id: string, w: set<int>): set<int>
    requires WellFormed(s) && Enabled(s, e)
  {
    if Moves(s, e, id) then {} else w + Writes(s, e, id)
  }

  lemma TakenTracked(s: Sender, k: nat, id: string, file: seq<byte>, stale: Content, w: set<int>)
    requires Tracked(s, id, file, stale, w) && k < |s.inFlight|
    ensures Tracked(Taken(s, k), id, file, stale, w)
  {
    assert TempOf(Taken(s, k), id) == TempOf(s, id);
    SameRenames(s, Taken(s, k), id);
  }

  lemma SendTracked(s: Sender, k: nat, reply: Reply, id: string, file: seq<byte>, stale: Content, w: set<int>)
    requires Tracked(s, id, file, stale, w) && k < |s.inFlight|
    ensures var x := s.inFlight[k];
      Left(Taken(s, k), Step(s, Send(k, reply)), x.id, id, file, stale, Added(x.id, id, w, x.p, reply))
  {
    var x := s.inFlight[k];
    assert x in s.inFlight;
    TakenTracked(s, k, id, file, stale, w);
    SentTracked(Taken(s, k), x.idx, x.id, x.p, reply, id, file, stale, w);
  }

  lemma StepTracked(s: Sender, e: Event, id: string, file: seq<byte>, stale: Content, w: set<int>)
    requires Tracked(s, id, file, stale, w) && Enabled(s, e)
    requires e.Pick? && e.id == id ==> PieceOf(file, e.p.offset, e.p.payload)
    ensures Tracked(Step(s, e), id, file, stale, SinceStep(s, e, id, w))
    ensures e.Pick? ==> Step(s, e).renames == s.renames
    ensures e.Send? ==> Renaming(s, Step(s, e), s.inFlight[e.k].id, id, file, stale, w + Writes(s, e, id))
  {
    assert w + {} == w;
    match e
    case Pick(sid, p) =>
      PickedTracked(s, sid, p, id, file, stale, w);
    case Send(k, reply) =>
      var x := s.inFlight[k];
      SendTracked(s, k, reply, id, file, stale, w);
      assert Added(x.id, id, w, x.p, reply) == w + Writes(s, e, id);
      LeftSame(Taken(s, k), s, Step(s, e), x.id, id, file, stale, w + Writes(s, e, id));
  }

  ghost predicate OfFile(r: Run, id: string, file: seq<byte>) {
    forall k :: 0 <= k < |r.events| && r.events[k].Pick? && r.events[k].id == id ==>
      PieceOf(file, r.events[k].p.offset, r.events[k].p.payload)
  }

  function StaleOf(r: Run, id: string): Content {
    if id in r.stale then r.stale[id] else map[]
  }

  /** In every run, for any retries and connection losses: the temporary file is what an earlier run
      left there, before the first move, or nothing, overlaid with the source's bytes at exactly the
      offsets written since; and until the first move the received ranges are among those. */
  lemma {:induction false} EveryRunTracked(r: Run, id: string, file: seq<byte>)
    requires Possible(r) && OfFile(r, id, file)
    ensures Tracked(After(r), id, file, StaleOf(r, id), WrittenSince(r, id))
    decreases |r.events|
  {
    if r.events == [] {
      assert Part(file, {}) == map[];
    } else {
      EveryRunTracked(Before(r), id, file);
      StepTracked(After(Before(r)), LastEvent(r), id, file, StaleOf(r, id), WrittenSince(Before(r), id));
    }
  }

  /** The transfer has state, or a call in flight, on shard `i`. */
  ghost predicate Uses(s: Sender, id: string, i: nat) {
    (i < |s.states| && id in s.states[i]) || exists x :: x in s.inFlight && x.id == id && x.idx == i
  }

  /** Until its first rename a transfer is on one shard only. */
  lemma OneShardUntilRenamed(r: Run, id: string, file: seq<byte>, i: nat, j: nat)
    requires Possible(r) && OfFile(r, id, file) && NeverRenamed(After(r), id)
    requires Uses(After(r), id, i) && Uses(After(r), id, j)
    ensures i == j
  {
    EveryRunTracked(r, id, file);
    var s := After(r);
    assert OneShard(s, id);
    assert Home(s, id, i) && Home(s, id, j);
  }
}
