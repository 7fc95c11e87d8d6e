/**
 * The SFTP sender.
 *
 * Chunks of a transfer are written into a temporary file, which is renamed when EOF was seen and the
 * received ranges cover the size.  One step is one locked section; every remote call may fail, a
 * failed write may have written any leading part, and a rename may be carried out although its
 * reply is lost.
 */
module Sftp {
  import opened Bytes
  import opened Ranges

  const UINT64: nat := 0x1_0000_0000_0000_0000

  datatype Chunk = Chunk(offset: int, payload: seq<byte>, totalSize: int, eof: bool)

  datatype Transfer = Transfer(totalSize: int, eofSeen: bool, ranges: seq<FileRange>, coveredBytes: int)

  /** The bytes of a remote file that have been written, by offset. */
  type Content = map<int, byte>

  /** Before renaming, the file at the final path is removed; that it is gone is all that a failed
      rename may then leave. */
  datatype RenameReply = Renamed | NotRenamed(removed: bool) | ReplyLost

  /** How the remote side answers one `sendLocked` call. */
  datatype Reply =
    | Refused
    | OpenFailed
    | WriteFailed(written: nat)
    | CloseFailed
    | Written(rename: RenameReply)

  datatype Rename = Rename(id: string, content: Content, totalSize: int)

  datatype Sending = Sending(id: string, idx: nat, p: Chunk)

  datatype Sender = Sender(
    concurrency: nat,
    nextIdx: nat,
    transferShard: map<string, nat>,
    states: seq<map<string, Transfer>>,
    temp: map<string, Content>,
    finals: map<string, Content>,
    inFlight: seq<Sending>,
    renames: seq<Rename>)

  predicate ReadyToCommit(t: Transfer) {
    && t.eofSeen
    && |t.ranges| == 1
    && (t.totalSize <= 0 || (t.totalSize <= t.coveredBytes && t.ranges[0].start == 0 && t.totalSize <= t.ranges[0].end))
  }

  function Piece(offset: int, data: seq<byte>): Content {
    map x {:trigger data[x - offset]} | offset <= x < offset + |data| :: data[x - offset]
  }

  function TempOf(s: Sender, id: string): Content {
    if id in s.temp then s.temp[id] else map[]
  }

  /** Round robin over the shards; the concurrency is a power of two, so masking is a remainder. */
  function ShardPicked(s: Sender, id: string): (Sender, nat)
    requires 0 < s.concurrency
  {
    if s.concurrency <= 1 then (s, 0)
    else if id in s.transferShard then (s, s.transferShard[id])
    else
      var n := (s.nextIdx + 1) % UINT64;
      (s.(nextIdx := n, transferShard := s.transferShard[id := n % s.concurrency]), n % s.concurrency)
  }

  /** The transfer state found or created for a packet, with the size it announces. */
  function Opened(states: map<string, Transfer>, id: string, p: Chunk): Transfer {
    var t := if id in states then states[id] else Transfer(p.totalSize, false, [], 0);
    if p.totalSize > 0 then t.(totalSize := p.totalSize) else t
  }

  function WithState(s: Sender, idx: nat, id: string, t: Transfer): Sender
    requires idx < |s.states|
  {
    s.(states := s.states[idx := s.states[idx][id := t]])
  }

  function Wrote(s: Sender, id: string, offset: int, data: seq<byte>): Sender {
    s.(temp := s.temp[id := TempOf(s, id) + Piece(offset, data)])
  }

  ghost function Recorded(t: Transfer, p: Chunk): Transfer
    requires Canonical(t.ranges)
  {
    var ranges := Add(t.ranges, p.offset, p.offset + |p.payload|);
    t.(ranges := ranges, coveredBytes := TotalBytes(ranges), eofSeen := t.eofSeen || p.eof)
  }

  function Committed(s: Sender, idx: nat, id: string): Sender
    requires idx < |s.states|
  {
    s.(states := s.states[idx := s.states[idx] - {id}], transferShard := s.transferShard - {id})
  }

  /** The remote side moves the temporary file to its final path. */
  function Moved(s: Sender, id: string, totalSize: int): Sender {
    s.(temp := s.temp - {id}, finals := s.finals[id := TempOf(s, id)],
       renames := s.renames + [Rename(id, TempOf(s, id), totalSize)])
  }

  function Removed(s: Sender, id: string): Sender {
    s.(finals := s.finals - {id})
  }

  /** The commit decision after a recorded chunk. */
  function Settled(s: Sender, idx: nat, id: string, rename: RenameReply): Sender
    requires idx < |s.states| && id in s.states[idx]
  {
    var t := s.states[idx][id];
    if !ReadyToCommit(t) then s
    else if rename.NotRenamed? then if rename.removed then Removed(s, id) else s
    else if rename.ReplyLost? then Moved(s, id, t.totalSize)
    else Committed(Moved(s, id, t.totalSize), idx, id)
  }

  ghost predicate Stateful(states: seq<map<string, Transfer>>) {
    forall i, id :: 0 <= i < |states| && id in states[i] ==>
      Canonical(states[i][id].ranges) && states[i][id].coveredBytes == TotalBytes(states[i][id].ranges)
  }

  /** One packet under its shard's lock. */
  ghost function Sent(s: Sender, idx: nat, id: string, p: Chunk, reply: Reply): Sender
    requires idx < |s.states| && Stateful(s.states)
  {
    if reply.Refused? then s
    else
      var t := Opened(s.states[idx], id, p);
      var s1 := WithState(s, idx, id, t);
      match reply
      case OpenFailed => s1
      case WriteFailed(n) => Wrote(s1, id, p.offset, p.payload[..if n <= |p.payload| then n else |p.payload|])
      case CloseFailed => Wrote(s1, id, p.offset, p.payload)
      case Written(rename) =>
        Settled(WithState(Wrote(s1, id, p.offset, p.payload), idx, id, Recorded(t, p)), idx, id, rename)
  }

  /** A fresh sender; earlier runs may have left temporary and final files behind. */
  function Init(concurrency: nat, stale: map<string, Content>, existing: map<string, Content>): Sender {
    Sender(concurrency, 0, map[], seq(concurrency, i => map[]), stale, existing, [], [])
  }

  class SftpSender {
    const concurrency: nat
    var nextIdx: nat
    var transferShard: map<string, nat>
    var states: seq<map<string, Transfer>>
    ghost var temp: map<string, Content>
    ghost var finals: map<string, Content>
    ghost var inFlight: seq<Sending>
    ghost var renames: seq<Rename>

    ghost function View(): Sender
      reads this
    {
      Sender(concurrency, nextIdx, transferShard, states, temp, finals, inFlight, renames)
    }

    ghost predicate Valid()
      reads this
    {
      && 0 < concurrency == |states|
      && (forall id :: id in transferShard ==> transferShard[id] < concurrency)
      && Stateful(states)
    }

    method PickShard(id: string) returns (idx: nat)
      requires Valid()
      modifies `nextIdx, `transferShard
      ensures Valid() && idx < concurrency
      ensures (View(), idx) == ShardPicked(old(View()), id)
    {
      if concurrency <= 1 {
        return 0;
      }
      if id in transferShard {
        return transferShard[id];
      }
      nextIdx := (nextIdx + 1) % UINT64;
      idx := nextIdx % concurrency;
      transferShard := transferShard[id := idx];
    }

    constructor (shards: nat, stale: map<string, Content>, existing: map<string, Content>)
      requires 0 < shards
      ensures Valid()
      ensures View() == Init(shards, stale, existing)
    {
      concurrency, nextIdx, transferShard := shards, 0, map[];
      states := seq(shards, i => map[]);
      temp, finals, inFlight, renames := stale, existing, [], [];
    }

    /** One packet under its shard's lock; `temp`, `finals` and `renames` are the remote side. */
    method SendLocked(idx: nat, id: string, p: Chunk, reply: Reply) returns (ok: bool)
      requires Valid() && idx < concurrency
      modifies `states, `transferShard, `temp, `finals, `renames
      ensures Valid()
      ensures View() == Sent(old(View()), idx, id, p, reply)
    {
      if reply.Refused? {
        return false;
      }
      var t := if id in states[idx] then states[idx][id] else Transfer(p.totalSize, false, [], 0);
      if p.totalSize > 0 {
        t := t.(totalSize := p.totalSize);
      }
      SetState(idx, id, t);
      match reply
      case OpenFailed => return false;
      case WriteFailed(n) =>
        WriteAt(id, p.offset, p.payload[..if n <= |p.payload| then n else |p.payload|]);
        return false;
      case CloseFailed =>
        WriteAt(id, p.offset, p.payload);
        return false;
      case Written(rename) =>
        WriteAt(id, p.offset, p.payload);
        ok := RecordChunk(idx, id, t, p, rename);
    }

    method RecordChunk(idx: nat, id: string, t: Transfer, p: Chunk, rename: RenameReply) returns (ok: bool)
      requires Valid() && idx < concurrency && Canonical(t.ranges) && t.coveredBytes == TotalBytes(t.ranges)
      modifies `states, `transferShard, `temp, `finals, `renames
      ensures Valid()
      ensures View() == Settled(WithState(old(View()), idx, id, Recorded(t, p)), idx, id, rename)
    {
      var ranges, covered := AddRange(t.ranges, t.coveredBytes, p.offset, p.offset + |p.payload|);
      var noted := t.(ranges := ranges, coveredBytes := covered, eofSeen := t.eofSeen || p.eof);
      assert noted == Recorded(t, p);
      SetState(idx, id, noted);
      assert View() == WithState(old(View()), idx, id, Recorded(t, p));
      ok := Commit(idx, id, rename);
    }

    method SetState(idx: nat, id: string, t: Transfer)
      requires Valid() && idx < concurrency && Canonical(t.ranges) && t.coveredBytes == TotalBytes(t.ranges)
      modifies `states
      ensures Valid() && id in states[idx] && states[idx][id] == t
      ensures View() == WithState(old(View()), idx, id, t)
    {
      states := states[idx := states[idx][id := t]];
    }

    ghost method WriteAt(id: string, offset: int, data: seq<byte>)
      requires Valid()
      modifies `temp
      ensures Valid() && View() == Wrote(old(View()), id, offset, data)
    {
      temp := temp[id := TempOf(View(), id) + Piece(offset, data)];
    }

    method Commit(idx: nat, id: string, rename: RenameReply) returns (ok: bool)
      requires Valid() && idx < concurrency && id in states[idx]
      modifies `states, `transferShard, `temp, `finals, `renames
      ensures Valid()
      ensures View() == Settled(old(View()), idx, id, rename)
      ensures ok <==> !ReadyToCommit(old(states)[idx][id]) || rename.Renamed?
    {
      if !ReadyToCommit(states[idx][id]) {
        return true;
      }
      if rename.NotRenamed? {
        finals := if rename.removed then finals - {id} else finals;
        return false;
      }
      renames := renames + [Rename(id, TempOf(View(), id), states[idx][id].totalSize)];
      finals := finals[id := TempOf(View(), id)];
      temp := temp - {id};
      if rename.ReplyLost? {
        return false;
      }
      CleanupCommittedTransfer(idx, id);
      return true;
    }

    method CleanupCommittedTransfer(idx: nat, id: string)
      requires Valid() && idx < concurrency
      modifies `states, `transferShard
      ensures Valid()
      ensures View() == Committed(old(View()), idx, id)
    {
      states := states[idx := states[idx] - {id}];
      transferShard := transferShard - {id};
    }
  }
}
