/** Fan-out of received packets to tasks, over pooled buffers. */
module Dispatch {
  import opened Bytes
  import opened Options
  import T = TaskProtocol

  // The dispatcher clones the packet for every matched task but the first, hands the clones over,
  // and hands the original over last.  Each task is a full accept/run/stop protocol; while it runs a
  // packet it may rewrite the payload in place, and whatever else uses the pool may take any buffer
  // that has been put back.

  /** Who must release a packet. */
  datatype Holder = Dispatcher(d: nat) | Call(t: nat, c: nat)

  /** `armed` is a non-nil release function; `start` is what the payload held when a task began to
      run the packet, `original` what was received. */
  datatype Packet = Packet(
    buf: nat, original: seq<byte>, armed: bool, releases: nat, start: Option<seq<byte>>, holder: Holder)

  /** `given` lists the clones handed over so far, for the second matched task onwards. */
  datatype Job = Job(packet: nat, tasks: seq<nat>, given: seq<nat>, done: bool)

  datatype Pool = Pool(mem: map<nat, seq<byte>>, free: set<nat>)

  datatype System = System(
    tasks: seq<T.Task>, calls: seq<seq<nat>>, packets: seq<Packet>, jobs: seq<Job>, pool: Pool)

  datatype Event =
    | Receive(payload: seq<byte>, matched: seq<nat>, buf: nat)
    | DropUnmatched(d: nat)
    | HandClone(d: nat, buf: nat)
    | HandOriginal(d: nat)
    | TaskStep(t: nat, e: T.Event)
    | Rewrite(t: nat, c: nat, content: seq<byte>)
    | ForeignGet(buf: nat, content: seq<byte>)
    | ForeignPut(buf: nat)

  // The pool

  /** A buffer the pool may hand out: one that was put back, or a new one. */
  predicate Available(pool: Pool, buf: nat) {
    buf in pool.free || buf !in pool.mem
  }

  function Get(pool: Pool, buf: nat, content: seq<byte>): Pool {
    Pool(pool.mem[buf := content], pool.free - {buf})
  }

  function Put(pool: Pool, buf: nat): Pool {
    pool.(free := pool.free + {buf})
  }

  // Packets

  /** `Release` runs the release function once and clears it. */
  function Release(s: System, p: nat): System
    requires p < |s.packets|
  {
    if s.packets[p].armed then
      s.(packets := s.packets[p := s.packets[p].(armed := false, releases := s.packets[p].releases + 1)],
         pool := Put(s.pool, s.packets[p].buf))
    else s
  }

  function Fresh(buf: nat, payload: seq<byte>, holder: Holder): Packet {
    Packet(buf, payload, true, 0, None, holder)
  }

  function Arrived(t: T.Task): T.Task {
    t.(calls := t.calls + [T.Arrived], releases := t.releases + [0])
  }

  function Payload(s: System, p: nat): seq<byte>
    requires p < |s.packets| && s.packets[p].buf in s.pool.mem
  {
    s.pool.mem[s.packets[p].buf]
  }

  predicate Starts(t: T.Task, e: T.Event) {
    e.RunInline? || e.PoolStart? || (e.WorkerTake? && t.queue != [])
  }

  function StartedCall(t: T.Task, e: T.Event): nat
    requires Starts(t, e)
  {
    if e.WorkerTake? then t.queue[0] else e.c
  }

  function Begin(s: System, p: nat): System
    requires p < |s.packets| && s.packets[p].buf in s.pool.mem
  {
    s.(packets := s.packets[p := s.packets[p].(start := Some(Payload(s, p)))])
  }

  // Steps

  predicate TaskShaped(task: T.Task, cs: seq<nat>, packets: nat) {
    |cs| == |task.calls| == |task.releases| && (forall c :: 0 <= c < |cs| ==> cs[c] < packets)
  }

  predicate JobShaped(j: Job, packets: nat, tasks: nat) {
    j.packet < packets && (forall k :: 0 <= k < |j.tasks| ==> j.tasks[k] < tasks)
  }

  ghost predicate Shaped(s: System) {
    && |s.calls| == |s.tasks|
    && (forall t :: 0 <= t < |s.tasks| ==> TaskShaped(s.tasks[t], s.calls[t], |s.packets|))
    && (forall d :: 0 <= d < |s.jobs| ==> JobShaped(s.jobs[d], |s.packets|, |s.tasks|))
    && (forall p :: 0 <= p < |s.packets| ==> s.packets[p].buf in s.pool.mem)
  }

  ghost predicate ForeignBuffer(s: System, buf: nat) {
    && buf in s.pool.mem && buf !in s.pool.free
    && (forall p :: 0 <= p < |s.packets| && s.packets[p].armed ==> s.packets[p].buf != buf)
  }

  predicate Open(s: System, d: nat) {
    d < |s.jobs| && !s.jobs[d].done
  }

  ghost predicate Enabled(s: System, e: Event) {
    match e
    case Receive(_, matched, buf) =>
      Available(s.pool, buf) && (forall k :: 0 <= k < |matched| ==> matched[k] < |s.tasks|)
    case DropUnmatched(d) => Open(s, d) && s.jobs[d].tasks == []
    case HandClone(d, buf) =>
      Open(s, d) && |s.jobs[d].given| + 1 < |s.jobs[d].tasks| && Available(s.pool, buf)
    case HandOriginal(d) => Open(s, d) && |s.jobs[d].given| + 1 == |s.jobs[d].tasks|
    case TaskStep(t, te) => t < |s.tasks| && T.Enabled(s.tasks[t], te) && !te.Arrive?
    case Rewrite(t, c, content) => t < |s.tasks| && T.At(s.tasks[t], c, T.Running)
    case ForeignGet(buf, _) => Available(s.pool, buf)
    case ForeignPut(buf) => ForeignBuffer(s, buf)
  }

  ghost function Received(s: System, payload: seq<byte>, matched: seq<nat>, buf: nat): System {
    s.(packets := s.packets + [Fresh(buf, payload, Dispatcher(|s.jobs|))],
       jobs := s.jobs + [Job(|s.packets|, matched, [], false)],
       pool := Get(s.pool, buf, payload))
  }

  ghost function Dropped(s: System, d: nat): System
    requires Shaped(s) && d < |s.jobs|
  {
    Release(s, s.jobs[d].packet).(jobs := s.jobs[d := s.jobs[d].(done := true)])
  }

  /** `Clone`: a packet of its own over another buffer, with the payload as it is now, and the next
      matched task takes it over. */
  ghost function CloneHanded(s: System, d: nat, buf: nat): System
    requires Shaped(s) && Enabled(s, HandClone(d, buf))
  {
    var j := s.jobs[d];
    var t := j.tasks[|j.given| + 1];
    var payload := Payload(s, j.packet);
    s.(tasks := s.tasks[t := Arrived(s.tasks[t])],
       calls := s.calls[t := s.calls[t] + [|s.packets|]],
       packets := s.packets + [Fresh(buf, payload, Call(t, |s.calls[t]|))],
       jobs := s.jobs[d := j.(given := j.given + [|s.packets|])],
       pool := Get(s.pool, buf, payload))
  }

  /** The first matched task takes over the original. */
  ghost function OriginalHanded(s: System, d: nat): System
    requires Shaped(s) && Enabled(s, HandOriginal(d))
  {
    var j := s.jobs[d];
    var t := j.tasks[0];
    s.(tasks := s.tasks[t := Arrived(s.tasks[t])],
       calls := s.calls[t := s.calls[t] + [j.packet]],
       packets := s.packets[j.packet := s.packets[j.packet].(holder := Call(t, |s.calls[t]|))],
       jobs := s.jobs[d := j.(done := true)])
  }

  ghost function Stepped(s: System, t: nat, e: T.Event): System
    requires Shaped(s) && Enabled(s, TaskStep(t, e))
  {
    assert TaskShaped(s.tasks[t], s.calls[t], |s.packets|);
    var next := s.(tasks := s.tasks[t := T.Step(s.tasks[t], e)]);
    if Starts(s.tasks[t], e) then Begin(next, s.calls[t][StartedCall(s.tasks[t], e)])
    else if e.Release? then Release(next, s.calls[t][e.c])
    else next
  }

  ghost function Rewritten(s: System, t: nat, c: nat, content: seq<byte>): System
    requires Shaped(s) && Enabled(s, Rewrite(t, c, content))
  {
    assert TaskShaped(s.tasks[t], s.calls[t], |s.packets|);
    s.(pool := s.pool.(mem := s.pool.mem[s.packets[s.calls[t][c]].buf := content]))
  }

  ghost function Step(s: System, e: Event): System
    requires Shaped(s) && Enabled(s, e)
  {
    match e
    case Receive(payload, matched, buf) => Received(s, payload, matched, buf)
    case DropUnmatched(d) => Dropped(s, d)
    case HandClone(d, buf) => CloneHanded(s, d, buf)
    case HandOriginal(d) => OriginalHanded(s, d)
    case TaskStep(t, te) => Stepped(s, t, te)
    case Rewrite(t, c, content) => Rewritten(s, t, c, content)
    case ForeignGet(buf, content) => s.(pool := Get(s.pool, buf, content))
    case ForeignPut(buf) => s.(pool := Put(s.pool, buf))
  }

  // What every step keeps

  /** Armed packets own distinct buffers outside the free list, a packet holds what was received
      until a task runs it, and it has been released once or not at all. */
  ghost predicate PacketsOk(packets: seq<Packet>, pool: Pool) {
    && (forall p :: 0 <= p < |packets| ==> PacketOk(packets[p], pool))
    && (forall p, q :: 0 <= p < |packets| && 0 <= q < |packets| && p != q ==> Apart(packets[p], packets[q]))
  }

  ghost predicate PacketOk(p: Packet, pool: Pool) {
    && p.buf in pool.mem
    && (p.armed ==> p.buf !in pool.free)
    && (p.armed && p.start.None? ==> pool.mem[p.buf] == p.original)
    && (p.start.Some? ==> p.start.value == p.original)
    && p.releases == (if p.armed then 0 else 1)
  }

  predicate Apart(p: Packet, q: Packet) {
    p.armed && q.armed ==> p.buf != q.buf
  }

  predicate NotRun(ph: T.Phase) {
    ph.Arrived? || ph.Admitted? || ph.Queued? || ph.Submitted? || ph.Refused? || ph.Dropped?
  }

  /** A packet and the call that holds it agree. */
  predicate Agree(p: Packet, holder: Holder, ph: T.Phase, releases: nat) {
    && p.holder == holder
    && p.releases == releases
    && (NotRun(ph) ==> p.start.None?)
    && (ph.Running? ==> p.start.Some?)
  }

  ghost predicate TaskOk(t: nat, task: T.Task, cs: seq<nat>, packets: seq<Packet>) {
    && T.Inv(task) && TaskShaped(task, cs, |packets|)
    && (forall c :: 0 <= c < |cs| ==> Agree(packets[cs[c]], Call(t, c), task.calls[c], task.releases[c]))
  }

  ghost predicate TasksOk(tasks: seq<T.Task>, calls: seq<seq<nat>>, packets: seq<Packet>) {
    |calls| == |tasks| && forall t :: 0 <= t < |tasks| ==> TaskOk(t, tasks[t], calls[t], packets)
  }

  /** The dispatcher holds a packet only until its job is done. */
  ghost predicate HolderOk(p: nat, packet: Packet, calls: seq<seq<nat>>, jobs: seq<Job>) {
    match packet.holder
    case Dispatcher(d) =>
      && d < |jobs| && jobs[d].packet == p && packet.start.None?
      && (jobs[d].done <==> !packet.armed)
    case Call(t, c) => t < |calls| && c < |calls[t]| && calls[t][c] == p
  }

  ghost predicate HoldersOk(packets: seq<Packet>, calls: seq<seq<nat>>, jobs: seq<Job>) {
    forall p :: 0 <= p < |packets| ==> HolderOk(p, packets[p], calls, jobs)
  }

  predicate HeldBy(packets: seq<Packet>, p: nat, t: nat, original: seq<byte>) {
    p < |packets| && packets[p].holder.Call? && packets[p].holder.t == t && packets[p].original == original
  }

  /** A job has handed one packet with the received bytes to each matched task it got to. */
  ghost predicate JobOk(d: nat, j: Job, packets: seq<Packet>, tasks: nat) {
    && JobShaped(j, |packets|, tasks)
    && (j.tasks == [] ==> j.given == []) && (j.tasks != [] ==> |j.given| < |j.tasks|)
    && (forall k :: 0 <= k < |j.given| ==>
          j.packet < j.given[k] && HeldBy(packets, j.given[k], j.tasks[k + 1], packets[j.packet].original))
    && (forall k, l :: 0 <= k < l < |j.given| ==> j.given[k] < j.given[l])
    && (!j.done || j.tasks == [] ==> packets[j.packet].holder == Dispatcher(d))
    && (j.done && j.tasks != [] ==>
          |j.given| + 1 == |j.tasks| && HeldBy(packets, j.packet, j.tasks[0], packets[j.packet].original))
  }

  ghost predicate JobsOk(jobs: seq<Job>, packets: seq<Packet>, tasks: nat) {
    forall d :: 0 <= d < |jobs| ==> JobOk(d, jobs[d], packets, tasks)
  }

  ghost predicate Inv(s: System) {
    && PacketsOk(s.packets, s.pool)
    && TasksOk(s.tasks, s.calls, s.packets)
    && HoldersOk(s.packets, s.calls, s.jobs)
    && JobsOk(s.jobs, s.packets, |s.tasks|)
  }

  lemma InvShaped(s: System)
    requires Inv(s)
    ensures Shaped(s)
  {
    forall t | 0 <= t < |s.tasks|
      ensures TaskShaped(s.tasks[t], s.calls[t], |s.packets|)
    {
      assert TaskOk(t, s.tasks[t], s.calls[t], s.packets);
    }
    forall d | 0 <= d < |s.jobs|
      ensures JobShaped(s.jobs[d], |s.packets|, |s.tasks|)
    {
      assert JobOk(d, s.jobs[d], s.packets, |s.tasks|);
    }
    forall p | 0 <= p < |s.packets|
      ensures s.packets[p].buf in s.pool.mem
    {
      assert PacketOk(s.packets[p], s.pool);
    }
  }

  // Packets and pool

  lemma AddPacket(packets: seq<Packet>, pool: Pool, buf: nat, payload: seq<byte>, holder: Holder)
    requires PacketsOk(packets, pool) && Available(pool, buf)
    ensures PacketsOk(packets + [Fresh(buf, payload, holder)], Get(pool, buf, payload))
  {
    var more := packets + [Fresh(buf, payload, holder)];
    GetKeeps(packets, pool, buf, payload);
    forall p, q | 0 <= p < |more| && 0 <= q < |more| && p != q
      ensures Apart(more[p], more[q])
    {
      if p < |packets| && q < |packets| {
        assert Apart(packets[p], packets[q]);
      } else if p < |packets| {
        assert PacketOk(packets[p], pool);
      } else {
        assert PacketOk(packets[q], pool);
      }
    }
  }

  /** Whatever takes an available buffer leaves the armed packets alone. */
  lemma GetKeeps(packets: seq<Packet>, pool: Pool, buf: nat, content: seq<byte>)
    requires PacketsOk(packets, pool) && Available(pool, buf)
    ensures PacketsOk(packets, Get(pool, buf, content))
  {
    forall p | 0 <= p < |packets|
      ensures PacketOk(packets[p], Get(pool, buf, content))
    {
      assert PacketOk(packets[p], pool);
    }
  }

  lemma PutKeeps(packets: seq<Packet>, pool: Pool, buf: nat)
    requires PacketsOk(packets, pool)
    requires forall p :: 0 <= p < |packets| && packets[p].armed ==> packets[p].buf != buf
    ensures PacketsOk(packets, Put(pool, buf))
  {
    forall p | 0 <= p < |packets|
      ensures PacketOk(packets[p], Put(pool, buf))
    {
      assert PacketOk(packets[p], pool);
    }
  }

  lemma ReplacePacket(packets: seq<Packet>, pool: Pool, p: nat, q: Packet)
    requires PacketsOk(packets, pool) && p < |packets| && PacketOk(q, pool)
    requires q.armed ==> packets[p].armed && q.buf == packets[p].buf
    ensures PacketsOk(packets[p := q], pool)
  {
    var next := packets[p := q];
    forall i, j | 0 <= i < |next| && 0 <= j < |next| && i != j
      ensures Apart(next[i], next[j])
    {
      assert Apart(packets[i], packets[j]);
    }
  }

  lemma ReleaseKeeps(packets: seq<Packet>, pool: Pool, p: nat)
    requires PacketsOk(packets, pool) && p < |packets| && packets[p].armed
    ensures PacketsOk(packets[p := packets[p].(armed := false, releases := packets[p].releases + 1)],
                      Put(pool, packets[p].buf))
  {
    var q := packets[p].(armed := false, releases := packets[p].releases + 1);
    assert PacketOk(packets[p], pool);
    ReplacePacket(packets, pool, p, q);
    forall i | 0 <= i < |packets| && i != p && packets[i].armed
      ensures packets[i].buf != packets[p].buf
    {
      assert Apart(packets[i], packets[p]);
    }
    PutKeeps(packets[p := q], pool, packets[p].buf);
  }

  lemma RewriteKeeps(packets: seq<Packet>, pool: Pool, p: nat, content: seq<byte>)
    requires PacketsOk(packets, pool) && p < |packets| && packets[p].armed && packets[p].start.Some?
    ensures PacketsOk(packets, pool.(mem := pool.mem[packets[p].buf := content]))
  {
    forall i | 0 <= i < |packets|
      ensures PacketOk(packets[i], pool.(mem := pool.mem[packets[p].buf := content]))
    {
      assert PacketOk(packets[i], pool);
      if i != p {
        assert Apart(packets[i], packets[p]);
      }
    }
  }

  // Tasks

  predicate OfTask(h: Holder, t: nat) {
    h.Call? && h.t == t
  }

  /** A task does not notice changes to packets it does not hold. */
  lemma OtherTask(t: nat, task: T.Task, cs: seq<nat>, packets: seq<Packet>, p: nat, q: Packet)
    requires TaskOk(t, task, cs, packets) && p < |packets| && !OfTask(packets[p].holder, t)
    ensures TaskOk(t, task, cs, packets[p := q])
  {
    forall c | 0 <= c < |cs|
      ensures Agree(packets[p := q][cs[c]], Call(t, c), task.calls[c], task.releases[c])
    {
      assert Agree(packets[cs[c]], Call(t, c), task.calls[c], task.releases[c]);
    }
  }

  lemma MorePackets(t: nat, task: T.Task, cs: seq<nat>, packets: seq<Packet>, q: Packet)
    requires TaskOk(t, task, cs, packets)
    ensures TaskOk(t, task, cs, packets + [q])
  {
    forall c | 0 <= c < |cs|
      ensures Agree((packets + [q])[cs[c]], Call(t, c), task.calls[c], task.releases[c])
    {
      assert Agree(packets[cs[c]], Call(t, c), task.calls[c], task.releases[c]);
    }
  }

  /** One more call, holding packet `p`. */
  lemma OneMoreCall(t: nat, task: T.Task, cs: seq<nat>, packets: seq<Packet>, p: nat)
    requires TaskOk(t, task, cs, packets) && p < |packets|
    requires packets[p].holder == Call(t, |cs|) && packets[p].releases == 0 && packets[p].start.None?
    ensures TaskOk(t, Arrived(task), cs + [p], packets)
  {
    T.ArriveInv(task);
    assert Arrived(task) == T.Step(task, T.Arrive);
    forall c | 0 <= c < |cs + [p]|
      ensures Agree(packets[(cs + [p])[c]], Call(t, c), Arrived(task).calls[c], Arrived(task).releases[c])
    {
      if c < |cs| {
        assert Agree(packets[cs[c]], Call(t, c), task.calls[c], task.releases[c]);
      }
    }
  }

  lemma HeadIsQueued(t: T.Task)
    requires T.QueueOk(t.model, t.calls, t.queue) && t.queue != []
    ensures t.queue[0] < |t.calls| && t.calls[t.queue[0]].Queued?
  {
    assert t.queue[0] in t.queue;
  }

  predicate Movable(t: T.Task, e: T.Event) {
    && |t.releases| == |t.calls| && T.Enabled(t, e) && T.IsCallStep(e)
    && (e.WorkerTake? ==> t.calls[t.queue[0]].Queued?)
  }

  /** The phase a step moves its call to. */
  function NextPhase(t: T.Task, e: T.Event): T.Phase
    requires Movable(t, e)
  {
    match e
    case Enter(_) => if t.accepting then T.Admitted else T.Refused
    case RunInline(_) => T.Running
    case PoolStart(_) => T.Running
    case WorkerTake => T.Running
    case Submit(_) => T.Submitted
    case Enqueue(_) => T.Queued
    case Abandon(_) => T.Dropped
    case Process(_) => T.Ran
    case Release(c) => if t.calls[c].Ran? then T.Released else T.Finished
    case _ => T.Finished
  }

  function NextReleases(t: T.Task, e: T.Event): seq<nat>
    requires Movable(t, e)
  {
    match e
    case Release(c) => t.releases[c := t.releases[c] + 1]
    case _ => t.releases
  }

  /** A step of a task moves one call. */
  lemma StepMoves(t: T.Task, e: T.Event)
    requires Movable(t, e)
    ensures T.CallOf(t, e) < |t.calls|
    ensures T.Step(t, e).calls == t.calls[T.CallOf(t, e) := NextPhase(t, e)]
    ensures T.Step(t, e).releases == NextReleases(t, e)
  {
    match e
    case Enter(c) =>
    case RunInline(c) =>
    case PoolStart(c) =>
    case WorkerTake =>
    case Submit(c) =>
    case Enqueue(c) =>
    case Abandon(c) =>
    case Process(c) =>
    case Release(c) =>
    case Done(c) =>
  }

  /** What the move means for the packet of that call. */
  lemma MoveMeans(t: T.Task, e: T.Event)
    requires Movable(t, e)
    ensures var c, ph := T.CallOf(t, e), NextPhase(t, e);
            && c < |t.calls|
            && (Starts(t, e) <==> ph.Running?)
            && (Starts(t, e) ==> StartedCall(t, e) == c && NotRun(t.calls[c]))
            && (NotRun(ph) ==> NotRun(t.calls[c]))
            && (e.Release? ==> c == e.c)
  {
    match e
    case Enter(c) =>
    case RunInline(c) =>
    case PoolStart(c) =>
    case WorkerTake =>
    case Submit(c) =>
    case Enqueue(c) =>
    case Abandon(c) =>
    case Process(c) =>
    case Release(c) =>
    case Done(c) =>
  }

  /** A call that is about to release its packet has not done so yet. */
  lemma ReleaseIsFirst(t: T.Task, c: nat)
    requires T.ReleasesOk(t.calls, t.releases) && T.Enabled(t, T.Release(c))
    ensures t.releases[c] == 0
  {
  }

  lemma QuietStep(t: T.Task, e: T.Event)
    requires |t.releases| == |t.calls| && T.Enabled(t, e) && (e.WorkerExit? || e.StopStep?)
    ensures T.Step(t, e).calls == t.calls && T.Step(t, e).releases == t.releases
    ensures !Starts(t, e) && !e.Release?
  {
    match e
    case WorkerExit =>
    case StopStep =>
      match t.stop
      case NotStopped =>
      case Waiting =>
      case Waited =>
      case Detached =>
      case PoolReleased =>
      case Closed =>
      case Joined =>
  }

  /** A task step together with what it does to the packet of the call it moves. */
  lemma StepTask(t: nat, task: T.Task, cs: seq<nat>, packets: seq<Packet>, e: T.Event, q: Packet)
    requires TaskOk(t, task, cs, packets) && Movable(task, e)
    requires T.CallOf(task, e) < |cs|
    requires Agree(q, Call(t, T.CallOf(task, e)), NextPhase(task, e), NextReleases(task, e)[T.CallOf(task, e)])
    ensures TaskOk(t, T.Step(task, e), cs, packets[cs[T.CallOf(task, e)] := q])
  {
    T.StepInv(task, e);
    StepMoves(task, e);
    var c0 := T.CallOf(task, e);
    var next := packets[cs[c0] := q];
    forall c | 0 <= c < |cs|
      ensures Agree(next[cs[c]], Call(t, c), T.Step(task, e).calls[c], T.Step(task, e).releases[c])
    {
      assert Agree(packets[cs[c]], Call(t, c), task.calls[c], task.releases[c]);
      assert Agree(packets[cs[c0]], Call(t, c0), task.calls[c0], task.releases[c0]);
    }
  }

  lemma TaskMovable(t: nat, task: T.Task, cs: seq<nat>, packets: seq<Packet>, e: T.Event)
    requires TaskOk(t, task, cs, packets) && T.Enabled(task, e) && T.IsCallStep(e)
    ensures Movable(task, e) && T.CallOf(task, e) < |cs|
    ensures Agree(packets[cs[T.CallOf(task, e)]], Call(t, T.CallOf(task, e)),
                  task.calls[T.CallOf(task, e)], task.releases[T.CallOf(task, e)])
  {
    if e.WorkerTake? {
      HeadIsQueued(task);
    }
    MoveMeans(task, e);
  }

  /** All tasks after task `t` and the packet of one of its calls have changed. */
  lemma TasksAfter(tasks: seq<T.Task>, calls: seq<seq<nat>>, packets: seq<Packet>, t: nat, task: T.Task, c: nat, q: Packet)
    requires TasksOk(tasks, calls, packets) && t < |tasks| && c < |calls[t]| && calls[t][c] < |packets|
    requires TaskOk(t, task, calls[t], packets[calls[t][c] := q])
    ensures TasksOk(tasks[t := task], calls, packets[calls[t][c] := q])
  {
    assert TaskOk(t, tasks[t], calls[t], packets);
    var p := calls[t][c];
    assert Agree(packets[p], Call(t, c), tasks[t].calls[c], tasks[t].releases[c]);
    forall u | 0 <= u < |tasks|
      ensures TaskOk(u, tasks[t := task][u], calls[u], packets[p := q])
    {
      assert TaskOk(u, tasks[u], calls[u], packets);
      if u != t {
        OtherTask(u, tasks[u], calls[u], packets, p, q);
      }
    }
  }

  /** Holders and jobs do not notice a change that keeps holder and received bytes. */
  lemma SameHolder(packets: seq<Packet>, calls: seq<seq<nat>>, jobs: seq<Job>, tasks: nat, p: nat, q: Packet)
    requires HoldersOk(packets, calls, jobs) && JobsOk(jobs, packets, tasks) && p < |packets|
    requires q.holder.Call? && q.holder == packets[p].holder && q.original == packets[p].original
    ensures HoldersOk(packets[p := q], calls, jobs) && JobsOk(jobs, packets[p := q], tasks)
  {
    var next := packets[p := q];
    forall i | 0 <= i < |packets|
      ensures HolderOk(i, next[i], calls, jobs)
    {
      assert HolderOk(i, packets[i], calls, jobs);
    }
    forall d | 0 <= d < |jobs|
      ensures JobOk(d, jobs[d], packets[p := q], tasks)
    {
      assert JobOk(d, jobs[d], packets, tasks);
    }
  }

  // Steps of a task

  lemma StartOk(s: System, t: nat, e: T.Event, q: Packet)
    requires Inv(s) && Enabled(s, TaskStep(t, e)) && Starts(s.tasks[t], e)
    requires StartedCall(s.tasks[t], e) < |s.calls[t]| && s.calls[t][StartedCall(s.tasks[t], e)] < |s.packets|
    requires s.packets[s.calls[t][StartedCall(s.tasks[t], e)]].buf in s.pool.mem
    requires q == s.packets[s.calls[t][StartedCall(s.tasks[t], e)]].(
                    start := Some(Payload(s, s.calls[t][StartedCall(s.tasks[t], e)])))
    ensures Movable(s.tasks[t], e)
    ensures PacketOk(q, s.pool)
    ensures Agree(q, Call(t, T.CallOf(s.tasks[t], e)), NextPhase(s.tasks[t], e),
                  NextReleases(s.tasks[t], e)[T.CallOf(s.tasks[t], e)])
  {
    var task := s.tasks[t];
    assert TaskOk(t, task, s.calls[t], s.packets);
    TaskMovable(t, task, s.calls[t], s.packets, e);
    MoveMeans(task, e);
    var p := s.calls[t][T.CallOf(task, e)];
    assert PacketOk(s.packets[p], s.pool);
    NotRunNotReleased(task, T.CallOf(task, e));
  }

  lemma NotRunNotReleased(t: T.Task, c: nat)
    requires T.ReleasesOk(t.calls, t.releases) && c < |t.calls| && NotRun(t.calls[c])
    ensures t.releases[c] == 0
  {
  }

  lemma StartInv(s: System, t: nat, e: T.Event)
    requires Inv(s) && Shaped(s) && Enabled(s, TaskStep(t, e)) && Starts(s.tasks[t], e)
    ensures Inv(Step(s, TaskStep(t, e)))
  {
    var task := s.tasks[t];
    assert TaskOk(t, task, s.calls[t], s.packets);
    TaskMovable(t, task, s.calls[t], s.packets, e);
    MoveMeans(task, e);
    var c := T.CallOf(task, e);
    var p := s.calls[t][c];
    var q := s.packets[p].(start := Some(Payload(s, p)));
    StartOk(s, t, e, q);
    ReplacePacket(s.packets, s.pool, p, q);
    StepTask(t, task, s.calls[t], s.packets, e, q);
    TasksAfter(s.tasks, s.calls, s.packets, t, T.Step(task, e), c, q);
    SameHolder(s.packets, s.calls, s.jobs, |s.tasks|, p, q);
  }

  function Spent(p: Packet): Packet {
    p.(armed := false, releases := p.releases + 1)
  }

  /** The packet of a call about to release it is still armed. */
  lemma ReleaseOk(t: nat, task: T.Task, cs: seq<nat>, packets: seq<Packet>, pool: Pool, c: nat)
    requires TaskOk(t, task, cs, packets) && PacketsOk(packets, pool) && T.Enabled(task, T.Release(c))
    ensures Movable(task, T.Release(c)) && c < |cs| && packets[cs[c]].armed
    ensures Agree(Spent(packets[cs[c]]), Call(t, c), NextPhase(task, T.Release(c)), NextReleases(task, T.Release(c))[c])
    ensures packets[cs[c]].holder == Call(t, c)
  {
    TaskMovable(t, task, cs, packets, T.Release(c));
    MoveMeans(task, T.Release(c));
    ReleaseIsFirst(task, c);
    assert PacketOk(packets[cs[c]], pool);
  }

  /** A task step that changes at most the packet and the pool, as a whole system. */
  function Changed(s: System, t: nat, task: T.Task, p: nat, q: Packet, pool: Pool): System
    requires t < |s.tasks| && p < |s.packets|
  {
    System(s.tasks[t := task], s.calls, s.packets[p := q], s.jobs, pool)
  }

  lemma ChangedInv(s: System, t: nat, task: T.Task, c: nat, q: Packet, pool: Pool)
    requires Inv(s) && Shaped(s) && t < |s.tasks| && c < |s.calls[t]| && s.calls[t][c] < |s.packets|
    requires TaskOk(t, task, s.calls[t], s.packets[s.calls[t][c] := q])
    requires PacketsOk(s.packets[s.calls[t][c] := q], pool)
    requires q.holder.Call? && q.holder == s.packets[s.calls[t][c]].holder
    requires q.original == s.packets[s.calls[t][c]].original
    ensures Inv(Changed(s, t, task, s.calls[t][c], q, pool))
  {
    TasksAfter(s.tasks, s.calls, s.packets, t, task, c, q);
    SameHolder(s.packets, s.calls, s.jobs, |s.tasks|, s.calls[t][c], q);
  }

  /** The packet of the call about to release is the call's, and armed. */
  lemma ReleaseArmed(s: System, t: nat, c: nat)
    requires Inv(s) && Shaped(s) && Enabled(s, TaskStep(t, T.Release(c)))
    ensures c < |s.calls[t]| && s.calls[t][c] < |s.packets| && s.packets[s.calls[t][c]].armed
    ensures s.packets[s.calls[t][c]].holder == Call(t, c)
  {
    ReleaseOk(t, s.tasks[t], s.calls[t], s.packets, s.pool, c);
  }

  lemma ReleaseTaskOk(s: System, t: nat, c: nat)
    requires Inv(s) && Shaped(s) && Enabled(s, TaskStep(t, T.Release(c)))
    requires c < |s.calls[t]| && s.calls[t][c] < |s.packets|
    ensures T.Enabled(s.tasks[t], T.Release(c)) && |s.tasks[t].releases| == |s.tasks[t].calls|
    ensures var p := s.calls[t][c];
            TaskOk(t, T.Step(s.tasks[t], T.Release(c)), s.calls[t], s.packets[p := Spent(s.packets[p])])
  {
    ReleaseOk(t, s.tasks[t], s.calls[t], s.packets, s.pool, c);
    StepTask(t, s.tasks[t], s.calls[t], s.packets, T.Release(c), Spent(s.packets[s.calls[t][c]]));
  }

  lemma ReleaseIs(s: System, t: nat, c: nat)
    requires Inv(s) && Shaped(s) && Enabled(s, TaskStep(t, T.Release(c)))
    requires c < |s.calls[t]| && s.calls[t][c] < |s.packets| && s.packets[s.calls[t][c]].armed
    requires |s.tasks[t].releases| == |s.tasks[t].calls|
    ensures var p := s.calls[t][c];
            Stepped(s, t, T.Release(c)) ==
            Changed(s, t, T.Step(s.tasks[t], T.Release(c)), p, Spent(s.packets[p]), Put(s.pool, s.packets[p].buf))
  {
  }

  lemma ReleaseInv(s: System, t: nat, e: T.Event)
    requires Inv(s) && Shaped(s) && Enabled(s, TaskStep(t, e)) && e.Release?
    ensures Inv(Stepped(s, t, e))
  {
    ReleaseArmed(s, t, e.c);
    ReleaseTaskOk(s, t, e.c);
    ReleaseIs(s, t, e.c);
    var p := s.calls[t][e.c];
    ReleaseKeeps(s.packets, s.pool, p);
    ChangedInv(s, t, T.Step(s.tasks[t], e), e.c, Spent(s.packets[p]), Put(s.pool, s.packets[p].buf));
  }

  lemma CallStepInv(s: System, t: nat, e: T.Event)
    requires Inv(s) && Shaped(s) && Enabled(s, TaskStep(t, e)) && !e.Release? && !Starts(s.tasks[t], e) && T.IsCallStep(e)
    ensures Inv(Step(s, TaskStep(t, e)))
  {
    var task := s.tasks[t];
    assert TaskOk(t, task, s.calls[t], s.packets);
    TaskMovable(t, task, s.calls[t], s.packets, e);
    MoveMeans(task, e);
    var c := T.CallOf(task, e);
    var p := s.calls[t][c];
    StepTask(t, task, s.calls[t], s.packets, e, s.packets[p]);
    TasksAfter(s.tasks, s.calls, s.packets, t, T.Step(task, e), c, s.packets[p]);
    assert s.packets[p := s.packets[p]] == s.packets;
  }

  lemma QuietStepInv(s: System, t: nat, e: T.Event)
    requires Inv(s) && Shaped(s) && Enabled(s, TaskStep(t, e)) && !e.Release? && !Starts(s.tasks[t], e) && !T.IsCallStep(e)
    ensures Inv(Step(s, TaskStep(t, e)))
  {
    var task := s.tasks[t];
    assert TaskOk(t, task, s.calls[t], s.packets);
    T.StepInv(task, e);
    QuietStep(task, e);
    forall u | 0 <= u < |s.tasks|
      ensures TaskOk(u, s.tasks[t := T.Step(task, e)][u], s.calls[u], s.packets)
    {
      assert TaskOk(u, s.tasks[u], s.calls[u], s.packets);
    }
  }

  lemma OtherStepInv(s: System, t: nat, e: T.Event)
    requires Inv(s) && Shaped(s) && Enabled(s, TaskStep(t, e)) && !e.Release? && !Starts(s.tasks[t], e)
    ensures Inv(Step(s, TaskStep(t, e)))
  {
    if T.IsCallStep(e) {
      CallStepInv(s, t, e);
    } else {
      QuietStepInv(s, t, e);
    }
  }

  lemma RewriteInv(s: System, t: nat, c: nat, content: seq<byte>)
    requires Inv(s) && Shaped(s) && Enabled(s, Rewrite(t, c, content))
    ensures Inv(Step(s, Rewrite(t, c, content)))
  {
    assert TaskOk(t, s.tasks[t], s.calls[t], s.packets);
    assert Agree(s.packets[s.calls[t][c]], Call(t, c), s.tasks[t].calls[c], s.tasks[t].releases[c]);
    RunningNotReleased(s.tasks[t], c);
    assert PacketOk(s.packets[s.calls[t][c]], s.pool);
    RewriteKeeps(s.packets, s.pool, s.calls[t][c], content);
  }

  lemma RunningNotReleased(t: T.Task, c: nat)
    requires T.ReleasesOk(t.calls, t.releases) && T.At(t, c, T.Running)
    ensures t.releases[c] == 0
  {
  }

  // Steps of the dispatcher

  lemma ReceiveInv(s: System, payload: seq<byte>, matched: seq<nat>, buf: nat)
    requires Inv(s) && Shaped(s) && Enabled(s, Receive(payload, matched, buf))
    ensures Inv(Step(s, Receive(payload, matched, buf)))
  {
    var q := Fresh(buf, payload, Dispatcher(|s.jobs|));
    var n := Received(s, payload, matched, buf);
    AddPacket(s.packets, s.pool, buf, payload, Dispatcher(|s.jobs|));
    forall t | 0 <= t < |s.tasks|
      ensures TaskOk(t, s.tasks[t], s.calls[t], n.packets)
    {
      assert TaskOk(t, s.tasks[t], s.calls[t], s.packets);
      MorePackets(t, s.tasks[t], s.calls[t], s.packets, q);
    }
    forall p | 0 <= p < |n.packets|
      ensures HolderOk(p, n.packets[p], n.calls, n.jobs)
    {
      if p < |s.packets| {
        assert HolderOk(p, s.packets[p], s.calls, s.jobs);
      }
    }
    MoreJobs(s.jobs, s.packets, |s.tasks|, q);
    assert JobOk(|s.jobs|, n.jobs[|s.jobs|], n.packets, |s.tasks|);
  }

  lemma MoreJobs(jobs: seq<Job>, packets: seq<Packet>, tasks: nat, q: Packet)
    requires JobsOk(jobs, packets, tasks)
    ensures JobsOk(jobs, packets + [q], tasks)
  {
    forall d | 0 <= d < |jobs|
      ensures JobOk(d, jobs[d], packets + [q], tasks)
    {
      assert JobOk(d, jobs[d], packets, tasks);
    }
  }

  /** An unmatched packet is still the dispatcher's, and armed. */
  lemma DropPacket(s: System, d: nat)
    requires Inv(s) && Shaped(s) && Enabled(s, DropUnmatched(d))
    ensures var p := s.jobs[d].packet;
      && s.packets[p].holder == Dispatcher(d) && s.packets[p].start.None? && s.packets[p].armed
      && Dropped(s, d) == s.(packets := s.packets[p := Spent(s.packets[p])], pool := Put(s.pool, s.packets[p].buf),
                             jobs := s.jobs[d := s.jobs[d].(done := true)])
  {
    HeldOriginal(s, d);
    assert PacketOk(s.packets[s.jobs[d].packet], s.pool);
  }

  lemma DropInv(s: System, d: nat)
    requires Inv(s) && Shaped(s) && Enabled(s, DropUnmatched(d))
    ensures Inv(Step(s, DropUnmatched(d)))
  {
    DropPacket(s, d);
    var p := s.jobs[d].packet;
    ReleaseKeeps(s.packets, s.pool, p);
    TasksRelabel(s.tasks, s.calls, s.packets, p, Spent(s.packets[p]));
    DropHolders(s.packets, s.calls, s.jobs, d, Spent(s.packets[p]));
    DropJobs(s.jobs, s.packets, |s.tasks|, d, Spent(s.packets[p]));
  }

  lemma DropHolders(packets: seq<Packet>, calls: seq<seq<nat>>, jobs: seq<Job>, d: nat, q: Packet)
    requires HoldersOk(packets, calls, jobs) && d < |jobs| && jobs[d].packet < |packets|
    requires q.holder == Dispatcher(d) && q.start.None? && !q.armed
    ensures HoldersOk(packets[jobs[d].packet := q], calls, jobs[d := jobs[d].(done := true)])
  {
    var packets', jobs' := packets[jobs[d].packet := q], jobs[d := jobs[d].(done := true)];
    forall p | 0 <= p < |packets|
      ensures HolderOk(p, packets'[p], calls, jobs')
    {
      assert HolderOk(p, packets[p], calls, jobs);
    }
  }

  lemma DropJobs(jobs: seq<Job>, packets: seq<Packet>, tasks: nat, d: nat, q: Packet)
    requires JobsOk(jobs, packets, tasks) && d < |jobs| && jobs[d].packet < |packets|
    requires q.holder == packets[jobs[d].packet].holder && q.original == packets[jobs[d].packet].original
    requires jobs[d].tasks == []
    ensures JobsOk(jobs[d := jobs[d].(done := true)], packets[jobs[d].packet := q], tasks)
  {
    var packets', jobs' := packets[jobs[d].packet := q], jobs[d := jobs[d].(done := true)];
    forall e | 0 <= e < |jobs|
      ensures JobOk(e, jobs'[e], packets', tasks)
    {
      assert JobOk(e, jobs[e], packets, tasks);
    }
  }

  /** Until it is handed over, the original still holds what was received. */
  lemma HeldOriginal(s: System, d: nat)
    requires Inv(s) && Shaped(s) && Open(s, d)
    ensures JobOk(d, s.jobs[d], s.packets, |s.tasks|)
    ensures s.packets[s.jobs[d].packet].holder == Dispatcher(d) && s.packets[s.jobs[d].packet].start.None?
    ensures s.packets[s.jobs[d].packet].releases == 0
    ensures Payload(s, s.jobs[d].packet) == s.packets[s.jobs[d].packet].original
  {
    var p := s.jobs[d].packet;
    assert JobOk(d, s.jobs[d], s.packets, |s.tasks|);
    assert HolderOk(p, s.packets[p], s.calls, s.jobs);
    assert PacketOk(s.packets[p], s.pool);
  }

  /** All tasks after task `t` has taken over packet `p`. */
  lemma TasksTake(tasks: seq<T.Task>, calls: seq<seq<nat>>, packets: seq<Packet>, t: nat, p: nat)
    requires TasksOk(tasks, calls, packets) && t < |tasks| && p < |packets|
    requires packets[p].holder == Call(t, |calls[t]|) && packets[p].releases == 0 && packets[p].start.None?
    ensures TasksOk(tasks[t := Arrived(tasks[t])], calls[t := calls[t] + [p]], packets)
  {
    var tasks', calls' := tasks[t := Arrived(tasks[t])], calls[t := calls[t] + [p]];
    forall u | 0 <= u < |tasks|
      ensures TaskOk(u, tasks'[u], calls'[u], packets)
    {
      assert TaskOk(u, tasks[u], calls[u], packets);
      if u == t {
        OneMoreCall(t, tasks[t], calls[t], packets, p);
      }
    }
  }

  lemma TasksMore(tasks: seq<T.Task>, calls: seq<seq<nat>>, packets: seq<Packet>, q: Packet)
    requires TasksOk(tasks, calls, packets)
    ensures TasksOk(tasks, calls, packets + [q])
  {
    forall t | 0 <= t < |tasks|
      ensures TaskOk(t, tasks[t], calls[t], packets + [q])
    {
      assert TaskOk(t, tasks[t], calls[t], packets);
      MorePackets(t, tasks[t], calls[t], packets, q);
    }
  }

  /** Holders when packet `p` becomes one more call of task `t`. */
  lemma HoldersTake(packets: seq<Packet>, calls: seq<seq<nat>>, jobs: seq<Job>, p: nat, packet: Packet,
                    t: nat, next: seq<nat>, jobs': seq<Job>)
    requires HolderOk(p, packet, calls, jobs) && t < |calls| && |jobs'| == |jobs|
    requires |next| == |calls[t]| + 1 && next[..|calls[t]|] == calls[t]
    requires packet.holder.Dispatcher? ==>
               (jobs'[packet.holder.d].packet == jobs[packet.holder.d].packet
                && jobs'[packet.holder.d].done == jobs[packet.holder.d].done)
    ensures HolderOk(p, packet, calls[t := next], jobs')
  {
    if packet.holder.Call? && packet.holder.t == t {
      assert next[packet.holder.c] == calls[t][packet.holder.c];
    }
  }

  lemma CloneTasks(tasks: seq<T.Task>, calls: seq<seq<nat>>, packets: seq<Packet>, t: nat, q: Packet)
    requires TasksOk(tasks, calls, packets) && t < |tasks|
    requires q.holder == Call(t, |calls[t]|) && q.releases == 0 && q.start.None?
    ensures TasksOk(tasks[t := Arrived(tasks[t])], calls[t := calls[t] + [|packets|]], packets + [q])
  {
    TasksMore(tasks, calls, packets, q);
    TasksTake(tasks, calls, packets + [q], t, |packets|);
  }

  lemma CloneJobs(jobs: seq<Job>, packets: seq<Packet>, tasks: nat, d: nat, q: Packet)
    requires JobsOk(jobs, packets, tasks) && d < |jobs| && !jobs[d].done && |jobs[d].given| + 1 < |jobs[d].tasks|
    requires jobs[d].packet < |packets|
    requires HeldBy(packets + [q], |packets|, jobs[d].tasks[|jobs[d].given| + 1], packets[jobs[d].packet].original)
    ensures JobsOk(jobs[d := jobs[d].(given := jobs[d].given + [|packets|])], packets + [q], tasks)
  {
    var j := jobs[d];
    MoreJobs(jobs, packets, tasks, q);
    assert JobOk(d, j, packets, tasks);
    CloneJob(d, j, packets + [q], tasks, |packets|);
  }

  function CloneOf(s: System, d: nat, buf: nat): Packet
    requires Shaped(s) && Enabled(s, HandClone(d, buf))
  {
    var j := s.jobs[d];
    var t := j.tasks[|j.given| + 1];
    Fresh(buf, Payload(s, j.packet), Call(t, |s.calls[t]|))
  }

  lemma ClonePacketsOk(s: System, d: nat, buf: nat)
    requires Inv(s) && Shaped(s) && Enabled(s, HandClone(d, buf))
    ensures PacketsOk(CloneHanded(s, d, buf).packets, CloneHanded(s, d, buf).pool)
  {
    var q := CloneOf(s, d, buf);
    AddPacket(s.packets, s.pool, buf, q.original, q.holder);
  }

  lemma CloneTasksOk(s: System, d: nat, buf: nat)
    requires Inv(s) && Shaped(s) && Enabled(s, HandClone(d, buf))
    ensures var n := CloneHanded(s, d, buf); TasksOk(n.tasks, n.calls, n.packets)
  {
    var j := s.jobs[d];
    CloneTasks(s.tasks, s.calls, s.packets, j.tasks[|j.given| + 1], CloneOf(s, d, buf));
  }

  lemma CloneHoldersOk(s: System, d: nat, buf: nat)
    requires Inv(s) && Shaped(s) && Enabled(s, HandClone(d, buf))
    ensures var n := CloneHanded(s, d, buf); HoldersOk(n.packets, n.calls, n.jobs)
  {
    var j := s.jobs[d];
    CloneHolders(s.packets, s.calls, s.jobs, d, j.tasks[|j.given| + 1], CloneOf(s, d, buf), CloneHanded(s, d, buf).jobs);
  }

  lemma CloneJobsOk(s: System, d: nat, buf: nat)
    requires Inv(s) && Shaped(s) && Enabled(s, HandClone(d, buf))
    ensures var n := CloneHanded(s, d, buf); JobsOk(n.jobs, n.packets, |n.tasks|)
  {
    HeldOriginal(s, d);
    CloneJobs(s.jobs, s.packets, |s.tasks|, d, CloneOf(s, d, buf));
  }

  lemma CloneInv(s: System, d: nat, buf: nat)
    requires Inv(s) && Shaped(s) && Enabled(s, HandClone(d, buf))
    ensures Inv(Step(s, HandClone(d, buf)))
  {
    ClonePacketsOk(s, d, buf);
    CloneTasksOk(s, d, buf);
    CloneHoldersOk(s, d, buf);
    CloneJobsOk(s, d, buf);
  }

  lemma CloneHolders(packets: seq<Packet>, calls: seq<seq<nat>>, jobs: seq<Job>, d: nat, t: nat, q: Packet, jobs': seq<Job>)
    requires HoldersOk(packets, calls, jobs) && t < |calls| && |jobs'| == |jobs|
    requires q.holder == Call(t, |calls[t]|)
    requires forall e :: 0 <= e < |jobs| ==> jobs'[e].packet == jobs[e].packet && jobs'[e].done == jobs[e].done
    ensures HoldersOk(packets + [q], calls[t := calls[t] + [|packets|]], jobs')
  {
    var packets', calls' := packets + [q], calls[t := calls[t] + [|packets|]];
    forall p | 0 <= p < |packets'|
      ensures HolderOk(p, packets'[p], calls', jobs')
    {
      if p < |packets| {
        assert HolderOk(p, packets[p], calls, jobs);
        HoldersTake(packets, calls, jobs, p, packets[p], t, calls'[t], jobs');
      }
    }
  }

  lemma CloneJob(d: nat, j: Job, packets: seq<Packet>, tasks: nat, p: nat)
    requires JobOk(d, j, packets, tasks) && |j.given| + 1 < |j.tasks| && !j.done
    requires HeldBy(packets, p, j.tasks[|j.given| + 1], packets[j.packet].original)
    requires j.packet < p && forall k :: 0 <= k < |j.given| ==> j.given[k] < p
    ensures JobOk(d, j.(given := j.given + [p]), packets, tasks)
  {
  }

  lemma OriginalInv(s: System, d: nat)
    requires Inv(s) && Shaped(s) && Enabled(s, HandOriginal(d))
    ensures Inv(Step(s, HandOriginal(d)))
  {
    HeldOriginal(s, d);
    var j := s.jobs[d];
    var t := j.tasks[0];
    var p0 := j.packet;
    var q := s.packets[p0].(holder := Call(t, |s.calls[t]|));
    var n := OriginalHanded(s, d);
    assert PacketOk(s.packets[p0], s.pool);
    ReplacePacket(s.packets, s.pool, p0, q);
    TasksRelabel(s.tasks, s.calls, s.packets, p0, q);
    TasksTake(s.tasks, s.calls, n.packets, t, p0);
    forall p | 0 <= p < |n.packets|
      ensures HolderOk(p, n.packets[p], n.calls, n.jobs)
    {
      assert HolderOk(p, s.packets[p], s.calls, s.jobs);
      if p != p0 {
        HoldersTake(s.packets, s.calls, s.jobs, p, s.packets[p], t, n.calls[t], n.jobs);
      }
    }
    OriginalJobs(s.jobs, s.packets, |s.tasks|, d, q);
  }

  lemma TasksRelabel(tasks: seq<T.Task>, calls: seq<seq<nat>>, packets: seq<Packet>, p: nat, q: Packet)
    requires TasksOk(tasks, calls, packets) && p < |packets| && packets[p].holder.Dispatcher?
    ensures TasksOk(tasks, calls, packets[p := q])
  {
    forall t | 0 <= t < |tasks|
      ensures TaskOk(t, tasks[t], calls[t], packets[p := q])
    {
      assert TaskOk(t, tasks[t], calls[t], packets);
      OtherTask(t, tasks[t], calls[t], packets, p, q);
    }
  }

  lemma OriginalJobs(jobs: seq<Job>, packets: seq<Packet>, tasks: nat, d: nat, q: Packet)
    requires JobsOk(jobs, packets, tasks) && d < |jobs| && jobs[d].packet < |packets|
    requires !jobs[d].done && |jobs[d].given| + 1 == |jobs[d].tasks|
    requires packets[jobs[d].packet].holder == Dispatcher(d)
    requires q.holder.Call? && q.holder.t == jobs[d].tasks[0] && q.original == packets[jobs[d].packet].original
    ensures JobsOk(jobs[d := jobs[d].(done := true)], packets[jobs[d].packet := q], tasks)
  {
    var jobs', packets' := jobs[d := jobs[d].(done := true)], packets[jobs[d].packet := q];
    forall e | 0 <= e < |jobs|
      ensures JobOk(e, jobs'[e], packets', tasks)
    {
      assert JobOk(e, jobs[e], packets, tasks);
      assert forall k :: 0 <= k < |jobs[e].given| ==> jobs[e].given[k] != jobs[d].packet;
    }
  }

  lemma StepInv(s: System, e: Event)
    requires Inv(s) && Shaped(s) && Enabled(s, e)
    ensures Inv(Step(s, e))
  {
    match e
    case Receive(payload, matched, buf) => ReceiveInv(s, payload, matched, buf);
    case DropUnmatched(d) => DropInv(s, d);
    case HandClone(d, buf) => CloneInv(s, d, buf);
    case HandOriginal(d) => OriginalInv(s, d);
    case TaskStep(t, te) =>
      if Starts(s.tasks[t], te) {
        StartInv(s, t, te);
      } else if te.Release? {
        ReleaseInv(s, t, te);
      } else {
        OtherStepInv(s, t, te);
      }
    case Rewrite(t, c, content) => RewriteInv(s, t, c, content);
    case ForeignGet(buf, content) => GetKeeps(s.packets, s.pool, buf, content);
    case ForeignPut(buf) => PutKeeps(s.packets, s.pool, buf);
  }

  // Runs

  datatype Kind = Kind(model: T.Model, capacity: nat)

  datatype Run = Run(kinds: seq<Kind>, events: seq<Event>)

  function Init(kinds: seq<Kind>): System {
    System(seq(|kinds|, t requires 0 <= t < |kinds| => T.Started(kinds[t].model, kinds[t].capacity)),
           seq(|kinds|, _ => []), [], [], Pool(map[], {}))
  }

  function Before(r: Run): Run
    requires r.events != []
  {
    r.(events := r.events[..|r.events| - 1])
  }

  ghost predicate Possible(r: Run)
    decreases |r.events|, 0
  {
    r.events != [] ==>
      && Possible(Before(r)) && Shaped(After(Before(r)))
      && Enabled(After(Before(r)), r.events[|r.events| - 1])
  }

  ghost function After(r: Run): System
    requires Possible(r)
    decreases |r.events|, 1
  {
    if r.events == [] then Init(r.kinds) else Step(After(Before(r)), r.events[|r.events| - 1])
  }

  lemma InitInv(kinds: seq<Kind>)
    ensures Inv(Init(kinds))
  {
    forall t | 0 <= t < |kinds|
      ensures T.Inv(Init(kinds).tasks[t])
    {
      StartedInv(kinds[t].model, kinds[t].capacity);
    }
  }

  lemma StartedInv(model: T.Model, capacity: nat)
    ensures T.Inv(T.Started(model, capacity))
  {
  }

  lemma {:induction false} EveryRunInv(r: Run)
    requires Possible(r)
    ensures Inv(After(r))
    decreases |r.events|
  {
    if r.events == [] {
      InitInv(r.kinds);
    } else {
      EveryRunInv(Before(r));
      StepInv(After(Before(r)), r.events[|r.events| - 1]);
    }
  }

  /** The side condition of `Possible` never restricts a run. */
  lemma EveryRunShaped(r: Run)
    requires Possible(r)
    ensures Shaped(After(r))
  {
    EveryRunInv(r);
    InvShaped(After(r));
  }

  // Results

  /** Whatever the other tasks and the rest of the pool do, a task that begins to run a packet finds
      the bytes that were received, and no packet is released twice. */
  lemma EveryStartIsOriginal(r: Run, p: nat)
    requires Possible(r) && p < |After(r).packets|
    ensures After(r).packets[p].start.Some? ==> After(r).packets[p].start.value == After(r).packets[p].original
    ensures After(r).packets[p].releases <= 1
  {
    EveryRunInv(r);
    assert PacketOk(After(r).packets[p], After(r).pool);
  }

  /** When a call has ended, by whatever way through the task, its packet was released once. */
  lemma EndedCallsReleaseOnce(r: Run, t: nat, c: nat)
    requires Possible(r) && t < |After(r).tasks| && T.At(After(r).tasks[t], c, T.Finished)
    ensures t < |After(r).calls| && c < |After(r).calls[t]| && After(r).calls[t][c] < |After(r).packets|
    ensures After(r).packets[After(r).calls[t][c]].releases == 1
  {
    EveryRunInv(r);
    var s := After(r);
    assert TaskOk(t, s.tasks[t], s.calls[t], s.packets);
    assert Agree(s.packets[s.calls[t][c]], Call(t, c), s.tasks[t].calls[c], s.tasks[t].releases[c]);
    FinishedReleased(s.tasks[t], c);
  }

  lemma FinishedReleased(t: T.Task, c: nat)
    requires T.ReleasesOk(t.calls, t.releases) && T.At(t, c, T.Finished)
    ensures t.releases[c] == 1
  {
  }

  /** The packet of a finished job for matched position `k`: the original goes to the first. */
  function PacketFor(j: Job, k: nat): nat
    requires k <= |j.given|
  {
    if k == 0 then j.packet else j.given[k - 1]
  }

  /** A finished job gave every matched task a packet of its own with the received bytes; with no
      task matched it released the packet itself. */
  lemma FinishedJobServesEveryTask(r: Run, d: nat)
    requires Possible(r) && d < |After(r).jobs| && After(r).jobs[d].done
    ensures After(r).jobs[d].packet < |After(r).packets|
    ensures After(r).jobs[d].tasks == [] ==> After(r).packets[After(r).jobs[d].packet].releases == 1
    ensures var s := After(r);
            var j := s.jobs[d];
            j.tasks != [] ==>
              && |j.given| + 1 == |j.tasks|
              && (forall k: nat :: k < |j.tasks| ==>
                    HeldBy(s.packets, PacketFor(j, k), j.tasks[k], s.packets[j.packet].original))
              && (forall k: nat, l: nat :: k < l < |j.tasks| ==> PacketFor(j, k) != PacketFor(j, l))
  {
    EveryRunInv(r);
    var s := After(r);
    var j := s.jobs[d];
    assert JobOk(d, j, s.packets, |s.tasks|);
    assert PacketOk(s.packets[j.packet], s.pool);
    if j.tasks == [] {
      assert HolderOk(j.packet, s.packets[j.packet], s.calls, s.jobs);
    } else {
      forall k: nat | k < |j.tasks|
        ensures HeldBy(s.packets, PacketFor(j, k), j.tasks[k], s.packets[j.packet].original)
      {
      }
    }
  }

  ghost predicate Quiet(s: System) {
    && (forall d :: 0 <= d < |s.jobs| ==> s.jobs[d].done)
    && (forall t, c :: 0 <= t < |s.tasks| && 0 <= c < |s.tasks[t].calls| ==> s.tasks[t].calls[c].Finished?)
  }

  /** Once all jobs and calls have ended, every packet, original or clone, was released exactly once. */
  lemma EverythingReleasedOnce(r: Run, p: nat)
    requires Possible(r) && Quiet(After(r)) && p < |After(r).packets|
    ensures After(r).packets[p].releases == 1
  {
    EveryRunInv(r);
    var s := After(r);
    assert HolderOk(p, s.packets[p], s.calls, s.jobs);
    assert PacketOk(s.packets[p], s.pool);
    if s.packets[p].holder.Call? {
      var t, c := s.packets[p].holder.t, s.packets[p].holder.c;
      assert TaskOk(t, s.tasks[t], s.calls[t], s.packets);
      EndedCallsReleaseOnce(r, t, c);
    }
  }
}
