/**
 * Accepting, running and stopping a task: lock sections, channel operations and wait-group
 * operations are single steps, and calls interleave freely with one `StopGraceful`.
 */
module TaskProtocol {

  datatype Model = Fastpath | Pool | Channel

  datatype Phase =
    | Arrived
    | Refused
    | Admitted
    | Queued
    | Submitted
    | Running
    | Ran
    | Released
    | Dropped
    | Finished

  datatype Worker = NoWorker | Idle | Busy(call: nat) | Exited

  datatype Stop = NotStopped | Waiting | Waited | Detached | PoolReleased | Closed | Joined | Returned

  /** Each `Handle` call is one entry of `calls`: where that call, and the packet it owns, has got to. */
  datatype Task = Task(
    model: Model,
    capacity: nat,
    accepting: bool,
    inflight: int,
    poolSet: bool,
    poolLive: bool,
    channelOpen: bool,
    queue: seq<nat>,
    worker: Worker,
    stop: Stop,
    indexed: bool,
    calls: seq<Phase>,
    releases: seq<nat>,
    enqueued: seq<nat>,
    started: seq<nat>,
    fault: bool)

  datatype Event =
    | Arrive
    | Enter(c: nat)
    | RunInline(c: nat)
    | Submit(c: nat)
    | PoolStart(c: nat)
    | Enqueue(c: nat)
    | Abandon(c: nat)
    | WorkerTake
    | WorkerExit
    | Process(c: nat)
    | Release(c: nat)
    | Done(c: nat)
    | StopStep

  /** A started task. */
  function Started(model: Model, capacity: nat): Task {
    Task(model, capacity, true, 0, model == Pool, model == Pool, model == Channel, [],
         if model == Channel then Idle else NoWorker, NotStopped, true, [], [], [], [], false)
  }

  /** Calls counted by the in-flight wait group. */
  predicate Counted(p: Phase) {
    p.Admitted? || p.Queued? || p.Submitted? || p.Running? || p.Ran? || p.Released?
  }

  predicate StopEnabled(t: Task) {
    match t.stop
    case Waiting => t.inflight == 0
    case Closed => t.model == Channel ==> t.worker == Exited
    case Returned => false
    case _ => true
  }

  predicate Enabled(t: Task, e: Event) {
    match e
    case Arrive => true
    case Enter(c) => At(t, c, Arrived)
    case RunInline(c) => At(t, c, Admitted) && t.model == Fastpath
    case Submit(c) => At(t, c, Admitted) && t.model == Pool
    case PoolStart(c) => At(t, c, Submitted)
    case Enqueue(c) => At(t, c, Admitted) && t.model == Channel && |t.queue| < t.capacity
    case Abandon(c) => At(t, c, Admitted) && t.model != Fastpath
    case WorkerTake => t.worker == Idle && t.queue != [] && t.queue[0] < |t.calls|
    case WorkerExit => t.worker == Idle && t.queue == [] && !t.channelOpen
    case Process(c) => At(t, c, Running)
    case Release(c) => At(t, c, Ran) || At(t, c, Refused) || At(t, c, Dropped)
    case Done(c) => At(t, c, Released)
    case StopStep => StopEnabled(t)
  }

  predicate At(t: Task, c: nat, p: Phase) {
    c < |t.calls| && t.calls[c] == p
  }

  function Move(t: Task, c: nat, p: Phase): Task
    requires c < |t.calls|
  {
    t.(calls := t.calls[c := p])
  }

  /** Touching the pipelines or senders of a task whose stop has returned is a fault. */
  function BeginRun(t: Task, c: nat): Task
    requires c < |t.calls|
  {
    Move(t, c, Running).(fault := t.fault || t.stop == Returned || !t.indexed)
  }

  function StopNext(t: Task): Task
    requires StopEnabled(t)
  {
    match t.stop
    case NotStopped => t.(accepting := false, stop := Waiting)
    case Waiting => t.(stop := Waited)
    case Waited => t.(poolSet := false, stop := Detached)
    case Detached => t.(poolLive := false, stop := PoolReleased)
    case PoolReleased => t.(channelOpen := false, stop := Closed)
    case Closed => t.(stop := Joined)
    case Joined => t.(indexed := false, stop := Returned)
    case Returned => t
  }

  function Step(t: Task, e: Event): Task
    requires Enabled(t, e) && |t.releases| == |t.calls|
  {
    match e
    case Arrive => t.(calls := t.calls + [Arrived], releases := t.releases + [0])
    case Enter(c) =>
      if t.accepting then Move(t, c, Admitted).(inflight := t.inflight + 1) else Move(t, c, Refused)
    case RunInline(c) => BeginRun(t, c)
    case Submit(c) => Move(t, c, Submitted).(fault := t.fault || !t.poolLive)
    case PoolStart(c) => BeginRun(t, c)
    case Enqueue(c) =>
      Move(t, c, Queued).(queue := t.queue + [c], enqueued := t.enqueued + [c], fault := t.fault || !t.channelOpen)
    case Abandon(c) => Move(t, c, Dropped).(inflight := t.inflight - 1, fault := t.fault || t.inflight <= 0)
    case WorkerTake =>
      var c := t.queue[0];
      BeginRun(t, c).(queue := t.queue[1..], started := t.started + [c], worker := Busy(c))
    case WorkerExit => t.(worker := Exited)
    case Process(c) => Move(t, c, Ran).(fault := t.fault || t.stop == Returned || !t.indexed)
    case Release(c) =>
      Move(t, c, if t.calls[c].Ran? then Released else Finished).(releases := t.releases[c := t.releases[c] + 1])
    case Done(c) =>
      Move(t, c, Finished).(inflight := t.inflight - 1, fault := t.fault || t.inflight <= 0,
                            worker := if t.worker == Busy(c) then Idle else t.worker)
    case StopStep => StopNext(t)
  }

  // Invariant

  function Count(calls: seq<Phase>): nat {
    if calls == [] then 0 else Count(calls[..|calls| - 1]) + if Counted(calls[|calls| - 1]) then 1 else 0
  }

  lemma {:induction false} CountMove(calls: seq<Phase>, c: nat, p: Phase)
    requires c < |calls|
    ensures Count(calls[c := p]) ==
      Count(calls) - (if Counted(calls[c]) then 1 else 0) + (if Counted(p) then 1 else 0)
  {
    var n := |calls| - 1;
    if c == n {
      assert calls[c := p][..n] == calls[..n];
    } else {
      assert calls[c := p][..n] == calls[..n][c := p];
      CountMove(calls[..n], c, p);
    }
  }

  lemma {:induction false} CountedSome(calls: seq<Phase>, c: nat)
    requires c < |calls| && Counted(calls[c])
    ensures Count(calls) > 0
  {
    if c < |calls| - 1 {
      CountedSome(calls[..|calls| - 1], c);
    }
  }

  predicate Past(stop: Stop, n: nat) {
    Rank(stop) >= n
  }

  function Rank(stop: Stop): nat {
    match stop
    case NotStopped => 0
    case Waiting => 1
    case Waited => 2
    case Detached => 3
    case PoolReleased => 4
    case Closed => 5
    case Joined => 6
    case Returned => 7
  }

  /** A packet is released exactly when its call is past the release. */
  ghost predicate ReleasesOk(calls: seq<Phase>, releases: seq<nat>) {
    && |releases| == |calls|
    && (forall c :: 0 <= c < |calls| ==> releases[c] == if calls[c].Released? || calls[c].Finished? then 1 else 0)
  }

  ghost predicate Distinct(s: seq<nat>) {
    forall i, j :: 0 <= i < j < |s| ==> s[i] != s[j]
  }

  predicate InWorker(p: Phase) {
    p.Running? || p.Ran? || p.Released?
  }

  /** The queue holds exactly the queued calls, once each; only the pool has submitted calls. */
  ghost predicate QueueOk(model: Model, calls: seq<Phase>, queue: seq<nat>) {
    && Distinct(queue)
    && (forall c :: c in queue ==> c < |calls| && calls[c].Queued?)
    && (forall c :: 0 <= c < |calls| && calls[c].Queued? ==> c in queue)
    && (forall c :: 0 <= c < |calls| && calls[c].Submitted? ==> model == Pool)
    && (model != Channel ==> queue == [])
  }

  /** In the channel model the worker alone runs packets, one at a time. */
  ghost predicate WorkerOk(model: Model, calls: seq<Phase>, worker: Worker) {
    && (model == Channel ==> forall c :: 0 <= c < |calls| && InWorker(calls[c]) ==> worker == Busy(c))
    && (worker.Busy? ==> worker.call < |calls| && InWorker(calls[worker.call]))
    && (model == Channel <==> worker != NoWorker)
  }

  ghost predicate StopOk(t: Task) {
    && t.inflight == Count(t.calls)
    && (t.accepting <==> t.stop == NotStopped)
    && (Past(t.stop, 2) ==> t.inflight == 0)
    && (t.model == Pool ==> (t.poolSet <==> !Past(t.stop, 3)) && (t.poolLive <==> !Past(t.stop, 4)))
    && (t.model == Channel ==> (t.channelOpen <==> !Past(t.stop, 5)))
    && (t.worker == Exited ==> !t.channelOpen && t.queue == [])
    && (Past(t.stop, 6) && t.model == Channel ==> t.worker == Exited)
    && (t.indexed <==> t.stop != Returned)
  }

  ghost predicate Inv(t: Task) {
    && !t.fault
    && ReleasesOk(t.calls, t.releases)
    && QueueOk(t.model, t.calls, t.queue)
    && WorkerOk(t.model, t.calls, t.worker)
    && StopOk(t)
    && t.enqueued == t.started + t.queue
  }

  lemma ArriveInv(t: Task)
    requires Inv(t)
    ensures Inv(Step(t, Arrive))
  {
    assert (t.calls + [Arrived])[..|t.calls|] == t.calls;
  }

  lemma EnterInv(t: Task, c: nat)
    requires Inv(t) && Enabled(t, Enter(c))
    ensures Inv(Step(t, Enter(c)))
  {
    if t.accepting {
      CountMove(t.calls, c, Admitted);
    } else {
      CountMove(t.calls, c, Refused);
    }
  }

  lemma AdmittedOpen(t: Task, c: nat)
    requires Inv(t) && c < |t.calls| && Counted(t.calls[c])
    ensures !Past(t.stop, 2) && t.inflight > 0
  {
    CountedSome(t.calls, c);
  }

  lemma RunInlineInv(t: Task, c: nat)
    requires Inv(t) && Enabled(t, RunInline(c))
    ensures Inv(Step(t, RunInline(c)))
  {
    AdmittedOpen(t, c);
    CountMove(t.calls, c, Running);
  }

  lemma SubmitInv(t: Task, c: nat)
    requires Inv(t) && Enabled(t, Submit(c))
    ensures Inv(Step(t, Submit(c)))
  {
    AdmittedOpen(t, c);
    CountMove(t.calls, c, Submitted);
  }

  lemma PoolStartInv(t: Task, c: nat)
    requires Inv(t) && Enabled(t, PoolStart(c))
    ensures Inv(Step(t, PoolStart(c)))
  {
    AdmittedOpen(t, c);
    CountMove(t.calls, c, Running);
  }

  lemma EnqueueInv(t: Task, c: nat)
    requires Inv(t) && Enabled(t, Enqueue(c))
    ensures Inv(Step(t, Enqueue(c)))
  {
    AdmittedOpen(t, c);
    CountMove(t.calls, c, Queued);
    assert t.started + (t.queue + [c]) == (t.started + t.queue) + [c];
  }

  lemma AbandonInv(t: Task, c: nat)
    requires Inv(t) && Enabled(t, Abandon(c))
    ensures Inv(Step(t, Abandon(c)))
  {
    AdmittedOpen(t, c);
    CountMove(t.calls, c, Dropped);
  }

  lemma HeadOpen(t: Task)
    requires Inv(t) && Enabled(t, WorkerTake)
    ensures t.queue[0] < |t.calls| && t.calls[t.queue[0]].Queued? && !Past(t.stop, 2) && t.inflight > 0
  {
    assert t.queue[0] in t.queue;
    AdmittedOpen(t, t.queue[0]);
  }

  lemma WorkerTakeInv(t: Task)
    requires Inv(t) && Enabled(t, WorkerTake)
    ensures Inv(Step(t, WorkerTake))
  {
    HeadOpen(t);
    CountMove(t.calls, t.queue[0], Running);
    assert (t.started + [t.queue[0]]) + t.queue[1..] == t.started + t.queue;
    DequeueOk(t.model, t.calls, t.queue);
  }

  lemma DequeueOk(model: Model, calls: seq<Phase>, queue: seq<nat>)
    requires QueueOk(model, calls, queue) && queue != [] && queue[0] < |calls|
    ensures QueueOk(model, calls[queue[0] := Running], queue[1..])
  {
    assert forall k :: k in queue[1..] ==> k in queue && k != queue[0];
    assert forall k :: k in queue && k != queue[0] ==> k in queue[1..];
  }

  lemma WorkerExitInv(t: Task)
    requires Inv(t) && Enabled(t, WorkerExit)
    ensures Inv(Step(t, WorkerExit))
  {
  }

  lemma ProcessInv(t: Task, c: nat)
    requires Inv(t) && Enabled(t, Process(c))
    ensures Inv(Step(t, Process(c)))
  {
    AdmittedOpen(t, c);
    CountMove(t.calls, c, Ran);
  }

  lemma ReleasesMove(calls: seq<Phase>, releases: seq<nat>, c: nat, p: Phase)
    requires ReleasesOk(calls, releases) && c < |calls| && !calls[c].Released? && !calls[c].Finished?
    requires p.Released? || p.Finished?
    ensures ReleasesOk(calls[c := p], releases[c := releases[c] + 1])
  {
  }

  lemma QueueMove(model: Model, calls: seq<Phase>, queue: seq<nat>, c: nat, p: Phase)
    requires QueueOk(model, calls, queue) && c < |calls| && !calls[c].Queued? && !p.Queued? && !p.Submitted?
    ensures QueueOk(model, calls[c := p], queue)
  {
  }

  lemma WorkerMove(model: Model, calls: seq<Phase>, worker: Worker, c: nat, p: Phase)
    requires WorkerOk(model, calls, worker) && c < |calls| && InWorker(calls[c]) == InWorker(p)
    ensures WorkerOk(model, calls[c := p], worker)
  {
  }

  /** A release moves the call on and leaves queue, worker and stop as they are. */
  lemma ReleaseMoves(t: Task, c: nat)
    requires Enabled(t, Release(c)) && c < |t.calls| && |t.releases| == |t.calls|
    ensures var p := if t.calls[c].Ran? then Released else Finished;
      && Step(t, Release(c)) == t.(calls := t.calls[c := p], releases := t.releases[c := t.releases[c] + 1])
      && InWorker(t.calls[c]) == InWorker(p) && Counted(t.calls[c]) == Counted(p)
      && !t.calls[c].Queued? && !t.calls[c].Released? && !t.calls[c].Finished?
  {
  }

  lemma ReleaseInv(t: Task, c: nat)
    requires Inv(t) && Enabled(t, Release(c))
    ensures Inv(Step(t, Release(c)))
  {
    var p := if t.calls[c].Ran? then Released else Finished;
    ReleaseMoves(t, c);
    CountMove(t.calls, c, p);
    ReleasesMove(t.calls, t.releases, c, p);
    QueueMove(t.model, t.calls, t.queue, c, p);
    WorkerMove(t.model, t.calls, t.worker, c, p);
  }

  lemma DoneInv(t: Task, c: nat)
    requires Inv(t) && Enabled(t, Done(c))
    ensures Inv(Step(t, Done(c)))
  {
    AdmittedOpen(t, c);
    CountMove(t.calls, c, Finished);
  }

  lemma StopInv(t: Task)
    requires Inv(t) && Enabled(t, StopStep)
    ensures Inv(Step(t, StopStep))
  {
    var u := StopNext(t);
    assert u.calls == t.calls && u.releases == t.releases && u.queue == t.queue && u.worker == t.worker;
    StopKeepsOrder(t);
  }

  lemma StopKeepsOrder(t: Task)
    requires StopOk(t) && StopEnabled(t)
    ensures StopOk(StopNext(t))
  {
  }

  lemma StepInv(t: Task, e: Event)
    requires Inv(t) && Enabled(t, e)
    ensures Inv(Step(t, e))
  {
    match e
    case Arrive => ArriveInv(t);
    case Enter(c) => EnterInv(t, c);
    case RunInline(c) => RunInlineInv(t, c);
    case Submit(c) => SubmitInv(t, c);
    case PoolStart(c) => PoolStartInv(t, c);
    case Enqueue(c) => EnqueueInv(t, c);
    case Abandon(c) => AbandonInv(t, c);
    case WorkerTake => WorkerTakeInv(t);
    case WorkerExit => WorkerExitInv(t);
    case Process(c) => ProcessInv(t, c);
    case Release(c) => ReleaseInv(t, c);
    case Done(c) => DoneInv(t, c);
    case StopStep => StopInv(t);
  }

  // Runs

  datatype Run = Run(model: Model, capacity: nat, events: seq<Event>)

  function Before(r: Run): Run
    requires r.events != []
  {
    r.(events := r.events[..|r.events| - 1])
  }

  ghost predicate Possible(r: Run)
    decreases |r.events|, 0
  {
    && 0 < r.capacity
    && (r.events != [] ==>
          && Possible(Before(r))
          && |After(Before(r)).releases| == |After(Before(r)).calls|
          && Enabled(After(Before(r)), r.events[|r.events| - 1]))
  }

  ghost function After(r: Run): Task
    requires Possible(r)
    decreases |r.events|, 1
  {
    if r.events == [] then Started(r.model, r.capacity) else Step(After(Before(r)), r.events[|r.events| - 1])
  }

  lemma StopKeepsModel(t: Task)
    requires StopEnabled(t)
    ensures StopNext(t) == t.(accepting := StopNext(t).accepting, stop := StopNext(t).stop, poolSet := StopNext(t).poolSet,
                              poolLive := StopNext(t).poolLive, channelOpen := StopNext(t).channelOpen, indexed := StopNext(t).indexed)
  {
  }

  lemma StepKeepsModel(t: Task, e: Event)
    requires Enabled(t, e) && |t.releases| == |t.calls|
    ensures Step(t, e).model == t.model && Step(t, e).capacity == t.capacity
  {
    if e.StopStep? {
      StopKeepsModel(t);
    } else if e.WorkerTake? || e.WorkerExit? {
    } else if e.Arrive? || e.Enter? || e.RunInline? || e.Submit? || e.PoolStart? {
    } else {
    }
  }

  lemma {:induction false} EveryRunInv(r: Run)
    requires Possible(r)
    ensures Inv(After(r))
    decreases |r.events|
  {
    if r.events != [] {
      EveryRunInv(Before(r));
      StepInv(After(Before(r)), r.events[|r.events| - 1]);
    }
  }

  lemma {:induction false} EveryRunModel(r: Run)
    requires Possible(r)
    ensures After(r).model == r.model && After(r).capacity == r.capacity
    decreases |r.events|
  {
    if r.events != [] {
      EveryRunModel(Before(r));
      StepKeepsModel(After(Before(r)), r.events[|r.events| - 1]);
    }
  }

  /** In no interleaving is anything sent on a closed channel, submitted to a released pool, or
      processed by a task whose stop has returned, and every packet is released at most once:
      exactly once when its call has finished. */
  lemma HandleAndStopAreSafe(r: Run)
    requires Possible(r)
    ensures !After(r).fault
    ensures |After(r).releases| == |After(r).calls|
    ensures forall c :: 0 <= c < |After(r).releases| ==> After(r).releases[c] <= 1
    ensures forall c :: 0 <= c < |After(r).calls| && After(r).calls[c].Finished? ==> After(r).releases[c] == 1
  {
    EveryRunInv(r);
  }

  lemma QueuedIsInflight(t: Task)
    requires Inv(t) && t.queue != []
    ensures t.inflight > 0
  {
    assert t.queue[0] in t.queue;
    CountedSome(t.calls, t.queue[0]);
  }

  /** When the stop has returned, nothing is left inside the task: each call was refused, dropped or
      has finished, and the executor is gone. */
  lemma StoppedIsEmpty(r: Run)
    requires Possible(r) && After(r).stop == Returned
    ensures forall c :: 0 <= c < |After(r).calls| ==> !Counted(After(r).calls[c])
    ensures After(r).queue == [] && After(r).inflight == 0
    ensures r.model == Channel ==> After(r).worker == Exited && After(r).started == After(r).enqueued
  {
    EveryRunInv(r);
    EveryRunModel(r);
    var t := After(r);
    forall c | 0 <= c < |t.calls|
      ensures !Counted(t.calls[c])
    {
      if Counted(t.calls[c]) {
        CountedSome(t.calls, c);
      }
    }
    if t.queue != [] {
      QueuedIsInflight(t);
    }
  }

  /** The channel model starts packets in the order they were enqueued, and runs one at a time. */
  lemma ChannelIsFifo(r: Run)
    requires Possible(r) && r.model == Channel
    ensures After(r).started <= After(r).enqueued
    ensures forall c :: 0 <= c < |After(r).calls| && InWorker(After(r).calls[c]) ==> After(r).worker == Busy(c)
  {
    EveryRunInv(r);
    EveryRunModel(r);
  }

  // Progress

  function Weight(p: Phase): nat {
    match p
    case Arrived => 7
    case Admitted => 6
    case Queued => 5
    case Submitted => 5
    case Running => 4
    case Ran => 3
    case Released => 2
    case Refused => 1
    case Dropped => 1
    case Finished => 0
  }

  function CallWork(calls: seq<Phase>): nat {
    if calls == [] then 0 else CallWork(calls[..|calls| - 1]) + Weight(calls[|calls| - 1])
  }

  lemma {:induction false} CallWorkMove(calls: seq<Phase>, c: nat, p: Phase)
    requires c < |calls|
    ensures CallWork(calls[c := p]) == CallWork(calls) - Weight(calls[c]) + Weight(p)
  {
    var n := |calls| - 1;
    if c == n {
      assert calls[c := p][..n] == calls[..n];
    } else {
      assert calls[c := p][..n] == calls[..n][c := p];
      CallWorkMove(calls[..n], c, p);
    }
  }

  function Work(t: Task): nat {
    CallWork(t.calls) + (7 - Rank(t.stop)) + (if t.worker.Idle? || t.worker.Busy? then 1 else 0)
  }

  function CallOf(t: Task, e: Event): nat
    requires Enabled(t, e) && !e.Arrive? && !e.WorkerExit? && !e.StopStep?
  {
    if e.WorkerTake? then t.queue[0] else e.c
  }

  predicate IsCallStep(e: Event) {
    !e.Arrive? && !e.WorkerExit? && !e.StopStep?
  }

  lemma CallStepMoves(t: Task, e: Event) returns (p: Phase)
    requires Inv(t) && Enabled(t, e) && IsCallStep(e)
    ensures Step(t, e).calls == t.calls[CallOf(t, e) := p] && Weight(p) < Weight(t.calls[CallOf(t, e)])
    ensures Step(t, e).stop == t.stop
    ensures Step(t, e).worker.Idle? || Step(t, e).worker.Busy? ==> t.worker.Idle? || t.worker.Busy?
  {
    if e.WorkerTake? {
      assert t.queue[0] in t.queue;
    }
    p := Step(t, e).calls[CallOf(t, e)];
  }

  /** Every step but a new arrival leaves less to do, so each call ends and the stop returns. */
  lemma StepDecreases(t: Task, e: Event)
    requires Inv(t) && Enabled(t, e) && !e.Arrive?
    ensures Work(Step(t, e)) < Work(t)
  {
    if IsCallStep(e) {
      CallStepDecreases(t, e);
    } else {
      OtherStepDecreases(t, e);
    }
  }

  lemma CallStepDecreases(t: Task, e: Event)
    requires Inv(t) && Enabled(t, e) && IsCallStep(e)
    ensures Work(Step(t, e)) < Work(t)
  {
    var p := CallStepMoves(t, e);
    CallWorkMove(t.calls, CallOf(t, e), p);
  }

  lemma OtherStepDecreases(t: Task, e: Event)
    requires Inv(t) && Enabled(t, e) && !e.Arrive? && !IsCallStep(e)
    ensures Work(Step(t, e)) < Work(t)
  {
  }

  ghost predicate Settled(t: Task) {
    && (forall c :: 0 <= c < |t.calls| ==> t.calls[c].Finished?)
    && (t.stop == NotStopped || t.stop == Returned)
  }

  lemma CallCanMove(t: Task, c: nat) returns (e: Event)
    requires Inv(t) && 0 < t.capacity && c < |t.calls| && !t.calls[c].Finished?
    ensures Enabled(t, e) && !e.Arrive? && !e.Abandon?
  {
    match t.calls[c]
    case Arrived => e := Enter(c);
    case Refused => e := Release(c);
    case Dropped => e := Release(c);
    case Admitted =>
      if t.model == Fastpath {
        e := RunInline(c);
      } else if t.model == Pool {
        e := Submit(c);
      } else if |t.queue| < t.capacity {
        e := Enqueue(c);
      } else {
        e := QueueCanMove(t);
      }
    case Queued => e := QueueCanMove(t);
    case Submitted => e := PoolStart(c);
    case Running => e := Process(c);
    case Ran => e := Release(c);
    case Released => e := Done(c);
  }

  lemma QueueCanMove(t: Task) returns (e: Event)
    requires Inv(t) && t.queue != []
    ensures Enabled(t, e) && !e.Arrive? && !e.Abandon?
  {
    assert t.queue[0] in t.queue;
    match t.worker
    case Idle => e := WorkerTake;
    case Busy(c) =>
      e := if t.calls[c].Running? then Process(c) else if t.calls[c].Ran? then Release(c) else Done(c);
  }

  lemma {:induction false} AllFinishedCount(calls: seq<Phase>)
    requires forall c :: 0 <= c < |calls| ==> calls[c].Finished?
    ensures Count(calls) == 0
  {
    if calls != [] {
      AllFinishedCount(calls[..|calls| - 1]);
    }
  }

  /** Without any context being cancelled and without new calls, some step is always possible until
      every call has finished and a stop that began has returned: no deadlock. */
  lemma NeverStuck(t: Task) returns (e: Event)
    requires Inv(t) && 0 < t.capacity && !Settled(t)
    ensures Enabled(t, e) && !e.Arrive? && !e.Abandon?
  {
    if c :| 0 <= c < |t.calls| && !t.calls[c].Finished? {
      e := CallCanMove(t, c);
    } else {
      AllFinishedCount(t.calls);
      if StopEnabled(t) {
        e := StopStep;
      } else {
        assert t.stop == Closed && t.worker != Exited;
        if t.queue != [] {
          QueuedIsInflight(t);
        }
        e := WorkerExit;
      }
    }
  }
}
