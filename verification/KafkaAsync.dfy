/**
 * The asynchronous Kafka sender: bounded queues, one worker per shard, producer callbacks, and
 * `Close` calls that wait for workers and callbacks.  Each channel operation, atomic store,
 * wait-group wait and callback is one step; records are identities.
 */
module KafkaAsync {

  datatype Worker =
    | Polling
    | Waiting
    | Draining
    | Holding(record: nat, draining: bool)
    | Exited

  /** `enqueued` and `produced` record a shard's history; `open` counts what was enqueued before
      the close channel was closed. */
  datatype Shard = Shard(worker: Worker, queue: seq<nat>, enqueued: seq<nat>, produced: seq<nat>, open: nat)

  datatype ClosePhase = Begun | Signalled | WorkersDone | CallbacksDone | Returned

  datatype Closer = Closer(phase: ClosePhase, timedOut: bool)

  datatype Sender = Sender(
    shards: seq<Shard>,
    capacity: nat,
    next: nat,
    entered: nat,
    closed: bool,
    signalled: bool,
    inflight: int,
    outstanding: multiset<nat>,
    success: multiset<nat>,
    errors: multiset<nat>,
    closers: seq<Closer>,
    clientsClosed: bool,
    lateProduce: bool)

  datatype Event =
    | EnterSend
    | Enqueue(i: nat)
    | RejectSend
    | Take(i: nat)
    | SeeEmpty(i: nat)
    | SeeClosed(i: nat)
    | Produce(i: nat)
    | Callback(record: nat, ok: bool)
    | BeginClose
    | Signal(c: nat)
    | WorkersWaited(c: nat)
    | CallbacksWaited(c: nat)
    | TimeOut(c: nat)
    | CloseClients(c: nat)

  function Started(shards: nat, capacity: nat): Sender {
    Sender(seq(shards, _ => Shard(Polling, [], [], [], 0)), capacity, 0, 0, false, false, 0,
           multiset{}, multiset{}, multiset{}, [], false, false)
  }

  predicate AllExited(shards: seq<Shard>) {
    forall i :: 0 <= i < |shards| ==> shards[i].worker.Exited?
  }

  predicate AtPhase(s: Sender, c: nat, p: ClosePhase) {
    c < |s.closers| && s.closers[c].phase == p
  }

  /** A worker takes in any of its three selects; a closed channel never hides a waiting record
      from the draining select, because its default branch is the last resort. */
  predicate Enabled(s: Sender, e: Event) {
    match e
    case EnterSend => !s.closed
    case Enqueue(i) => s.entered > 0 && i < |s.shards| && |s.shards[i].queue| < s.capacity
    case RejectSend => s.entered > 0
    case Take(i) =>
      i < |s.shards| && s.shards[i].queue != [] && !s.shards[i].worker.Holding? && !s.shards[i].worker.Exited?
    case SeeEmpty(i) =>
      i < |s.shards| && s.shards[i].queue == [] && (s.shards[i].worker.Polling? || s.shards[i].worker.Draining?)
    case SeeClosed(i) => i < |s.shards| && s.shards[i].worker.Waiting? && s.signalled
    case Produce(i) => i < |s.shards| && s.shards[i].worker.Holding?
    case Callback(record, _) => record in s.outstanding
    case BeginClose => true
    case Signal(c) => AtPhase(s, c, Begun)
    case WorkersWaited(c) => AtPhase(s, c, Signalled) && AllExited(s.shards)
    case CallbacksWaited(c) => AtPhase(s, c, WorkersDone) && s.inflight == 0
    case TimeOut(c) => AtPhase(s, c, Signalled) || AtPhase(s, c, WorkersDone)
    case CloseClients(c) => AtPhase(s, c, CallbacksDone)
  }

  function Taken(sh: Shard): Shard
    requires sh.queue != []
  {
    sh.(queue := sh.queue[1..], worker := Holding(sh.queue[0], sh.worker.Draining?))
  }

  function Put(sh: Shard, record: nat, signalled: bool): Shard {
    sh.(queue := sh.queue + [record], enqueued := sh.enqueued + [record],
        open := if signalled then sh.open else sh.open + 1)
  }

  function Done(sh: Shard): Shard
    requires sh.worker.Holding?
  {
    sh.(produced := sh.produced + [sh.worker.record], worker := if sh.worker.draining then Draining else Polling)
  }

  function Idle(sh: Shard): Shard {
    sh.(worker := if sh.worker.Draining? then Exited else Waiting)
  }

  function WithShard(s: Sender, i: nat, sh: Shard): Sender
    requires i < |s.shards|
  {
    s.(shards := s.shards[i := sh])
  }

  function WithPhase(s: Sender, c: nat, p: ClosePhase, timedOut: bool): Sender
    requires c < |s.closers|
  {
    s.(closers := s.closers[c := Closer(p, s.closers[c].timedOut || timedOut)])
  }

  function Produced(s: Sender, i: nat): Sender
    requires i < |s.shards| && s.shards[i].worker.Holding?
  {
    WithShard(s, i, Done(s.shards[i])).(
      inflight := s.inflight + 1,
      outstanding := s.outstanding + multiset{s.shards[i].worker.record},
      lateProduce := s.lateProduce || s.clientsClosed)
  }

  function CalledBack(s: Sender, record: nat, ok: bool): Sender {
    s.(inflight := s.inflight - 1,
       outstanding := s.outstanding - multiset{record},
       success := if ok then s.success + multiset{record} else s.success,
       errors := if ok then s.errors else s.errors + multiset{record})
  }

  function Step(s: Sender, e: Event): Sender
    requires Enabled(s, e)
  {
    match e
    case EnterSend => s.(entered := s.entered + 1)
    case Enqueue(i) =>
      WithShard(s, i, Put(s.shards[i], s.next, s.signalled)).(next := s.next + 1, entered := s.entered - 1)
    case RejectSend => s.(entered := s.entered - 1)
    case Take(i) => WithShard(s, i, Taken(s.shards[i]))
    case SeeEmpty(i) => WithShard(s, i, Idle(s.shards[i]))
    case SeeClosed(i) => WithShard(s, i, s.shards[i].(worker := Draining))
    case Produce(i) => Produced(s, i)
    case Callback(record, ok) => CalledBack(s, record, ok)
    case BeginClose => s.(closed := true, closers := s.closers + [Closer(Begun, false)])
    case Signal(c) => WithPhase(s, c, Signalled, false).(signalled := true)
    case WorkersWaited(c) => WithPhase(s, c, WorkersDone, false)
    case CallbacksWaited(c) => WithPhase(s, c, CallbacksDone, false)
    case TimeOut(c) => WithPhase(s, c, if s.closers[c].phase == Signalled then WorkersDone else CallbacksDone, true)
    case CloseClients(c) => WithPhase(s, c, Returned, false).(clientsClosed := true)
  }

  datatype Run = Run(shards: nat, capacity: nat, events: seq<Event>)

  function Before(r: Run): Run
    requires r.events != []
  {
    r.(events := r.events[..|r.events| - 1])
  }

  predicate Possible(r: Run)
    decreases |r.events|, 0
  {
    r.events != [] ==> Possible(Before(r)) && Enabled(After(Before(r)), r.events[|r.events| - 1])
  }

  function After(r: Run): Sender
    requires Possible(r)
    decreases |r.events|, 1
  {
    if r.events == [] then Started(r.shards, r.capacity) else Step(After(Before(r)), r.events[|r.events| - 1])
  }

  // What every step keeps

  function InHand(w: Worker): seq<nat> {
    if w.Holding? then [w.record] else []
  }

  /** Records move from the queue to the producer in order, one at a time, none skipped; a worker
      leaves only after producing everything enqueued before the signal. */
  predicate ShardOk(sh: Shard, signalled: bool) {
    && sh.enqueued == sh.produced + InHand(sh.worker) + sh.queue
    && sh.open <= |sh.enqueued|
    && (!signalled ==> sh.open == |sh.enqueued|)
    && (sh.worker.Draining? || sh.worker.Exited? || (sh.worker.Holding? && sh.worker.draining) ==> signalled)
    && (sh.worker.Exited? ==> sh.open <= |sh.produced|)
  }

  ghost predicate ShardsOk(shards: seq<Shard>, signalled: bool) {
    forall i :: 0 <= i < |shards| ==> ShardOk(shards[i], signalled)
  }

  function AllProduced(shards: seq<Shard>): multiset<nat> {
    if shards == [] then multiset{} else AllProduced(shards[..|shards| - 1]) + multiset(shards[|shards| - 1].produced)
  }

  ghost predicate Counted(s: Sender) {
    && s.inflight == |s.outstanding|
    && AllProduced(s.shards) == s.outstanding + s.success + s.errors
  }

  predicate Rank(p: ClosePhase, q: ClosePhase) {
    match q
    case Begun => true
    case Signalled => p != Begun
    case WorkersDone => p == WorkersDone || p == CallbacksDone || p == Returned
    case CallbacksDone => p == CallbacksDone || p == Returned
    case Returned => p == Returned
  }

  predicate CloserOk(c: Closer, shards: seq<Shard>, inflight: int, signalled: bool) {
    && (Rank(c.phase, Signalled) ==> signalled)
    && (Rank(c.phase, WorkersDone) && !c.timedOut ==> AllExited(shards))
    && (Rank(c.phase, CallbacksDone) && !c.timedOut ==> inflight == 0)
  }

  predicate NoTimeOut(closers: seq<Closer>) {
    forall c :: 0 <= c < |closers| ==> !closers[c].timedOut
  }

  ghost predicate CloseOk(s: Sender) {
    && (forall c :: 0 <= c < |s.closers| ==> CloserOk(s.closers[c], s.shards, s.inflight, s.signalled))
    && (s.clientsClosed && NoTimeOut(s.closers) ==> AllExited(s.shards))
    && (s.lateProduce ==> !NoTimeOut(s.closers))
    && (s.signalled ==> s.closed)
    && (s.closers != [] ==> s.closed)
  }

  ghost predicate Inv(s: Sender) {
    ShardsOk(s.shards, s.signalled) && Counted(s) && CloseOk(s)
  }

  lemma {:induction false} ProducedUpdate(shards: seq<Shard>, i: nat, sh: Shard, more: multiset<nat>)
    requires i < |shards| && multiset(sh.produced) == multiset(shards[i].produced) + more
    ensures AllProduced(shards[i := sh]) == AllProduced(shards) + more
  {
    var n := |shards| - 1;
    if i == n {
      assert shards[i := sh][..n] == shards[..n];
    } else {
      ProducedUpdate(shards[..n], i, sh, more);
      assert shards[i := sh][..n] == shards[..n][i := sh];
    }
  }

  lemma {:induction false} NothingProduced(shards: seq<Shard>)
    requires forall i :: 0 <= i < |shards| ==> shards[i].produced == []
    ensures AllProduced(shards) == multiset{}
  {
    if shards != [] {
      NothingProduced(shards[..|shards| - 1]);
    }
  }

  lemma StartedInv(shards: nat, capacity: nat)
    ensures Inv(Started(shards, capacity))
  {
    NothingProduced(Started(shards, capacity).shards);
  }

  /** Steps of one shard that produce nothing. */
  lemma QuietShard(s: Sender, i: nat, sh: Shard)
    requires Inv(s) && i < |s.shards|
    requires ShardOk(sh, s.signalled) && sh.produced == s.shards[i].produced
    requires s.shards[i].worker.Exited? ==> sh.worker.Exited?
    ensures Inv(WithShard(s, i, sh))
  {
    ProducedUpdate(s.shards, i, sh, multiset{});
    ExitedStays(s, i, sh);
  }

  lemma ExitedStays(s: Sender, i: nat, sh: Shard)
    requires i < |s.shards| && (s.shards[i].worker.Exited? ==> sh.worker.Exited?)
    ensures AllExited(s.shards) ==> AllExited(s.shards[i := sh])
  {
  }

  lemma TakenOk(sh: Shard, signalled: bool)
    requires ShardOk(sh, signalled) && sh.queue != [] && !sh.worker.Holding? && !sh.worker.Exited?
    ensures ShardOk(Taken(sh), signalled)
  {
    assert sh.produced + [sh.queue[0]] + sh.queue[1..] == sh.produced + [] + sh.queue;
  }

  lemma PutOk(sh: Shard, record: nat, signalled: bool)
    requires ShardOk(sh, signalled)
    ensures ShardOk(Put(sh, record, signalled), signalled)
  {
    assert sh.produced + InHand(sh.worker) + (sh.queue + [record]) == sh.produced + InHand(sh.worker) + sh.queue + [record];
  }

  lemma DoneOk(sh: Shard, signalled: bool)
    requires ShardOk(sh, signalled) && sh.worker.Holding?
    ensures ShardOk(Done(sh), signalled)
  {
    assert sh.produced + [sh.worker.record] + [] + sh.queue == sh.produced + [sh.worker.record] + sh.queue;
  }

  lemma IdleOk(sh: Shard, signalled: bool)
    requires ShardOk(sh, signalled) && sh.queue == [] && (sh.worker.Polling? || sh.worker.Draining?)
    ensures ShardOk(Idle(sh), signalled)
  {
    assert sh.enqueued == sh.produced;
  }

  lemma ProduceCounted(s: Sender, i: nat)
    requires Counted(s) && i < |s.shards| && s.shards[i].worker.Holding?
    ensures Counted(Produced(s, i))
  {
    var sh := s.shards[i];
    var one := multiset{sh.worker.record};
    assert multiset(Done(sh).produced) == multiset(sh.produced) + one;
    ProducedUpdate(s.shards, i, Done(sh), one);
    assert s.outstanding + s.success + s.errors + one == (s.outstanding + one) + s.success + s.errors;
  }

  /** While a worker holds a record nobody has waited for all workers without timing out. */
  lemma ProduceCloseOk(s: Sender, i: nat)
    requires CloseOk(s) && i < |s.shards| && s.shards[i].worker.Holding?
    ensures CloseOk(Produced(s, i))
  {
    assert !AllExited(s.shards);
    var t := Produced(s, i);
    forall c | 0 <= c < |s.closers|
      ensures CloserOk(s.closers[c], t.shards, t.inflight, t.signalled)
    {
      assert CloserOk(s.closers[c], s.shards, s.inflight, s.signalled);
    }
  }

  lemma ProduceInv(s: Sender, i: nat)
    requires Inv(s) && Enabled(s, Produce(i))
    ensures Inv(Produced(s, i))
  {
    DoneOk(s.shards[i], s.signalled);
    ProduceCounted(s, i);
    ProduceCloseOk(s, i);
  }

  lemma CallbackInv(s: Sender, record: nat, ok: bool)
    requires Inv(s) && record in s.outstanding
    ensures Inv(CalledBack(s, record, ok))
  {
    assert s.outstanding == (s.outstanding - multiset{record}) + multiset{record};
    assert s.inflight > 0;
  }

  lemma PhaseTimeOut(s: Sender, c: nat, p: ClosePhase, timedOut: bool)
    requires c < |s.closers|
    ensures NoTimeOut(WithPhase(s, c, p, timedOut).closers) ==> NoTimeOut(s.closers)
  {
    var closers := WithPhase(s, c, p, timedOut).closers;
    if NoTimeOut(closers) {
      assert !closers[c].timedOut;
      assert forall d :: 0 <= d < |closers| && d != c ==> closers[d] == s.closers[d];
    }
  }

  lemma PhaseInv(s: Sender, c: nat, p: ClosePhase, timedOut: bool)
    requires Inv(s) && c < |s.closers|
    requires CloserOk(Closer(p, s.closers[c].timedOut || timedOut), s.shards, s.inflight, s.signalled)
    ensures Inv(WithPhase(s, c, p, timedOut))
  {
    PhaseTimeOut(s, c, p, timedOut);
  }

  lemma SignalInv(s: Sender, c: nat)
    requires Inv(s) && Enabled(s, Signal(c))
    ensures Inv(Step(s, Signal(c)))
  {
    var t := s.(signalled := true);
    assert Inv(t);
    PhaseInv(t, c, Signalled, false);
    assert Step(s, Signal(c)) == WithPhase(t, c, Signalled, false);
  }

  lemma BeginInv(s: Sender)
    requires Inv(s)
    ensures Inv(Step(s, BeginClose))
  {
    var t := Step(s, BeginClose);
    assert t.closers[..|s.closers|] == s.closers;
    assert NoTimeOut(t.closers) ==> NoTimeOut(s.closers);
  }

  lemma CloseClientsInv(s: Sender, c: nat)
    requires Inv(s) && Enabled(s, CloseClients(c))
    ensures Inv(Step(s, CloseClients(c)))
  {
    PhaseInv(s, c, Returned, false);
    PhaseTimeOut(s, c, Returned, false);
    assert CloserOk(s.closers[c], s.shards, s.inflight, s.signalled);
  }

  lemma QueueStepInv(s: Sender, e: Event)
    requires Inv(s) && Enabled(s, e) && (e.Enqueue? || e.Take? || e.SeeEmpty? || e.SeeClosed?)
    ensures Inv(Step(s, e))
  {
    var sh := s.shards[e.i];
    match e
    case Enqueue(i) =>
      PutOk(sh, s.next, s.signalled);
      QuietShard(s, i, Put(sh, s.next, s.signalled));
    case Take(i) =>
      TakenOk(sh, s.signalled);
      QuietShard(s, i, Taken(sh));
    case SeeEmpty(i) =>
      IdleOk(sh, s.signalled);
      QuietShard(s, i, Idle(sh));
    case SeeClosed(i) => QuietShard(s, i, sh.(worker := Draining));
  }

  lemma CloseStepInv(s: Sender, e: Event)
    requires Inv(s) && Enabled(s, e)
    requires e.BeginClose? || e.Signal? || e.WorkersWaited? || e.CallbacksWaited? || e.TimeOut? || e.CloseClients?
    ensures Inv(Step(s, e))
  {
    match e
    case BeginClose => BeginInv(s);
    case Signal(c) => SignalInv(s, c);
    case WorkersWaited(c) => PhaseInv(s, c, WorkersDone, false);
    case CallbacksWaited(c) => PhaseInv(s, c, CallbacksDone, false);
    case TimeOut(c) => PhaseInv(s, c, if s.closers[c].phase == Signalled then WorkersDone else CallbacksDone, true);
    case CloseClients(c) => CloseClientsInv(s, c);
  }

  lemma StepInv(s: Sender, e: Event)
    requires Inv(s) && Enabled(s, e)
    ensures Inv(Step(s, e))
  {
    if e.EnterSend? || e.RejectSend? {
    } else if e.Produce? {
      ProduceInv(s, e.i);
    } else if e.Callback? {
      CallbackInv(s, e.record, e.ok);
    } else if e.Enqueue? || e.Take? || e.SeeEmpty? || e.SeeClosed? {
      QueueStepInv(s, e);
    } else {
      CloseStepInv(s, e);
    }
  }

  lemma {:induction false} EveryRunInv(r: Run)
    requires Possible(r)
    ensures Inv(After(r))
    decreases |r.events|
  {
    if r.events == [] {
      StartedInv(r.shards, r.capacity);
    } else {
      EveryRunInv(Before(r));
      StepInv(After(Before(r)), r.events[|r.events| - 1]);
    }
  }

  // Results

  /** Each shard produces its records in the order they were enqueued, each once. */
  lemma ProducedInOrder(r: Run, i: nat)
    requires Possible(r) && i < |After(r).shards|
    ensures After(r).shards[i].produced <= After(r).shards[i].enqueued
  {
    EveryRunInv(r);
    assert ShardOk(After(r).shards[i], After(r).signalled);
  }

  /** A worker that has exited produced everything enqueued before the close channel was closed. */
  lemma ExitedAfterDraining(r: Run, i: nat)
    requires Possible(r) && i < |After(r).shards| && After(r).shards[i].worker.Exited?
    ensures var sh := After(r).shards[i];
            sh.open <= |sh.enqueued| && sh.enqueued[..sh.open] <= sh.produced <= sh.enqueued
  {
    EveryRunInv(r);
    assert ShardOk(After(r).shards[i], After(r).signalled);
  }

  /** Whatever was produced succeeded, failed, or is still in flight. */
  lemma ProducedIsAccountedFor(r: Run)
    requires Possible(r)
    ensures AllProduced(After(r).shards) == After(r).outstanding + After(r).success + After(r).errors
    ensures After(r).inflight == |After(r).outstanding|
  {
    EveryRunInv(r);
  }

  lemma {:induction false} ProducedWithin(shards: seq<Shard>, i: nat, record: nat)
    requires i < |shards| && record in shards[i].produced
    ensures record in AllProduced(shards)
  {
    if i < |shards| - 1 {
      ProducedWithin(shards[..|shards| - 1], i, record);
    }
  }

  /** A `Close` that returned without timing out leaves no callback pending, and every record
      enqueued before the signal has had its callback. */
  lemma CloseWaitsForCallbacks(r: Run, c: nat, i: nat, k: nat)
    requires Possible(r) && AtPhase(After(r), c, Returned) && !After(r).closers[c].timedOut
    requires i < |After(r).shards| && k < After(r).shards[i].open
    ensures After(r).outstanding == multiset{}
    ensures k < |After(r).shards[i].enqueued|
    ensures After(r).shards[i].enqueued[k] in After(r).success + After(r).errors
  {
    EveryRunInv(r);
    var s := After(r);
    assert CloserOk(s.closers[c], s.shards, s.inflight, s.signalled);
    ExitedAfterDraining(r, i);
    var sh := s.shards[i];
    assert sh.produced[k] == sh.enqueued[k];
    ProducedWithin(s.shards, i, sh.enqueued[k]);
    assert s.outstanding == multiset{};
    assert AllProduced(s.shards) == s.success + s.errors;
  }

  /** After such a `Close` a shard's records all reached the broker exactly when its queue is empty:
      what is left there was enqueued after the signal. */
  lemma LeftBehindExactly(r: Run, c: nat, i: nat)
    requires Possible(r) && AtPhase(After(r), c, Returned) && !After(r).closers[c].timedOut
    requires i < |After(r).shards|
    ensures var sh := After(r).shards[i];
            && (sh.produced == sh.enqueued <==> sh.queue == [])
            && |sh.queue| <= |sh.enqueued| - sh.open
  {
    EveryRunInv(r);
    var s := After(r);
    assert CloserOk(s.closers[c], s.shards, s.inflight, s.signalled);
    assert ShardOk(s.shards[i], s.signalled);
  }

  /** No record is handed to a closed client unless some `Close` gave up waiting. */
  lemma ClientsOutliveWorkers(r: Run)
    requires Possible(r) && NoTimeOut(After(r).closers)
    ensures !After(r).lateProduce
  {
    EveryRunInv(r);
  }

  // Draining ends

  function WorkerWork(sh: Shard): nat {
    6 * |sh.queue| + (match sh.worker
                      case Holding(_, _) => 6
                      case Polling => 3
                      case Waiting => 2
                      case Draining => 1
                      case Exited => 0)
  }

  predicate WorkerStep(e: Event) {
    e.Take? || e.SeeEmpty? || e.SeeClosed? || e.Produce?
  }

  /** Each step of a worker leaves its shard with less to do. */
  lemma WorkerStepDecreases(s: Sender, e: Event)
    requires Enabled(s, e) && WorkerStep(e)
    ensures WorkerWork(Step(s, e).shards[e.i]) < WorkerWork(s.shards[e.i])
    ensures forall j :: 0 <= j < |s.shards| && j != e.i ==> Step(s, e).shards[j] == s.shards[j]
  {
  }

  /** Once the close channel is closed, a worker that has not exited can always step. */
  lemma WorkerNeverStuck(s: Sender, i: nat) returns (e: Event)
    requires s.signalled && i < |s.shards| && !s.shards[i].worker.Exited?
    ensures Enabled(s, e) && WorkerStep(e) && e.i == i
  {
    var sh := s.shards[i];
    e := if sh.worker.Holding? then Produce(i)
         else if sh.queue != [] then Take(i)
         else if sh.worker.Waiting? then SeeClosed(i)
         else SeeEmpty(i);
  }
}
