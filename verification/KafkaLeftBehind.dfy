/** Which accepted Kafka records are never produced. */
module KafkaLeftBehind {
  import opened KafkaAsync

  function Upto(r: Run, n: nat): Run
    requires n <= |r.events|
  {
    r.(events := r.events[..n])
  }

  lemma {:induction false} UptoPossible(r: Run, n: nat)
    requires Possible(r) && n <= |r.events|
    ensures Possible(Upto(r, n))
    decreases |r.events|
  {
    if n == |r.events| {
      assert Upto(r, n) == r;
    } else {
      UptoPossible(Before(r), n);
      assert Upto(Before(r), n) == Upto(r, n);
    }
  }

  /** The state in which event `n` of the run is taken. */
  function At(r: Run, n: nat): Sender
    requires Possible(r) && n <= |r.events|
  {
    UptoPossible(r, n);
    After(Upto(r, n))
  }

  lemma EarlierStates(r: Run, n: nat)
    requires Possible(r) && n < |r.events|
    ensures At(r, n) == At(Before(r), n)
    ensures n == |r.events| - 1 ==> At(r, n) == After(Before(r))
  {
    assert Upto(Before(r), n) == Upto(r, n);
  }

  /** The worker of shard `i` looks at its queue a last time and finds it empty. */
  predicate Leaves(s: Sender, e: Event, i: nat) {
    e == SeeEmpty(i) && i < |s.shards| && s.shards[i].queue == [] && s.shards[i].worker.Draining?
  }

  predicate ExitsAt(r: Run, i: nat, n: nat)
    requires Possible(r)
  {
    n < |r.events| && Leaves(At(r, n), r.events[n], i)
  }

  lemma StepCount(s: Sender, e: Event)
    requires Enabled(s, e)
    ensures |Step(s, e).shards| == |s.shards|
  {
  }

  lemma {:induction false} ShardCount(r: Run)
    requires Possible(r)
    ensures |After(r).shards| == r.shards
    decreases |r.events|
  {
    if r.events != [] {
      ShardCount(Before(r));
      StepCount(After(Before(r)), r.events[|r.events| - 1]);
    }
  }

  /** An exited worker stays so and produces nothing more; its queue only grows. */
  lemma ExitedStep(s: Sender, e: Event, i: nat)
    requires Enabled(s, e) && i < |s.shards| && s.shards[i].worker.Exited?
    ensures |Step(s, e).shards| == |s.shards|
    ensures Step(s, e).shards[i].worker.Exited? && Step(s, e).shards[i].produced == s.shards[i].produced
  {
    StepCount(s, e);
    if !(e.Enqueue? && e.i == i) {
      OtherShard(s, e, i);
    }
  }

  lemma OtherShard(s: Sender, e: Event, i: nat)
    requires Enabled(s, e) && i < |s.shards| && s.shards[i].worker.Exited? && !(e.Enqueue? && e.i == i)
    ensures |Step(s, e).shards| == |s.shards| && Step(s, e).shards[i] == s.shards[i]
  {
  }

  lemma LeavesOrWasGone(s: Sender, e: Event, i: nat)
    requires Enabled(s, e) && i < |s.shards| && i < |Step(s, e).shards| && Step(s, e).shards[i].worker.Exited?
    ensures s.shards[i].worker.Exited? || Leaves(s, e, i)
  {
  }

  /** A worker that is gone has left at some event. */
  lemma {:induction false} ExitedHasExit(r: Run, i: nat) returns (n: nat)
    requires Possible(r) && i < |After(r).shards| && After(r).shards[i].worker.Exited?
    ensures ExitsAt(r, i, n)
    decreases |r.events|
  {
    assert r.events != [];
    var s, e := After(Before(r)), r.events[|r.events| - 1];
    StepCount(s, e);
    LeavesOrWasGone(s, e, i);
    if s.shards[i].worker.Exited? {
      n := ExitedHasExit(Before(r), i);
    } else {
      n := |r.events| - 1;
    }
    EarlierStates(r, n);
  }

  lemma LeavesAllProduced(s: Sender, i: nat)
    requires i < |s.shards| && ShardOk(s.shards[i], s.signalled) && Leaves(s, SeeEmpty(i), i)
    ensures var t := Step(s, SeeEmpty(i));
      |t.shards| == |s.shards| && t.shards[i].worker.Exited? && t.shards[i].produced == s.shards[i].enqueued
  {
    assert s.shards[i].produced + [] + [] == s.shards[i].produced;
  }

  lemma {:induction false} ProducedUntilExit(r: Run, i: nat, n: nat)
    requires Possible(r) && ExitsAt(r, i, n) && i < r.shards
    ensures |At(r, n).shards| == |After(r).shards| == r.shards
    ensures After(r).shards[i].worker.Exited? && After(r).shards[i].produced == At(r, n).shards[i].enqueued
    decreases |r.events|
  {
    var s, e := After(Before(r)), r.events[|r.events| - 1];
    ShardCount(Before(r));
    EarlierStates(r, n);
    if n == |r.events| - 1 {
      EveryRunInv(Before(r));
      LeavesAllProduced(s, i);
    } else {
      ProducedUntilExit(Before(r), i, n);
      ExitedStep(s, e, i);
    }
  }

  /** Of the records a shard accepted, those enqueued before its worker's last look are produced and
      those enqueued after it make up its queue. */
  lemma LeftBehindAreLate(r: Run, i: nat, n: nat)
    requires Possible(r) && ExitsAt(r, i, n) && i < r.shards
    ensures |At(r, n).shards| == |After(r).shards| == r.shards
    ensures After(r).shards[i].produced == At(r, n).shards[i].enqueued
    ensures After(r).shards[i].enqueued == At(r, n).shards[i].enqueued + After(r).shards[i].queue
  {
    ProducedUntilExit(r, i, n);
    EveryRunInv(r);
    var sh := After(r).shards[i];
    assert ShardOk(sh, After(r).signalled);
    assert sh.produced + [] == sh.produced;
  }

  predicate Continues(r: Run, longer: Run) {
    longer.shards == r.shards && longer.capacity == r.capacity && r.events <= longer.events
  }

  /** Record number `k` of a shard whose worker has left is among the produced ones of a continuation
      if and only if it had been enqueued when the worker left. */
  lemma NeverProducedExactly(r: Run, i: nat, n: nat, longer: Run, k: nat)
    requires Possible(r) && ExitsAt(r, i, n) && i < r.shards
    requires Possible(longer) && Continues(r, longer)
    ensures |At(r, n).shards| == |After(longer).shards| == r.shards
    ensures k < |After(longer).shards[i].produced| <==> k < |At(r, n).shards[i].enqueued|
  {
    assert Upto(longer, n) == Upto(r, n);
    ProducedUntilExit(longer, i, n);
  }

  // A run that leaves a record behind

  function Then(r: Run, e: Event): Run {
    r.(events := r.events + [e])
  }

  /** One more event leads to state `t`. */
  lemma Drive(r: Run, e: Event, t: Sender)
    requires Possible(r) && Enabled(After(r), e) && Step(After(r), e) == t
    ensures Possible(Then(r, e)) && After(Then(r, e)) == t
  {
    assert Before(Then(r, e)) == r;
  }

  /** One shard of capacity one, one `Send` under way and one `Close` in the given phase. */
  function Closing(worker: Worker, phase: ClosePhase): Sender {
    Started(1, 1).(shards := [Shard(worker, [], [], [], 0)], entered := 1, closed := true,
                   signalled := phase != Begun, closers := [Closer(phase, false)])
  }

  function Fresh(entered: nat): Sender {
    Started(1, 1).(shards := [Shard(Polling, [], [], [], 0)], entered := entered)
  }

  lemma SendEnters() returns (r: Run)
    ensures Possible(r) && r == Run(1, 1, [EnterSend]) && After(r) == Fresh(1)
  {
    r := Run(1, 1, []);
    assert Started(1, 1).shards == Fresh(0).shards;
    Drive(r, EnterSend, Fresh(1));
    r := Then(r, EnterSend);
  }

  lemma CloseEnters(r: Run)
    requires Possible(r) && After(r) == Fresh(1)
    ensures Possible(Then(r, BeginClose)) && After(Then(r, BeginClose)) == Closing(Polling, Begun)
  {
    assert [] + [Closer(Begun, false)] == [Closer(Begun, false)];
    Drive(r, BeginClose, Closing(Polling, Begun));
  }

  lemma CloseSignals(r: Run)
    requires Possible(r) && After(r) == Closing(Polling, Begun)
    ensures Possible(Then(r, Signal(0))) && After(Then(r, Signal(0))) == Closing(Polling, Signalled)
  {
    assert [Closer(Begun, false)][0 := Closer(Signalled, false)] == [Closer(Signalled, false)];
    Drive(r, Signal(0), Closing(Polling, Signalled));
  }

  lemma CloseBegins() returns (r: Run)
    ensures Possible(r) && r.shards == 1 && After(r) == Closing(Polling, Signalled)
  {
    r := SendEnters();
    CloseEnters(r);
    r := Then(r, BeginClose);
    CloseSignals(r);
    r := Then(r, Signal(0));
  }

  lemma WorkerGoesOn(r: Run, from: Worker, e: Event, to: Worker)
    requires Possible(r) && After(r) == Closing(from, Signalled)
    requires (from == Polling && e == SeeEmpty(0) && to == Waiting)
          || (from == Waiting && e == SeeClosed(0) && to == Draining)
          || (from == Draining && e == SeeEmpty(0) && to == Exited)
    ensures Possible(Then(r, e)) && After(Then(r, e)) == Closing(to, Signalled)
  {
    assert [Shard(from, [], [], [], 0)][0 := Shard(to, [], [], [], 0)] == [Shard(to, [], [], [], 0)];
    Drive(r, e, Closing(to, Signalled));
  }

  lemma WorkerLeaves() returns (r: Run)
    ensures Possible(r) && r.shards == 1 && After(r) == Closing(Exited, Signalled)
  {
    r := CloseBegins();
    WorkerGoesOn(r, Polling, SeeEmpty(0), Waiting);
    r := Then(r, SeeEmpty(0));
    WorkerGoesOn(r, Waiting, SeeClosed(0), Draining);
    r := Then(r, SeeClosed(0));
    WorkerGoesOn(r, Draining, SeeEmpty(0), Exited);
    r := Then(r, SeeEmpty(0));
  }

  function Late(phase: ClosePhase): Sender {
    Closing(Exited, phase).(shards := [Shard(Exited, [0], [0], [], 0)], entered := 0, next := 1,
                            clientsClosed := phase == Returned)
  }

  lemma EnqueuedLate(r: Run)
    requires Possible(r) && After(r) == Closing(Exited, Signalled)
    ensures Possible(Then(r, Enqueue(0))) && After(Then(r, Enqueue(0))) == Late(Signalled)
  {
    var sh := Shard(Exited, [], [], [], 0);
    assert Put(sh, 0, true) == Shard(Exited, [0], [0], [], 0);
    assert [sh][0 := Put(sh, 0, true)] == [Put(sh, 0, true)];
    Drive(r, Enqueue(0), Late(Signalled));
  }

  lemma CloseGoesOn(r: Run, from: ClosePhase, e: Event, to: ClosePhase)
    requires Possible(r) && After(r) == Late(from)
    requires (from == Signalled && e == WorkersWaited(0) && to == WorkersDone)
          || (from == WorkersDone && e == CallbacksWaited(0) && to == CallbacksDone)
          || (from == CallbacksDone && e == CloseClients(0) && to == Returned)
    ensures Possible(Then(r, e)) && After(Then(r, e)) == Late(to)
  {
    assert [Closer(from, false)][0 := Closer(to, false)] == [Closer(to, false)];
    Drive(r, e, Late(to));
  }

  lemma CloseReturns(r: Run) returns (done: Run)
    requires Possible(r) && After(r) == Late(Signalled)
    ensures Possible(done) && After(done) == Late(Returned)
  {
    CloseGoesOn(r, Signalled, WorkersWaited(0), WorkersDone);
    var r1 := Then(r, WorkersWaited(0));
    CloseGoesOn(r1, WorkersDone, CallbacksWaited(0), CallbacksDone);
    var r2 := Then(r1, CallbacksWaited(0));
    CloseGoesOn(r2, CallbacksDone, CloseClients(0), Returned);
    done := Then(r2, CloseClients(0));
  }

  /** A `Send` that was under way when `Close` began is accepted after the worker has left: `Close`
      returns without a timeout, and the record stays in the queue for good. */
  lemma AcceptedAfterExit() returns (r: Run)
    ensures Possible(r) && After(r) == Late(Returned) && NoTimeOut(After(r).closers)
  {
    r := WorkerLeaves();
    EnqueuedLate(r);
    r := CloseReturns(Then(r, Enqueue(0)));
  }
}
