/**
 * Batching in the SkyDDS sender.  `Batcher` is the sender's mutable state and each of its methods
 * is one section held under the mutex; the run model interleaves those sections with batch writes
 * that succeed or fail as a whole.
 */
module SkyDds {
  import opened Bytes

  /** An accepted message; `id` is its rank in acceptance order. */
  datatype Message = Message(id: nat, payload: seq<byte>)

  datatype Limits = Limits(batchNum: int, batchSize: int)

  datatype Batch = Batch(closed: bool, held: seq<Message>, bytes: int, armed: bool)

  function SumBytes(held: seq<Message>): nat {
    if held == [] then 0 else SumBytes(held[..|held| - 1]) + |held[|held| - 1].payload|
  }

  lemma SumSnoc(held: seq<Message>, m: Message)
    ensures SumBytes(held + [m]) == SumBytes(held) + |m.payload|
  {
    assert (held + [m])[..|held|] == held;
  }

  // The locked sections

  function Drained(b: Batch): (Batch, seq<Message>) {
    (b.(held := [], bytes := 0), b.held)
  }

  predicate Full(b: Batch, l: Limits) {
    |b.held| >= l.batchNum || b.bytes >= l.batchSize
  }

  function Added(b: Batch, m: Message): Batch {
    b.(held := b.held + [m], bytes := b.bytes + |m.payload|, armed := b.armed || b.held == [])
  }

  predicate Oversize(b: Batch, m: Message, l: Limits) {
    |m.payload| > l.batchSize && b.held == []
  }

  /** The section of `sendBatch` on an open sender: the new state and the messages to write now. */
  function Accepted(b: Batch, m: Message, l: Limits): (Batch, seq<Message>) {
    if Oversize(b, m, l) then (b, [m])
    else if Full(Added(b, m), l) then
      var (c, out) := Drained(Added(b, m));
      (c.(armed := false), out)
    else (Added(b, m), [])
  }

  function TimerDrained(b: Batch): (Batch, seq<Message>) {
    if b.closed then (b, [])
    else
      var (c, out) := Drained(b);
      (c.(armed := false), out)
  }

  function Restored(b: Batch, failed: seq<Message>): Batch {
    if failed == [] then b
    else b.(held := failed + b.held, bytes := SumBytes(failed + b.held), armed := true)
  }

  function Closed(b: Batch): (Batch, seq<Message>) {
    var (c, out) := Drained(b.(closed := true));
    (c.(armed := false), out)
  }

  class Batcher {
    const limits: Limits
    var closed: bool
    var batch: seq<Message>
    var batchBytes: int
    var timerArmed: bool

    ghost function View(): Batch
      reads this
    {
      Batch(closed, batch, batchBytes, timerArmed)
    }

    constructor (l: Limits)
      ensures limits == l && View() == Batch(false, [], 0, false)
    {
      limits, closed, batch, batchBytes, timerArmed := l, false, [], 0, false;
    }

    method DrainBatchLocked() returns (out: seq<Message>)
      modifies `batch, `batchBytes
      ensures out == old(batch) && batch == []
      ensures batchBytes == if old(batch) == [] then old(batchBytes) else 0
    {
      if batch == [] {
        return [];
      }
      out := batch;
      batch, batchBytes := [], 0;
    }

    method SendBatch(m: Message) returns (ok: bool, flushNow: seq<Message>)
      requires batchBytes == SumBytes(batch)
      modifies `batch, `batchBytes, `timerArmed
      ensures ok == !closed
      ensures !ok ==> View() == old(View()) && flushNow == []
      ensures ok ==> (View(), flushNow) == Accepted(old(View()), m, limits)
    {
      flushNow := [];
      ok := !closed;
      if closed {
        return;
      }
      if |m.payload| > limits.batchSize && |batch| == 0 {
        flushNow := [m];
        return;
      }
      batch := batch + [m];
      batchBytes := batchBytes + |m.payload|;
      if |batch| == 1 {
        timerArmed := true;
      }
      if |batch| >= limits.batchNum || batchBytes >= limits.batchSize {
        flushNow := DrainBatchLocked();
        timerArmed := false;
      }
    }

    method RestoreBatchLocked(payloads: seq<Message>)
      modifies `batch, `batchBytes, `timerArmed
      ensures View() == Restored(old(View()), payloads)
    {
      if |payloads| == 0 {
        return;
      }
      batch := payloads + batch;
      batchBytes := 0;
      var i := 0;
      while i < |batch|
        invariant 0 <= i <= |batch| && batchBytes == SumBytes(batch[..i])
        invariant batch == payloads + old(batch) && timerArmed == old(timerArmed)
      {
        SumSnoc(batch[..i], batch[i]);
        assert batch[..i + 1] == batch[..i] + [batch[i]];
        batchBytes := batchBytes + |batch[i].payload|;
        i := i + 1;
      }
      assert batch[..i] == batch;
      timerArmed := true;
    }

    method TimerSection() returns (flushNow: seq<Message>)
      requires batchBytes == SumBytes(batch)
      modifies `batch, `batchBytes, `timerArmed
      ensures (View(), flushNow) == TimerDrained(old(View()))
    {
      if closed {
        return [];
      }
      flushNow := DrainBatchLocked();
      timerArmed := false;
    }

    method CloseSection() returns (flushNow: seq<Message>)
      requires batchBytes == SumBytes(batch)
      modifies this
      ensures (View(), flushNow) == Closed(old(View()))
    {
      closed := true;
      flushNow := DrainBatchLocked();
      timerArmed := false;
    }
  }

  // Runs

  datatype Flight = Flight(messages: seq<Message>, byTimer: bool, failed: bool)

  /** `written` and `lost` record what WriteBatch accepted and what a failed flush reported to the
      caller of `Send` or `Close`; `accepted` is every message `Send` took. */
  datatype System = System(
    b: Batch,
    flights: seq<Flight>,
    accepted: seq<Message>,
    written: seq<Message>,
    lost: seq<Message>)

  datatype Event =
    | Send(payload: seq<byte>)
    | Timer
    | Close
    | Write(i: nat, ok: bool)
    | Restore(i: nat)

  const Init: System := System(Batch(false, [], 0, false), [], [], [], [])

  predicate Enabled(s: System, e: Event) {
    match e
    case Send(_) => true
    case Timer => true
    case Close => true
    case Write(i, _) => i < |s.flights| && !s.flights[i].failed
    case Restore(i) => i < |s.flights| && s.flights[i].failed
  }

  function Launch(s: System, b: Batch, out: seq<Message>, byTimer: bool): System {
    s.(b := b, flights := if out == [] then s.flights else s.flights + [Flight(out, byTimer, false)])
  }

  function Land(s: System, i: nat): System
    requires i < |s.flights|
  {
    s.(flights := s.flights[..i] + s.flights[i + 1..])
  }

  function Sent(s: System, payload: seq<byte>, l: Limits): System {
    if s.b.closed then s
    else
      var m := Message(|s.accepted|, payload);
      var (b, out) := Accepted(s.b, m, l);
      Launch(s, b, out, false).(accepted := s.accepted + [m])
  }

  function AfterWrite(s: System, i: nat, ok: bool): System
    requires i < |s.flights|
  {
    var f := s.flights[i];
    if ok then Land(s, i).(written := s.written + f.messages)
    else if f.byTimer then s.(flights := s.flights[i := f.(failed := true)])
    else Land(s, i).(lost := s.lost + f.messages)
  }

  function AfterRestore(s: System, i: nat): System
    requires i < |s.flights|
  {
    Land(s, i).(b := Restored(s.b, s.flights[i].messages))
  }

  function Step(s: System, e: Event, l: Limits): System
    requires Enabled(s, e)
  {
    match e
    case Send(payload) => Sent(s, payload, l)
    case Timer =>
      var (b, out) := TimerDrained(s.b);
      Launch(s, b, out, true)
    case Close =>
      var (b, out) := Closed(s.b);
      Launch(s, b, out, false)
    case Write(i, ok) => AfterWrite(s, i, ok)
    case Restore(i) => AfterRestore(s, i)
  }

  datatype Run = Run(limits: Limits, events: seq<Event>)

  function Before(r: Run): Run
    requires r.events != []
  {
    r.(events := r.events[..|r.events| - 1])
  }

  predicate Possible(r: Run)
    decreases |r.events|, 0
  {
    r.events != [] ==> Possible(Before(r)) && Enabled(After(Before(r)), r.events[|r.events| - 1])
  }

  function After(r: Run): System
    requires Possible(r)
    decreases |r.events|, 1
  {
    if r.events == [] then Init else Step(After(Before(r)), r.events[|r.events| - 1], r.limits)
  }

  // Conservation

  function InFlight(fs: seq<Flight>): multiset<Message> {
    if fs == [] then multiset{} else InFlight(fs[..|fs| - 1]) + multiset(fs[|fs| - 1].messages)
  }

  lemma InFlightSnoc(fs: seq<Flight>, f: Flight)
    ensures InFlight(fs + [f]) == InFlight(fs) + multiset(f.messages)
  {
    assert (fs + [f])[..|fs|] == fs;
  }

  lemma {:induction false} InFlightRemove(fs: seq<Flight>, i: nat)
    requires i < |fs|
    ensures InFlight(fs) == InFlight(fs[..i] + fs[i + 1..]) + multiset(fs[i].messages)
  {
    var n := |fs| - 1;
    if i == n {
      assert fs[..i] + fs[i + 1..] == fs[..n];
    } else {
      InFlightRemove(fs[..n], i);
      DropThenLast(fs, i);
      InFlightSnoc(fs[..n][..i] + fs[..n][i + 1..], fs[n]);
    }
  }

  lemma DropThenLast(fs: seq<Flight>, i: nat)
    requires i < |fs| - 1
    ensures var n := |fs| - 1;
            fs[..n][i] == fs[i] && fs[..i] + fs[i + 1..] == (fs[..n][..i] + fs[..n][i + 1..]) + [fs[n]]
  {
  }

  lemma {:induction false} InFlightMark(fs: seq<Flight>, i: nat)
    requires i < |fs|
    ensures InFlight(fs[i := fs[i].(failed := true)]) == InFlight(fs)
  {
    var n := |fs| - 1;
    var gs := fs[i := fs[i].(failed := true)];
    if i == n {
      assert gs[..n] == fs[..n];
    } else {
      InFlightMark(fs[..n], i);
      assert gs[..n] == fs[..n][i := fs[i].(failed := true)];
    }
  }

  /** Everything `Send` ever took, wherever it now is. */
  function Whereabouts(s: System): multiset<Message> {
    multiset(s.b.held) + InFlight(s.flights) + multiset(s.written) + multiset(s.lost)
  }

  ghost predicate FlightsOk(fs: seq<Flight>) {
    forall i :: 0 <= i < |fs| ==> fs[i].messages != [] && (fs[i].failed ==> fs[i].byTimer)
  }

  ghost predicate Inv(s: System) {
    && s.b.bytes == SumBytes(s.b.held)
    && (forall i :: 0 <= i < |s.accepted| ==> s.accepted[i].id == i)
    && multiset(s.accepted) == Whereabouts(s)
    && FlightsOk(s.flights)
  }

  lemma LaunchKeeps(s: System, b: Batch, out: seq<Message>, byTimer: bool)
    requires FlightsOk(s.flights)
    ensures var t := Launch(s, b, out, byTimer);
            && InFlight(t.flights) == InFlight(s.flights) + multiset(out)
            && FlightsOk(t.flights)
            && t.accepted == s.accepted && t.written == s.written && t.lost == s.lost
  {
    if out == [] {
      assert InFlight(s.flights) + multiset(out) == InFlight(s.flights);
    } else {
      InFlightSnoc(s.flights, Flight(out, byTimer, false));
    }
  }

  lemma AddedKeeps(b: Batch, m: Message)
    requires b.bytes == SumBytes(b.held)
    ensures Added(b, m).bytes == SumBytes(Added(b, m).held) && Added(b, m).closed == b.closed
    ensures multiset(Added(b, m).held) == multiset(b.held) + multiset{m}
  {
    SumSnoc(b.held, m);
  }

  lemma AcceptedKeeps(b: Batch, m: Message, l: Limits)
    requires b.bytes == SumBytes(b.held)
    ensures var (c, out) := Accepted(b, m, l);
            && c.bytes == SumBytes(c.held) && c.closed == b.closed
            && multiset(c.held) + multiset(out) == multiset(b.held) + multiset{m}
  {
    AddedKeeps(b, m);
    var (c, out) := Accepted(b, m, l);
    if Oversize(b, m, l) {
      assert multiset(out) == multiset{m};
    } else if Full(Added(b, m), l) {
      assert multiset(c.held) == multiset{};
    } else {
      assert multiset(out) == multiset{};
    }
  }

  /** What a launch does to the whereabouts, given what left the batch. */
  lemma LaunchMoves(s: System, b: Batch, out: seq<Message>, byTimer: bool, entered: multiset<Message>)
    requires FlightsOk(s.flights)
    requires multiset(b.held) + multiset(out) == multiset(s.b.held) + entered
    ensures Whereabouts(Launch(s, b, out, byTimer)) == Whereabouts(s) + entered
  {
    LaunchKeeps(s, b, out, byTimer);
    Regroup(multiset(b.held), multiset(out), multiset(s.b.held), entered, InFlight(s.flights),
            multiset(s.written) + multiset(s.lost));
    Assoc(multiset(b.held) + (InFlight(s.flights) + multiset(out)), multiset(s.written), multiset(s.lost));
    Assoc(multiset(s.b.held) + InFlight(s.flights), multiset(s.written), multiset(s.lost));
  }

  lemma Regroup(b: multiset<Message>, o: multiset<Message>, h: multiset<Message>, e: multiset<Message>,
                f: multiset<Message>, rest: multiset<Message>)
    requires b + o == h + e
    ensures b + (f + o) + rest == h + f + rest + e
  {
    assert b + (f + o) + rest == (b + o) + f + rest;
  }

  lemma Assoc(a: multiset<Message>, b: multiset<Message>, c: multiset<Message>)
    ensures a + b + c == a + (b + c)
  {
  }

  lemma SendInv(s: System, payload: seq<byte>, l: Limits)
    requires Inv(s)
    ensures Inv(Sent(s, payload, l))
  {
    if !s.b.closed {
      var m := Message(|s.accepted|, payload);
      var (b, out) := Accepted(s.b, m, l);
      AcceptedKeeps(s.b, m, l);
      LaunchKeeps(s, b, out, false);
      LaunchMoves(s, b, out, false, multiset{m});
      assert multiset(s.accepted + [m]) == multiset(s.accepted) + multiset{m};
    }
  }

  lemma TimerInv(s: System, l: Limits)
    requires Inv(s)
    ensures Inv(Step(s, Timer, l))
  {
    var (b, out) := TimerDrained(s.b);
    LaunchKeeps(s, b, out, true);
    LaunchMoves(s, b, out, true, multiset{});
  }

  lemma CloseInv(s: System, l: Limits)
    requires Inv(s)
    ensures Inv(Step(s, Close, l))
  {
    var (b, out) := Closed(s.b);
    LaunchKeeps(s, b, out, false);
    LaunchMoves(s, b, out, false, multiset{});
  }

  lemma LandKeeps(s: System, i: nat)
    requires i < |s.flights| && FlightsOk(s.flights)
    ensures FlightsOk(Land(s, i).flights)
    ensures InFlight(s.flights) == InFlight(Land(s, i).flights) + multiset(s.flights[i].messages)
  {
    InFlightRemove(s.flights, i);
  }

  lemma WrittenMoves(s: System, i: nat)
    requires i < |s.flights| && FlightsOk(s.flights)
    ensures Whereabouts(Land(s, i).(written := s.written + s.flights[i].messages)) == Whereabouts(s)
  {
    LandKeeps(s, i);
    var ms := s.flights[i].messages;
    assert multiset(s.written + ms) == multiset(s.written) + multiset(ms);
  }

  lemma LostMoves(s: System, i: nat)
    requires i < |s.flights| && FlightsOk(s.flights)
    ensures Whereabouts(Land(s, i).(lost := s.lost + s.flights[i].messages)) == Whereabouts(s)
  {
    LandKeeps(s, i);
    var ms := s.flights[i].messages;
    assert multiset(s.lost + ms) == multiset(s.lost) + multiset(ms);
  }

  lemma WriteInv(s: System, i: nat, ok: bool, l: Limits)
    requires Inv(s) && Enabled(s, Write(i, ok))
    ensures Inv(Step(s, Write(i, ok), l))
  {
    var f := s.flights[i];
    if ok {
      WrittenMoves(s, i);
      LandKeeps(s, i);
    } else if f.byTimer {
      InFlightMark(s.flights, i);
    } else {
      LostMoves(s, i);
      LandKeeps(s, i);
    }
  }

  lemma RestoreInv(s: System, i: nat, l: Limits)
    requires Inv(s) && Enabled(s, Restore(i))
    ensures Inv(Step(s, Restore(i), l))
  {
    var f := s.flights[i];
    LandKeeps(s, i);
    assert multiset(f.messages + s.b.held) == multiset(f.messages) + multiset(s.b.held);
  }

  lemma StepInv(s: System, e: Event, l: Limits)
    requires Inv(s) && Enabled(s, e)
    ensures Inv(Step(s, e, l))
  {
    match e
    case Send(payload) => SendInv(s, payload, l);
    case Timer => TimerInv(s, l);
    case Close => CloseInv(s, l);
    case Write(i, ok) => WriteInv(s, i, ok, l);
    case Restore(i) => RestoreInv(s, i, l);
  }

  lemma {:induction false} EveryRunInv(r: Run)
    requires Possible(r)
    ensures Inv(After(r))
    decreases |r.events|
  {
    if r.events != [] {
      EveryRunInv(Before(r));
      StepInv(After(Before(r)), r.events[|r.events| - 1], r.limits);
    }
  }

  lemma OneOfEach(accepted: seq<Message>, m: Message)
    requires forall i :: 0 <= i < |accepted| ==> accepted[i].id == i
    requires m in accepted
    ensures multiset(accepted)[m] == 1
  {
    var i :| 0 <= i < |accepted| && accepted[i] == m;
    assert accepted == accepted[..i] + [m] + accepted[i + 1..];
    assert m !in accepted[..i] && m !in accepted[i + 1..];
  }

  /** Each accepted message is at exactly one place: still batched, in a flush under way, written,
      or in a flush whose failure was returned; and `batchBytes` is the sum of the batch. */
  lemma EveryMessageIsSomewhereOnce(r: Run, m: Message)
    requires Possible(r) && m in After(r).accepted
    ensures var s := After(r);
            multiset(s.b.held)[m] + InFlight(s.flights)[m] + multiset(s.written)[m] + multiset(s.lost)[m] == 1
    ensures After(r).b.bytes == SumBytes(After(r).b.held)
  {
    EveryRunInv(r);
    OneOfEach(After(r).accepted, m);
  }

  /** Nothing is written, kept or reported that was not accepted. */
  lemma NothingInvented(r: Run)
    requires Possible(r)
    ensures multiset(After(r).accepted) == Whereabouts(After(r))
  {
    EveryRunInv(r);
  }

  // Order

  /** Messages by where they are on their way out: written, being flushed, batched. */
  function Outward(s: System): seq<Message>
    requires |s.flights| <= 1
  {
    s.written + (if s.flights == [] then [] else s.flights[0].messages) + s.b.held
  }

  predicate IdsAscend(ms: seq<Message>) {
    forall i, j :: 0 <= i < j < |ms| ==> ms[i].id < ms[j].id
  }

  predicate Below(ms: seq<Message>, n: nat) {
    forall i :: 0 <= i < |ms| ==> ms[i].id < n
  }

  /** No two flushes are ever under way together. */
  predicate OneAtATime(r: Run)
    requires Possible(r)
    decreases |r.events|
  {
    |After(r).flights| <= 1 && (r.events != [] ==> OneAtATime(Before(r)))
  }

  ghost predicate Ordered(s: System) {
    && |s.flights| <= 1
    && IdsAscend(Outward(s)) && Below(Outward(s), |s.accepted|)
  }

  lemma AcceptedInOrder(s: System, m: Message, l: Limits)
    ensures var (b, out) := Accepted(s.b, m, l);
            out + b.held == s.b.held + [m]
  {
  }

  lemma SendOrdered(s: System, payload: seq<byte>, l: Limits)
    requires Ordered(s) && |Sent(s, payload, l).flights| <= 1
    ensures Ordered(Sent(s, payload, l))
  {
    if !s.b.closed {
      var m := Message(|s.accepted|, payload);
      var (b, out) := Accepted(s.b, m, l);
      AcceptedInOrder(s, m, l);
      SendOutward(s, m, b, out);
      OneMoreAscends(Outward(s), m, |s.accepted|);
    }
  }

  lemma SendOutward(s: System, m: Message, b: Batch, out: seq<Message>)
    requires |s.flights| <= 1 && out + b.held == s.b.held + [m] && |Launch(s, b, out, false).flights| <= 1
    ensures Outward(Launch(s, b, out, false)) == Outward(s) + [m]
  {
    var before := s.written + (if s.flights == [] then [] else s.flights[0].messages);
    assert before + (out + b.held) == Outward(s) + [m];
  }

  lemma OneMoreAscends(ms: seq<Message>, m: Message, n: nat)
    requires IdsAscend(ms) && Below(ms, n) && m.id == n
    ensures IdsAscend(ms + [m]) && Below(ms + [m], n + 1)
  {
  }

  lemma DrainOrdered(s: System, b: Batch, out: seq<Message>, byTimer: bool)
    requires Ordered(s) && out + b.held == s.b.held && |Launch(s, b, out, byTimer).flights| <= 1
    ensures Outward(Launch(s, b, out, byTimer)) == Outward(s)
  {
  }

  lemma DroppedKeepsOrder(a: seq<Message>, b: seq<Message>, c: seq<Message>, n: nat)
    requires IdsAscend(a + b + c) && Below(a + b + c, n)
    ensures IdsAscend(a + c) && Below(a + c, n)
  {
    var x, y := a + b + c, a + c;
    forall i | 0 <= i < |y|
      ensures y[i] == x[if i < |a| then i else i + |b|]
    {
    }
  }

  lemma WriteOrdered(s: System, ok: bool)
    requires Ordered(s) && |s.flights| == 1
    ensures Ordered(AfterWrite(s, 0, ok))
  {
    var f, t := s.flights[0], AfterWrite(s, 0, ok);
    if !ok && !f.byTimer {
      DroppedKeepsOrder(s.written, f.messages, s.b.held, |s.accepted|);
      assert Outward(t) == s.written + s.b.held;
    } else {
      assert Outward(t) == Outward(s);
    }
  }

  lemma RestoreOrdered(s: System)
    requires Ordered(s) && |s.flights| == 1
    ensures Ordered(AfterRestore(s, 0))
  {
    assert Outward(AfterRestore(s, 0)) == Outward(s);
  }

  lemma StepOrdered(s: System, e: Event, l: Limits)
    requires Ordered(s) && Enabled(s, e) && |Step(s, e, l).flights| <= 1
    ensures Ordered(Step(s, e, l))
  {
    match e
    case Send(payload) => SendOrdered(s, payload, l);
    case Timer =>
      var (b, out) := TimerDrained(s.b);
      DrainOrdered(s, b, out, true);
    case Close =>
      var (b, out) := Closed(s.b);
      DrainOrdered(s, b, out, false);
    case Write(i, ok) => WriteOrdered(s, ok);
    case Restore(i) => RestoreOrdered(s);
  }

  lemma {:induction false} EveryRunOrdered(r: Run)
    requires Possible(r) && OneAtATime(r)
    ensures Ordered(After(r))
    decreases |r.events|
  {
    if r.events != [] {
      EveryRunOrdered(Before(r));
      StepOrdered(After(Before(r)), r.events[|r.events| - 1], r.limits);
    }
  }

  /** Without overlapping flushes messages are written in the order they were accepted. */
  lemma WrittenInAcceptOrder(r: Run)
    requires Possible(r) && OneAtATime(r)
    ensures IdsAscend(After(r).written)
  {
    EveryRunOrdered(r);
    var s := After(r);
    forall i, j | 0 <= i < j < |s.written|
      ensures s.written[i].id < s.written[j].id
    {
      assert Outward(s)[i] == s.written[i] && Outward(s)[j] == s.written[j];
    }
  }

  lemma AloneFlushes(s: System, payload: seq<byte>, l: Limits)
    requires s.b == Init.b && l.batchNum == 1 && |payload| <= l.batchSize
    ensures var m := Message(|s.accepted|, payload);
            Sent(s, payload, l) == s.(flights := s.flights + [Flight([m], false, false)], accepted := s.accepted + [m])
  {
    var m := Message(|s.accepted|, payload);
    assert Added(s.b, m).held == [m];
    assert Accepted(s.b, m, l) == (s.b, [m]);
  }

  function Then(r: Run, e: Event): Run {
    r.(events := r.events + [e])
  }

  lemma ThenAfter(r: Run, e: Event)
    requires Possible(r) && Enabled(After(r), e)
    ensures Possible(Then(r, e)) && After(Then(r, e)) == Step(After(r), e, r.limits)
  {
    assert Before(Then(r, e)) == r;
  }

  lemma TwoFlushes(l: Limits) returns (r: Run)
    requires l == Limits(1, 10)
    ensures Possible(r) && r.limits == l
    ensures var a, b := Message(0, [1]), Message(1, [2]);
      After(r) == System(Init.b, [Flight([a], false, false), Flight([b], false, false)], [a, b], [], [])
  {
    r := Run(l, []);
    AloneFlushes(Init, [1], l);
    ThenAfter(r, Send([1]));
    r := Then(r, Send([1]));
    var a := Message(0, [1]);
    assert After(r) == System(Init.b, [Flight([a], false, false)], [a], [], []);
    AloneFlushes(After(r), [2], l);
    ThenAfter(r, Send([2]));
    r := Then(r, Send([2]));
  }

  /** With two flushes under way, a later message can be written first. */
  lemma OverlapReorders() returns (r: Run)
    ensures Possible(r) && !IdsAscend(After(r).written)
  {
    var a, b := Message(0, [1]), Message(1, [2]);
    r := TwoFlushes(Limits(1, 10));
    ThenAfter(r, Write(1, true));
    r := Then(r, Write(1, true));
    assert After(r) == System(Init.b, [Flight([a], false, false)], [a, b], [b], []);
    ThenAfter(r, Write(0, true));
    r := Then(r, Write(0, true));
    assert After(r).written == [b, a];
    assert After(r).written[0].id == 1 && After(r).written[1].id == 0;
  }

  // Nothing waits for nothing

  /** A send on an open sender flushes exactly when the message is oversize on an empty batch or fills
      it, and leaves a batch below both thresholds. */
  lemma SendFlushesWhenFull(b: Batch, m: Message, l: Limits)
    requires l.batchNum > 0 && l.batchSize > 0 && b.bytes == SumBytes(b.held)
    ensures var (c, out) := Accepted(b, m, l);
            && (out != [] <==> Oversize(b, m, l) || Full(Added(b, m), l))
            && !Full(c, l)
  {
    var (c, out) := Accepted(b, m, l);
    if Oversize(b, m, l) {
      assert c.held == [] && c.bytes == 0;
    } else if Full(Added(b, m), l) {
      assert out == b.held + [m];
    }
  }

  ghost predicate Timed(b: Batch) {
    !b.closed && b.held != [] ==> b.armed
  }

  lemma StepTimed(s: System, e: Event, l: Limits)
    requires Timed(s.b) && Enabled(s, e)
    ensures Timed(Step(s, e, l).b)
  {
  }

  /** While the sender is open, batched messages always have a timer that will flush them. */
  lemma {:induction false} WaitingIsTimed(r: Run)
    requires Possible(r)
    ensures Timed(After(r).b)
    decreases |r.events|
  {
    if r.events != [] {
      WaitingIsTimed(Before(r));
      StepTimed(After(Before(r)), r.events[|r.events| - 1], r.limits);
    }
  }
}
