/** What is left behind in the SkyDDS batch after the sender was closed. */
module SkyDdsClose {
  import opened SkyDds

  function Upto(r: Run, n: nat): Run
    requires n <= |r.events|
  {
    r.(events := r.events[..n])
  }

  lemma {:induction false} UptoPossible(r: Run, n: nat)
    requires Possible(r) && n <= |r.events|
    ensures Possible(Upto(r, n))
    decreases |r.events|
  {
    if n == |r.events| {
      assert Upto(r, n) == r;
    } else {
      UptoPossible(Before(r), n);
      assert Upto(Before(r), n) == Upto(r, n);
    }
  }

  /** The state in which event `n` of the run is taken. */
  function At(r: Run, n: nat): System
    requires Possible(r) && n <= |r.events|
  {
    UptoPossible(r, n);
    After(Upto(r, n))
  }

  predicate LastClose(r: Run, c: nat) {
    c < |r.events| && r.events[c].Close? && forall j :: c < j < |r.events| ==> !r.events[j].Close?
  }

  predicate FailsTimerFlush(s: System, e: Event) {
    e.Write? && !e.ok && e.i < |s.flights| && s.flights[e.i].byTimer
  }

  predicate TimerFlushFails(r: Run, j: nat)
    requires Possible(r) && j < |r.events|
  {
    FailsTimerFlush(At(r, j), r.events[j])
  }

  /** Some timer flush has failed and its messages are not yet back in the batch. */
  predicate WaitingToRestore(s: System) {
    exists i :: 0 <= i < |s.flights| && s.flights[i].failed
  }

  predicate TimerInFlight(s: System) {
    exists i :: 0 <= i < |s.flights| && s.flights[i].byTimer
  }

  /** A timer flush that was in flight at the close `c` had failed or fails. */
  predicate OvertakenFlushFails(r: Run, c: nat)
    requires Possible(r) && c < |r.events|
  {
    WaitingToRestore(At(r, c)) || SomeFails(r, c)
  }

  predicate SomeFails(r: Run, c: nat)
    requires Possible(r)
  {
    exists j :: c < j < |r.events| && TimerFlushFails(r, j)
  }

  predicate LeftOver(s: System) {
    s.b.held != [] || WaitingToRestore(s)
  }

  lemma ClosedStep(s: System, e: Event, l: Limits)
    requires s.b.closed && Enabled(s, e) && !e.Close? && FlightsOk(s.flights)
    ensures Step(s, e, l).b.closed
    ensures LeftOver(Step(s, e, l)) <==> LeftOver(s) || FailsTimerFlush(s, e)
    ensures TimerInFlight(Step(s, e, l)) ==> TimerInFlight(s)
  {
    match e
    case Send(_) =>
    case Timer =>
    case Write(i, ok) => WriteLeaves(s, i, ok);
    case Restore(i) => RestoreLeaves(s, i);
  }

  lemma LandFlights(s: System, i: nat)
    requires i < |s.flights|
    ensures forall f :: f in Land(s, i).flights ==> f in s.flights
    ensures !s.flights[i].failed ==> (WaitingToRestore(Land(s, i)) <==> WaitingToRestore(s))
    ensures TimerInFlight(Land(s, i)) ==> TimerInFlight(s)
  {
    var fs, gs := s.flights, Land(s, i).flights;
    forall k | 0 <= k < |fs| && k != i
      ensures fs[k] == gs[if k < i then k else k - 1]
    {
    }
    forall k | 0 <= k < |gs|
      ensures gs[k] == fs[if k < i then k else k + 1]
    {
    }
  }

  lemma WriteLeaves(s: System, i: nat, ok: bool)
    requires s.b.closed && Enabled(s, Write(i, ok))
    ensures AfterWrite(s, i, ok).b.closed
    ensures LeftOver(AfterWrite(s, i, ok)) <==> LeftOver(s) || FailsTimerFlush(s, Write(i, ok))
    ensures TimerInFlight(AfterWrite(s, i, ok)) ==> TimerInFlight(s)
  {
    LandFlights(s, i);
    if FailsTimerFlush(s, Write(i, ok)) {
      assert AfterWrite(s, i, ok).flights[i].failed;
    }
  }

  lemma RestoreLeaves(s: System, i: nat)
    requires s.b.closed && Enabled(s, Restore(i)) && FlightsOk(s.flights)
    ensures AfterRestore(s, i).b.closed && AfterRestore(s, i).b.held != [] && LeftOver(s)
    ensures TimerInFlight(AfterRestore(s, i)) ==> TimerInFlight(s)
  {
    LandFlights(s, i);
    assert s.flights[i].messages != [];
  }

  lemma CloseLeaves(s: System, l: Limits)
    ensures var t := Step(s, Close, l);
      && t.b.closed && (LeftOver(t) <==> WaitingToRestore(s)) && (TimerInFlight(t) <==> TimerInFlight(s))
  {
    var t := Step(s, Close, l);
    assert forall i :: 0 <= i < |s.flights| ==> t.flights[i] == s.flights[i];
  }

  lemma EarlierStates(r: Run, n: nat)
    requires Possible(r) && r.events != [] && n < |r.events|
    ensures At(r, n) == At(Before(r), n)
    ensures n == |r.events| - 1 ==> At(r, n) == After(Before(r))
  {
    assert Upto(Before(r), n) == Upto(r, n);
  }

  lemma EarlierFailure(r: Run, j: nat)
    requires Possible(r) && r.events != [] && j < |r.events| - 1
    ensures TimerFlushFails(r, j) <==> TimerFlushFails(Before(r), j)
  {
    EarlierStates(r, j);
  }

  lemma FailureCarries(r: Run, c: nat, j: nat)
    requires Possible(r) && c < j < |r.events| - 1 && TimerFlushFails(Before(r), j)
    ensures SomeFails(r, c)
  {
    EarlierFailure(r, j);
  }

  lemma FailureWas(r: Run, c: nat, j: nat)
    requires Possible(r) && c < j < |r.events| && TimerFlushFails(r, j)
    ensures SomeFails(Before(r), c) || FailsTimerFlush(After(Before(r)), r.events[|r.events| - 1])
  {
    EarlierStates(r, j);
    if j < |r.events| - 1 {
      EarlierFailure(r, j);
    }
  }

  lemma LastFails(r: Run, c: nat)
    requires Possible(r) && c < |r.events| - 1 && FailsTimerFlush(After(Before(r)), r.events[|r.events| - 1])
    ensures SomeFails(r, c)
  {
    EarlierStates(r, |r.events| - 1);
    assert TimerFlushFails(r, |r.events| - 1);
  }

  lemma OneMoreFailure(r: Run, c: nat)
    requires Possible(r) && c < |r.events| - 1
    ensures OvertakenFlushFails(r, c) <==>
      OvertakenFlushFails(Before(r), c) || FailsTimerFlush(After(Before(r)), r.events[|r.events| - 1])
  {
    EarlierStates(r, c);
    if SomeFails(Before(r), c) {
      var j :| c < j < |Before(r).events| && TimerFlushFails(Before(r), j);
      FailureCarries(r, c, j);
    }
    if SomeFails(r, c) {
      var j :| c < j < |r.events| && TimerFlushFails(r, j);
      FailureWas(r, c, j);
    }
    if FailsTimerFlush(After(Before(r)), r.events[|r.events| - 1]) {
      LastFails(r, c);
    }
  }

  lemma {:induction false} LeftOverExactly(r: Run, c: nat)
    requires Possible(r) && LastClose(r, c)
    ensures After(r).b.closed && (LeftOver(After(r)) <==> OvertakenFlushFails(r, c))
    decreases |r.events|
  {
    var s, e := After(Before(r)), r.events[|r.events| - 1];
    EveryRunInv(Before(r));
    if c == |r.events| - 1 {
      EarlierStates(r, c);
      CloseLeaves(s, r.limits);
    } else {
      LeftOverExactly(Before(r), c);
      ClosedStep(s, e, r.limits);
      OneMoreFailure(r, c);
    }
  }

  lemma SettledExactly(s: System)
    requires Inv(s) && s.flights == []
    ensures multiset(s.accepted) == multiset(s.written) + multiset(s.lost) <==> s.b.held == []
  {
    var settled := multiset(s.written) + multiset(s.lost);
    Assoc(multiset(s.b.held) + InFlight(s.flights), multiset(s.written), multiset(s.lost));
    assert multiset(s.accepted) == multiset(s.b.held) + settled;
    if s.b.held != [] {
      var m := s.b.held[0];
      assert multiset(s.b.held)[m] > 0;
      assert (multiset(s.b.held) + settled)[m] > settled[m];
    }
  }

  /** After the last `Close`, with every flush settled: each accepted message was written or had its
      failure returned, if and only if no timer flush in flight at that close had failed or fails. */
  lemma StrandedExactly(r: Run, c: nat)
    requires Possible(r) && LastClose(r, c) && After(r).flights == []
    ensures multiset(After(r).accepted) == multiset(After(r).written) + multiset(After(r).lost)
      <==> !OvertakenFlushFails(r, c)
  {
    EveryRunInv(r);
    SettledExactly(After(r));
    LeftOverExactly(r, c);
  }

  lemma {:induction false} NoTimerFlushStarts(r: Run, c: nat)
    requires Possible(r) && LastClose(r, c) && !TimerInFlight(At(r, c))
    ensures !TimerInFlight(After(r)) && !OvertakenFlushFails(r, c)
    decreases |r.events|
  {
    var s, e := After(Before(r)), r.events[|r.events| - 1];
    EveryRunInv(Before(r));
    EarlierStates(r, c);
    if c == |r.events| - 1 {
      CloseLeaves(s, r.limits);
      assert FlightsOk(s.flights);
    } else {
      NoTimerFlushStarts(Before(r), c);
      LeftOverExactly(Before(r), c);
      ClosedStep(s, e, r.limits);
      OneMoreFailure(r, c);
    }
  }

  /** With no timer flush in flight at the close nothing is ever left behind. */
  lemma QuietCloseStrandsNothing(r: Run, c: nat)
    requires Possible(r) && LastClose(r, c) && !TimerInFlight(At(r, c)) && After(r).flights == []
    ensures multiset(After(r).accepted) == multiset(After(r).written) + multiset(After(r).lost)
  {
    NoTimerFlushStarts(r, c);
    StrandedExactly(r, c);
  }

  // With one in flight, messages can be left behind

  /** `longer` continues `r` without another close. */
  predicate Continues(r: Run, longer: Run) {
    && longer.limits == r.limits && r.events <= longer.events
    && forall k :: |r.events| <= k < |longer.events| ==> !longer.events[k].Close?
  }

  lemma {:induction false} SettleAll(r: Run) returns (done: Run)
    requires Possible(r) && After(r).b.closed && After(r).b.held != []
    ensures Possible(done) && Continues(r, done)
    ensures After(done).flights == [] && After(done).b.held != []
    decreases |After(r).flights|
  {
    var s := After(r);
    EveryRunInv(r);
    if s.flights == [] {
      return r;
    }
    var e := if s.flights[0].failed then Restore(0) else Write(0, true);
    ThenAfter(r, e);
    done := SettleAll(Then(r, e));
  }

  lemma MarkOne(r: Run, i: nat) returns (longer: Run)
    requires Possible(r) && After(r).b.closed && i < |After(r).flights| && After(r).flights[i].byTimer
    ensures Possible(longer) && Continues(r, longer) && After(longer).b.closed
    ensures i < |After(longer).flights| && After(longer).flights[i].failed
  {
    longer := r;
    if !After(r).flights[i].failed {
      ThenAfter(r, Write(i, false));
      longer := Then(r, Write(i, false));
    }
  }

  lemma FailOne(r: Run, i: nat) returns (longer: Run)
    requires Possible(r) && After(r).b.closed && i < |After(r).flights| && After(r).flights[i].byTimer
    ensures Possible(longer) && Continues(r, longer) && After(longer).b.closed && After(longer).b.held != []
  {
    var marked := MarkOne(r, i);
    EveryRunInv(marked);
    RestoreLeaves(After(marked), i);
    ThenAfter(marked, Restore(i));
    longer := Then(marked, Restore(i));
  }

  /** The run goes on to settle every flush and leaves a message behind. */
  predicate Strands(r: Run, longer: Run) {
    && Possible(longer) && Continues(r, longer) && After(longer).flights == []
    && multiset(After(longer).accepted) != multiset(After(longer).written) + multiset(After(longer).lost)
  }

  /** Just after a close, messages can still be left behind if and only if a timer flush is in flight. */
  lemma CanStrandExactly(r: Run)
    requires Possible(r) && r.events != [] && r.events[|r.events| - 1].Close?
    ensures (exists longer :: Strands(r, longer)) <==> TimerInFlight(After(r))
  {
    var c: nat := |r.events| - 1;
    EarlierStates(r, c);
    CloseLeaves(After(Before(r)), r.limits);
    if TimerInFlight(After(r)) {
      var i: nat :| i < |After(r).flights| && After(r).flights[i].byTimer;
      var longer := FailOne(r, i);
      var done := SettleAll(longer);
      EveryRunInv(done);
      SettledExactly(After(done));
      assert Strands(r, done);
    } else if longer :| Strands(r, longer) {
      assert Upto(longer, c) == Upto(r, c);
      QuietCloseStrandsNothing(longer, c);
    }
  }

  /** The shortest such run: a message waits, its timer flush is overtaken by the close and fails. */
  lemma CloseOvertakesTimer() returns (r: Run)
    ensures Possible(r) && r.events == [Send([1]), Timer, Close, Write(0, false), Restore(0)]
    ensures After(r).b.closed && After(r).flights == [] && After(r).written == [] && After(r).lost == []
    ensures After(r).accepted == After(r).b.held == [Message(0, [1])]
  {
    var m := Message(0, [1]);
    var r1 := Then(Run(Limits(2, 10), []), Send([1]));
    assert Added(Init.b, m).held == [m];
    SumSnoc([], m);
    ThenAfter(Run(Limits(2, 10), []), Send([1]));
    assert After(r1) == System(Batch(false, [m], 1, true), [], [m], [], []);
    ThenAfter(r1, Timer);
    var r2 := Then(r1, Timer);
    assert After(r2) == System(Batch(false, [], 0, false), [Flight([m], true, false)], [m], [], []);
    ThenAfter(r2, Close);
    var r3 := Then(r2, Close);
    assert After(r3) == System(Batch(true, [], 0, false), [Flight([m], true, false)], [m], [], []);
    ThenAfter(r3, Write(0, false));
    var r4 := Then(r3, Write(0, false));
    assert After(r4) == System(Batch(true, [], 0, false), [Flight([m], true, true)], [m], [], []);
    ThenAfter(r4, Restore(0));
    r := Then(r4, Restore(0));
  }
}
