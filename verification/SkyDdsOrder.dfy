/** In which order SkyDDS messages are written when flushes overlap and none fails. */
module SkyDdsOrder {
  import opened SkyDds

  /** Messages of the flushes under way, oldest flush first. */
  function Flushed(fs: seq<Flight>): seq<Message> {
    if fs == [] then [] else Flushed(fs[..|fs| - 1]) + fs[|fs| - 1].messages
  }

  lemma FlushedSnoc(fs: seq<Flight>, f: Flight)
    ensures Flushed(fs + [f]) == Flushed(fs) + f.messages
  {
    assert (fs + [f])[..|fs|] == fs;
  }

  lemma SnocSplit(fs: seq<Flight>, gs: seq<Flight>)
    requires gs != []
    ensures var n := |gs| - 1; gs == gs[..n] + [gs[n]] && fs + gs == (fs + gs[..n]) + [gs[n]]
  {
  }

  lemma Regrouped(a: seq<Message>, b: seq<Message>, c: seq<Message>)
    ensures (a + b) + c == a + (b + c)
  {
  }

  lemma {:induction false} FlushedSplit(fs: seq<Flight>, gs: seq<Flight>)
    ensures Flushed(fs + gs) == Flushed(fs) + Flushed(gs)
  {
    if gs == [] {
      assert fs + gs == fs;
    } else {
      var front, last := gs[..|gs| - 1], gs[|gs| - 1];
      SnocSplit(fs, gs);
      FlushedSplit(fs, front);
      FlushedSnoc(fs + front, last);
      Regrouped(Flushed(fs), Flushed(front), last.messages);
    }
  }

  lemma FlushedAround(older: seq<Flight>, f: Flight, newer: seq<Flight>)
    ensures Flushed(older + [f] + newer) == Flushed(older) + f.messages + Flushed(newer)
  {
    FlushedSplit(older + [f], newer);
    FlushedSnoc(older, f);
  }

  lemma CutAt(fs: seq<Flight>, i: nat) returns (older: seq<Flight>, newer: seq<Flight>)
    requires i < |fs|
    ensures older == fs[..i] && newer == fs[i + 1..] && fs == older + [fs[i]] + newer
  {
    older, newer := fs[..i], fs[i + 1..];
  }

  lemma FlushedRemove(fs: seq<Flight>, i: nat)
    requires i < |fs|
    ensures Flushed(fs) == Flushed(fs[..i]) + fs[i].messages + Flushed(fs[i + 1..])
    ensures Flushed(fs[..i] + fs[i + 1..]) == Flushed(fs[..i]) + Flushed(fs[i + 1..])
  {
    var older, newer := CutAt(fs, i);
    FlushedAround(older, fs[i], newer);
    FlushedSplit(older, newer);
  }

  /** What is on its way out: under way, then batched. */
  function Queue(s: System): seq<Message> {
    Flushed(s.flights) + s.b.held
  }

  ghost predicate Queued(s: System) {
    && IdsAscend(Queue(s)) && Below(Queue(s), |s.accepted|)
    && (forall i :: 0 <= i < |s.flights| ==> s.flights[i].messages != [] && !s.flights[i].failed)
  }

  predicate AllWritesSucceed(r: Run) {
    forall k :: 0 <= k < |r.events| && r.events[k].Write? ==> r.events[k].ok
  }

  /** Each write is of the oldest flush under way. */
  predicate OldestFirst(r: Run) {
    forall k :: 0 <= k < |r.events| && r.events[k].Write? ==> r.events[k].i == 0
  }

  lemma LaunchQueue(s: System, b: Batch, out: seq<Message>, byTimer: bool)
    ensures Queue(Launch(s, b, out, byTimer)) == Flushed(s.flights) + (out + b.held)
  {
    if out == [] {
      assert out + b.held == b.held;
    } else {
      FlushedSnoc(s.flights, Flight(out, byTimer, false));
      Regrouped(Flushed(s.flights), out, b.held);
    }
  }

  /** A step other than a write adds the message it accepts, if any, at the end of the queue. */
  lemma QueueGrows(s: System, e: Event, l: Limits)
    requires Enabled(s, e) && Queued(s) && !e.Write?
    ensures var t := Step(s, e, l);
      && t.written == s.written && |s.accepted| <= |t.accepted| <= |s.accepted| + 1
      && (|t.accepted| == |s.accepted| ==> Queue(t) == Queue(s))
      && (|t.accepted| == |s.accepted| + 1 ==>
            t.accepted[|s.accepted|].id == |s.accepted| && Queue(t) == Queue(s) + [t.accepted[|s.accepted|]])
  {
    match e
    case Send(payload) =>
      if !s.b.closed {
        var m := Message(|s.accepted|, payload);
        var (b, out) := Accepted(s.b, m, l);
        AcceptedInOrder(s, m, l);
        LaunchQueue(s, b, out, false);
        assert Flushed(s.flights) + (s.b.held + [m]) == Queue(s) + [m];
      }
    case Timer =>
      var (b, out) := TimerDrained(s.b);
      LaunchQueue(s, b, out, true);
    case Close =>
      var (b, out) := Closed(s.b);
      LaunchQueue(s, b, out, false);
    case Restore(i) =>
  }

  lemma NoneFails(s: System, e: Event, l: Limits)
    requires Enabled(s, e) && Queued(s) && (e.Write? ==> e.ok)
    ensures forall i :: 0 <= i < |Step(s, e, l).flights| ==>
      Step(s, e, l).flights[i].messages != [] && !Step(s, e, l).flights[i].failed
  {
  }

  lemma WriteSplits(s: System, i: nat) returns (older: seq<Message>, newer: seq<Message>)
    requires i < |s.flights|
    ensures Queue(s) == older + s.flights[i].messages + newer
    ensures Queue(AfterWrite(s, i, true)) == older + newer && (i == 0 ==> older == [])
  {
    FlushedRemove(s.flights, i);
    older, newer := Flushed(s.flights[..i]), Flushed(s.flights[i + 1..]) + s.b.held;
  }

  lemma WriteQueue(s: System, i: nat)
    requires Queued(s) && i < |s.flights|
    ensures var t := AfterWrite(s, i, true);
      && IdsAscend(Queue(t)) && Below(Queue(t), |s.accepted|)
      && t.written == s.written + s.flights[i].messages
      && (i == 0 ==> Queue(s) == s.flights[0].messages + Queue(t))
  {
    var older, newer := WriteSplits(s, i);
    DroppedKeepsOrder(older, s.flights[i].messages, newer, |s.accepted|);
  }

  lemma StepQueued(s: System, e: Event, l: Limits)
    requires Enabled(s, e) && Queued(s) && (e.Write? ==> e.ok)
    ensures Queued(Step(s, e, l))
  {
    NoneFails(s, e, l);
    if e.Write? {
      WriteQueue(s, e.i);
    } else {
      QueueGrows(s, e, l);
      var t := Step(s, e, l);
      if |t.accepted| == |s.accepted| + 1 {
        OneMoreAscends(Queue(s), t.accepted[|s.accepted|], |s.accepted|);
      }
    }
  }

  // Oldest first is enough

  ghost predicate InOrder(s: System) {
    IdsAscend(s.written + Queue(s)) && Below(s.written + Queue(s), |s.accepted|)
  }

  lemma StepInOrder(s: System, e: Event, l: Limits)
    requires Enabled(s, e) && Queued(s) && InOrder(s) && (e.Write? ==> e.ok && e.i == 0)
    ensures InOrder(Step(s, e, l))
  {
    var t := Step(s, e, l);
    if e.Write? {
      WriteQueue(s, 0);
      assert t.written + Queue(t) == s.written + Queue(s);
    } else {
      QueueGrows(s, e, l);
      if |t.accepted| == |s.accepted| + 1 {
        OneMoreAscends(s.written + Queue(s), t.accepted[|s.accepted|], |s.accepted|);
        assert t.written + Queue(t) == s.written + Queue(s) + [t.accepted[|s.accepted|]];
      }
    }
  }

  // and needed

  /** A written message is ahead of an older one, which is written or still under way. */
  ghost predicate Overtaken(s: System) {
    || !IdsAscend(s.written)
    || exists a, b :: a in s.written && b in Flushed(s.flights) && b.id < a.id
  }

  lemma OvertakesNow(s: System, i: nat)
    requires Queued(s) && 0 < i < |s.flights|
    ensures Overtaken(AfterWrite(s, i, true))
  {
    var fs, t := s.flights, AfterWrite(s, i, true);
    var a, b := fs[i].messages[0], fs[0].messages[0];
    FlushedRemove(fs, i);
    FlushedRemove(fs[..i], 0);
    assert Flushed(fs[..i])[0] == b;
    assert Queue(s)[0] == b && Queue(s)[|Flushed(fs[..i])|] == a;
    assert a in t.written && b in Flushed(t.flights);
  }

  lemma OlderWritten(written: seq<Message>, more: seq<Message>, a: Message, b: Message)
    requires a in written && b in more && b.id < a.id
    ensures !IdsAscend(written + more)
  {
    var all := written + more;
    var i :| 0 <= i < |written| && written[i] == a;
    var j :| 0 <= j < |more| && more[j] == b;
    assert all[i] == a && all[|written| + j] == b;
  }

  lemma PrefixAscends(written: seq<Message>, more: seq<Message>)
    requires IdsAscend(written + more)
    ensures IdsAscend(written)
  {
    assert forall i :: 0 <= i < |written| ==> (written + more)[i] == written[i];
  }

  lemma WriteStaysOvertaken(s: System, i: nat)
    requires i < |s.flights| && Overtaken(s)
    ensures Overtaken(AfterWrite(s, i, true))
  {
    var t := AfterWrite(s, i, true);
    FlushedRemove(s.flights, i);
    if IdsAscend(t.written) {
      PrefixAscends(s.written, s.flights[i].messages);
      var a, b :| a in s.written && b in Flushed(s.flights) && b.id < a.id;
      if b in s.flights[i].messages {
        OlderWritten(s.written, s.flights[i].messages, a, b);
      }
      assert a in t.written && b in Flushed(t.flights);
    }
  }

  lemma FlushedGrows(s: System, e: Event, l: Limits)
    requires Enabled(s, e) && Queued(s) && !e.Write?
    ensures Flushed(s.flights) <= Flushed(Step(s, e, l).flights) && Step(s, e, l).written == s.written
  {
    var t := Step(s, e, l);
    if t.flights != s.flights {
      FlushedSnoc(s.flights, t.flights[|s.flights|]);
    }
  }

  lemma StaysOvertaken(s: System, e: Event, l: Limits)
    requires Enabled(s, e) && Queued(s) && Overtaken(s) && (e.Write? ==> e.ok)
    ensures Overtaken(Step(s, e, l))
  {
    if e.Write? {
      WriteStaysOvertaken(s, e.i);
    } else {
      FlushedGrows(s, e, l);
    }
  }

  function LastEvent(r: Run): Event
    requires r.events != []
  {
    r.events[|r.events| - 1]
  }

  lemma SuccessBefore(r: Run)
    requires r.events != [] && AllWritesSucceed(r)
    ensures AllWritesSucceed(Before(r)) && (LastEvent(r).Write? ==> LastEvent(r).ok)
  {
  }

  lemma OldestFirstBefore(r: Run)
    requires r.events != []
    ensures OldestFirst(r) <==> OldestFirst(Before(r)) && (LastEvent(r).Write? ==> LastEvent(r).i == 0)
  {
    assert forall k :: 0 <= k < |r.events| - 1 ==> Before(r).events[k] == r.events[k];
  }

  lemma {:induction false} EveryRunQueued(r: Run)
    requires Possible(r) && AllWritesSucceed(r)
    ensures Queued(After(r))
    decreases |r.events|
  {
    if r.events != [] {
      SuccessBefore(r);
      EveryRunQueued(Before(r));
      StepQueued(After(Before(r)), LastEvent(r), r.limits);
    }
  }

  lemma {:induction false} OldestFirstInOrder(r: Run)
    requires Possible(r) && AllWritesSucceed(r) && OldestFirst(r)
    ensures InOrder(After(r))
    decreases |r.events|
  {
    if r.events != [] {
      SuccessBefore(r);
      OldestFirstBefore(r);
      EveryRunQueued(Before(r));
      OldestFirstInOrder(Before(r));
      StepInOrder(After(Before(r)), LastEvent(r), r.limits);
    }
  }

  lemma {:induction false} OtherwiseOvertaken(r: Run)
    requires Possible(r) && AllWritesSucceed(r) && !OldestFirst(r)
    ensures Overtaken(After(r))
    decreases |r.events|
  {
    SuccessBefore(r);
    OldestFirstBefore(r);
    EveryRunQueued(Before(r));
    if OldestFirst(Before(r)) {
      OvertakesNow(After(Before(r)), LastEvent(r).i);
    } else {
      OtherwiseOvertaken(Before(r));
      StaysOvertaken(After(Before(r)), LastEvent(r), r.limits);
    }
  }

  /** When no write fails and every flush has been written: messages were written in the order they
      were accepted if and only if each write was of the oldest flush then under way. */
  lemma WrittenInOrderExactly(r: Run)
    requires Possible(r) && AllWritesSucceed(r) && After(r).flights == []
    ensures IdsAscend(After(r).written) <==> OldestFirst(r)
  {
    var s := After(r);
    if OldestFirst(r) {
      OldestFirstInOrder(r);
      PrefixAscends(s.written, Queue(s));
    } else {
      OtherwiseOvertaken(r);
    }
  }
}
