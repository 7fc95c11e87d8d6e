/** In which order SkyDDS messages are written, in every run, failed flushes included. */
module SkyDdsWrites {
  import opened SkyDds
  import opened SkyDdsClose

  lemma NextState(r: Run, n: nat)
    requires Possible(r) && n < |r.events|
    ensures Enabled(At(r, n), r.events[n]) && At(r, n + 1) == Step(At(r, n), r.events[n], r.limits)
  {
    var q := Upto(r, n + 1);
    UptoPossible(r, n + 1);
    assert Before(q) == Upto(r, n);
  }

  lemma AtEnd(r: Run)
    requires Possible(r)
    ensures At(r, |r.events|) == After(r)
  {
    assert Upto(r, |r.events|) == r;
  }

  lemma StepGrows(s: System, e: Event, l: Limits)
    requires Enabled(s, e)
    ensures s.written <= Step(s, e, l).written && s.lost <= Step(s, e, l).lost && s.accepted <= Step(s, e, l).accepted
  {
  }

  lemma {:induction false} RunGrows(r: Run, n: nat)
    requires Possible(r) && n <= |r.events|
    ensures At(r, n).written <= After(r).written
    ensures At(r, n).lost <= After(r).lost && At(r, n).accepted <= After(r).accepted
    decreases |r.events| - n
  {
    if n == |r.events| {
      AtEnd(r);
    } else {
      NextState(r, n);
      StepGrows(At(r, n), r.events[n], r.limits);
      RunGrows(r, n + 1);
    }
  }

  lemma AtInv(r: Run, n: nat)
    requires Possible(r) && n <= |r.events|
    ensures Inv(At(r, n))
  {
    UptoPossible(r, n);
    EveryRunInv(Upto(r, n));
  }

  /** Messages batched or under way in another flush than number `i`. */
  function Beside(s: System, i: nat): multiset<Message>
    requires i < |s.flights|
  {
    multiset(s.b.held) + InFlight(s.flights[..i] + s.flights[i + 1..])
  }

  predicate Succeeds(r: Run, j: nat)
    requires Possible(r)
  {
    j < |r.events| && r.events[j].Write? && r.events[j].ok && r.events[j].i < |At(r, j).flights|
  }

  function FlushOf(r: Run, j: nat): seq<Message>
    requires Possible(r) && Succeeds(r, j)
  {
    At(r, j).flights[r.events[j].i].messages
  }

  predicate AllOlder(ms: seq<Message>, b: Message) {
    forall k :: 0 <= k < |ms| ==> ms[k].id < b.id
  }

  /** The flush written at `j` is in accept order itself, and overtakes no older message that was
      waiting beside it and is written later. */
  ghost predicate OvertakesNone(r: Run, j: nat)
    requires Possible(r) && Succeeds(r, j)
  {
    && IdsAscend(FlushOf(r, j))
    && (forall b :: b in Beside(At(r, j), r.events[j].i) && b in After(r).written ==> AllOlder(FlushOf(r, j), b))
  }

  ghost predicate NoneOvertakes(r: Run)
    requires Possible(r)
  {
    forall j: nat :: Succeeds(r, j) ==> OvertakesNone(r, j)
  }

  // Each message is at one place

  /** The places of a message when flush `i` is looked at alone. */
  lemma Places(s: System, i: nat, m: Message)
    requires Inv(s) && i < |s.flights|
    ensures multiset(s.accepted)[m] ==
      Beside(s, i)[m] + multiset(s.flights[i].messages)[m] + multiset(s.written)[m] + multiset(s.lost)[m]
  {
    InFlightRemove(s.flights, i);
  }

  lemma AtMostOnce(accepted: seq<Message>, m: Message)
    requires forall k :: 0 <= k < |accepted| ==> accepted[k].id == k
    ensures multiset(accepted)[m] <= 1
  {
    if m in accepted {
      OneOfEach(accepted, m);
    }
  }

  lemma Apart(s: System, i: nat, m: Message)
    requires Inv(s) && i < |s.flights|
    ensures m in Beside(s, i) ==> m !in s.flights[i].messages && m !in s.written
    ensures m in s.flights[i].messages ==> m !in s.written
    ensures m in s.accepted ==> m in Beside(s, i) || m in s.flights[i].messages || m in s.written || m in s.lost
  {
    Places(s, i, m);
    AtMostOnce(s.accepted, m);
    assert m in s.flights[i].messages <==> multiset(s.flights[i].messages)[m] > 0;
    assert m in s.written <==> multiset(s.written)[m] > 0;
    assert m in s.lost <==> multiset(s.lost)[m] > 0;
    assert m in s.accepted <==> multiset(s.accepted)[m] > 0;
  }

  lemma WrittenNotLost(s: System, m: Message)
    requires Inv(s) && m in s.written
    ensures m !in s.lost && m in s.accepted
  {
    AtMostOnce(s.accepted, m);
    assert multiset(s.written)[m] > 0;
    assert multiset(s.accepted)[m] == Whereabouts(s)[m];
    assert m in s.lost <==> multiset(s.lost)[m] > 0;
    assert m in s.accepted <==> multiset(s.accepted)[m] > 0;
  }

  lemma AcceptedById(accepted: seq<Message>, m: Message)
    requires forall k :: 0 <= k < |accepted| ==> accepted[k].id == k
    ensures m in accepted <==> m.id < |accepted| && accepted[m.id] == m
  {
  }

  /** A message written in the end that is not yet written at `n` is newer than all accepted so far,
      or it is waiting. */
  lemma WrittenLater(r: Run, n: nat, b: Message)
    requires Possible(r) && n <= |r.events| && b in After(r).written && b !in At(r, n).written
    ensures b.id < |At(r, n).accepted| ==> b in At(r, n).accepted && b !in At(r, n).lost
  {
    var s, t := At(r, n), After(r);
    RunGrows(r, n);
    AtInv(r, n);
    EveryRunInv(r);
    WrittenNotLost(t, b);
    AcceptedById(t.accepted, b);
    PrefixHolds(s.lost, t.lost, b);
  }

  lemma PrefixHolds(front: seq<Message>, all: seq<Message>, m: Message)
    requires front <= all
    ensures m in front ==> m in all
  {
  }

  // In order if no flush overtakes

  /** Whatever is still to be written is newer than what has been. */
  ghost predicate Ahead(r: Run, n: nat)
    requires Possible(r) && n <= |r.events|
  {
    && IdsAscend(At(r, n).written)
    && (forall b :: b in After(r).written && b !in At(r, n).written ==> AllOlder(At(r, n).written, b))
  }

  lemma AppendAscends(a: seq<Message>, b: seq<Message>)
    requires IdsAscend(a) && IdsAscend(b) && forall k :: 0 <= k < |b| ==> AllOlder(a, b[k])
    ensures IdsAscend(a + b)
  {
  }

  lemma NewerThanFlush(r: Run, j: nat, b: Message)
    requires Possible(r) && Succeeds(r, j) && OvertakesNone(r, j)
    requires b in After(r).written && b !in At(r, j).written && b !in FlushOf(r, j)
    ensures AllOlder(FlushOf(r, j), b)
  {
    var s, i := At(r, j), r.events[j].i;
    AtInv(r, j);
    WrittenLater(r, j, b);
    Apart(s, i, b);
    if b.id >= |s.accepted| {
      FlushAccepted(s, i);
    }
  }

  lemma FlushAccepted(s: System, i: nat)
    requires Inv(s) && i < |s.flights|
    ensures forall k :: 0 <= k < |s.flights[i].messages| ==> s.flights[i].messages[k].id < |s.accepted|
  {
    forall k | 0 <= k < |s.flights[i].messages|
      ensures s.flights[i].messages[k].id < |s.accepted|
    {
      var m := s.flights[i].messages[k];
      Places(s, i, m);
      assert multiset(s.flights[i].messages)[m] > 0;
      assert m in multiset(s.accepted);
      AcceptedById(s.accepted, m);
    }
  }

  lemma FlushGoesAhead(r: Run, j: nat)
    requires Possible(r) && Succeeds(r, j) && OvertakesNone(r, j) && Ahead(r, j)
    ensures Ahead(r, j + 1)
  {
    var s, ms := At(r, j), FlushOf(r, j);
    NextState(r, j);
    AtInv(r, j);
    RunGrows(r, j + 1);
    assert At(r, j + 1).written == s.written + ms;
    forall k | 0 <= k < |ms|
      ensures AllOlder(s.written, ms[k])
    {
      Apart(s, r.events[j].i, ms[k]);
      assert ms[k] in At(r, j + 1).written;
    }
    AppendAscends(s.written, ms);
    forall b | b in After(r).written && b !in At(r, j + 1).written
      ensures AllOlder(s.written + ms, b)
    {
      NewerThanFlush(r, j, b);
    }
  }

  lemma OtherGoesAhead(r: Run, j: nat)
    requires Possible(r) && j < |r.events| && !Succeeds(r, j) && Ahead(r, j)
    ensures Ahead(r, j + 1)
  {
    NextState(r, j);
  }

  lemma {:induction false} AllAhead(r: Run, n: nat)
    requires Possible(r) && NoneOvertakes(r) && n <= |r.events|
    ensures Ahead(r, n)
  {
    if n > 0 {
      AllAhead(r, n - 1);
      if Succeeds(r, n - 1) {
        FlushGoesAhead(r, n - 1);
      } else {
        OtherGoesAhead(r, n - 1);
      }
    }
  }

  // Overtaking shows

  lemma FlushInFinal(r: Run, j: nat)
    requires Possible(r) && Succeeds(r, j)
    ensures At(r, j).written + FlushOf(r, j) <= After(r).written
  {
    NextState(r, j);
    RunGrows(r, j + 1);
  }

  lemma PartAscends(written: seq<Message>, before: seq<Message>, ms: seq<Message>)
    requires IdsAscend(written) && before + ms <= written
    ensures IdsAscend(ms)
    ensures forall k :: 0 <= k < |ms| ==> written[|before| + k] == ms[k]
  {
    forall k | 0 <= k < |ms|
      ensures written[|before| + k] == ms[k]
    {
      assert (before + ms)[|before| + k] == ms[k];
    }
    forall k, l | 0 <= k < l < |ms|
      ensures ms[k].id < ms[l].id
    {
      assert written[|before| + k].id < written[|before| + l].id;
    }
  }

  lemma FoundLater(written: seq<Message>, front: seq<Message>, b: Message) returns (p: nat)
    requires front <= written && b in written && b !in front
    ensures |front| <= p < |written| && written[p] == b
  {
    assert forall q :: 0 <= q < |front| ==> written[q] == front[q] && written[q] in front;
    p :| p < |written| && written[p] == b;
  }

  lemma LaterInOrder(written: seq<Message>, before: seq<Message>, ms: seq<Message>, b: Message)
    requires IdsAscend(written) && before + ms <= written && b in written && b !in before && b !in ms
    ensures AllOlder(ms, b)
  {
    var p := FoundLater(written, before + ms, b);
    PartAscends(written, before, ms);
  }

  lemma OrderedOvertakesNone(r: Run, j: nat)
    requires Possible(r) && Succeeds(r, j) && IdsAscend(After(r).written)
    ensures OvertakesNone(r, j)
  {
    var s := At(r, j);
    FlushInFinal(r, j);
    AtInv(r, j);
    PartAscends(After(r).written, s.written, FlushOf(r, j));
    forall b | b in Beside(s, r.events[j].i) && b in After(r).written
      ensures AllOlder(FlushOf(r, j), b)
    {
      Apart(s, r.events[j].i, b);
      LaterInOrder(After(r).written, s.written, FlushOf(r, j), b);
    }
  }

  /** In every run, whatever fails and is restored: messages are written in the order they were
      accepted if and only if each flush that is written is in that order itself and overtakes no
      older message that was waiting beside it and is written later. */
  lemma WrittenInOrderExactly(r: Run)
    requires Possible(r)
    ensures IdsAscend(After(r).written) <==> NoneOvertakes(r)
  {
    if NoneOvertakes(r) {
      AllAhead(r, |r.events|);
      AtEnd(r);
    }
    if IdsAscend(After(r).written) {
      forall j: nat | Succeeds(r, j)
        ensures OvertakesNone(r, j)
      {
        OrderedOvertakesNone(r, j);
      }
    }
  }
}
