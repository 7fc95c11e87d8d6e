/** The two task loops of a reload: which tasks are live after them, and bound to what. */
module ReloadTasks {
  import opened Config
  import opened ReloadSteps
  import opened Stages
  import opened StageCache
  import opened StageRefs
  import opened StoreState
  import opened StoreWork
  import opened TaskRun
  import opened Text

  /** The loops change reference counts of senders and nothing else about them. */
  ghost predicate SameSenders(before: map<string, SenderState>, after: map<string, SenderState>) {
    && before.Keys == after.Keys
    && (forall sn :: sn in before ==> after[sn].inst == before[sn].inst && after[sn].cfg == before[sn].cfg)
  }

  /** They change which tasks an entry lists, not the entries. */
  ghost predicate SameEntries(before: Cache, after: Cache) {
    before.Keys == after.Keys && forall sig :: sig in before ==> after[sig].fn == before[sig].fn
  }

  ghost predicate Kept(l0: Live, l: Live) {
    && WorkOk(l.w)
    && SameSenders(l0.w.senders, l.w.senders) && SameEntries(l0.cache, l.cache)
    && l.w.gen == l0.w.gen && l.w.closing == l0.w.closing && l.w.built == l0.w.built
  }

  ghost predicate AllAddable(l: Live, code: Code) {
    forall n :: n in code.tasks ==> Addable(l, code.tasks[n], code)
  }

  ghost predicate IsNew(ts: TaskState, n: string, l0: Live, code: Code)
    requires n in code.tasks
  {
    TaskRuns(ts, n, code.tasks[n], code.pipelines, l0.w.senders) && ts.gen == l0.w.gen
  }

  lemma TakeDownKept(l0: Live, l: Live, n: string, code: Code)
    requires Kept(l0, l)
    ensures Kept(l0, TakenDown(l, n, code)) && TakenDown(l, n, code).w.tasks == l.w.tasks - {n}
  {
    RemovedOk(l.w, n);
    assert n !in l.w.tasks ==> l.w.tasks - {n} == l.w.tasks;
  }

  lemma BringUpKept(l0: Live, l: Live, n: string, code: Code) returns (ts: TaskState)
    requires Kept(l0, l) && n !in l.w.tasks && n in code.tasks && Addable(l0, code.tasks[n], code)
    ensures var (u, ok) := BroughtUp(l, n, code.tasks[n], code);
            ok && Kept(l0, u) && u.w.tasks == l.w.tasks[n := ts] && IsNew(ts, n, l0, code)
  {
    var tc := code.tasks[n];
    AddedOk(l.w, n, tc, StagesFor(tc.pipelines, code.pipelines));
    ts := TaskState(n, tc, l.w.gen, StagesFor(tc.pipelines, code.pipelines), BoundTo(l.w.senders, tc.senders));
    BoundNames(l, tc.senders);
  }

  /** A task that cannot be bound is refused and leaves the store as it was. */
  lemma RefusedExactly(l0: Live, l: Live, n: string, code: Code)
    requires Kept(l0, l) && n in code.tasks
    ensures BroughtUp(l, n, code.tasks[n], code).1 <==> Addable(l0, code.tasks[n], code)
    ensures !BroughtUp(l, n, code.tasks[n], code).1 ==> BroughtUp(l, n, code.tasks[n], code).0 == l
  {
  }

  lemma BoundNames(l: Live, names: seq<string>)
    requires WorkOk(l.w) && KnownSenders(l.w.senders, names)
    ensures forall i :: 0 <= i < |names| ==> BoundTo(l.w.senders, names)[i].name == names[i]
  {
  }

  /** Live tasks after the first loop has gone through `names`. */
  ghost predicate AfterRestarts(l0: Live, l: Live, names: seq<string>, added: seq<string>, code: Code) {
    && (forall n :: n in l.w.tasks <==>
          (n in l0.w.tasks && n !in names) || (n in names && n in added && n in code.tasks))
    && (forall n :: n in l.w.tasks && n !in names ==> l.w.tasks[n] == l0.w.tasks[n])
    && (forall n :: n in l.w.tasks && n in names ==> n in code.tasks && IsNew(l.w.tasks[n], n, l0, code))
  }

  /** The first loop fails exactly on a task that cannot be bound; either way counts and bindings
      stay exact. */
  lemma {:induction false} RestartedOk(l0: Live, names: seq<string>, added: seq<string>, code: Code)
    requires WorkOk(l0.w)
    ensures var (l, ok) := Restarted(l0, names, added, code);
            && Kept(l0, l)
            && (ok <==> forall n :: n in names && n in added && n in code.tasks ==> Addable(l0, code.tasks[n], code))
            && (ok ==> AfterRestarts(l0, l, names, added, code))
  {
    if names != [] {
      var m := |names| - 1;
      RestartedOk(l0, names[..m], added, code);
      assert forall k :: k in names <==> k in names[..m] || k == names[m];
      var (before, ok) := Restarted(l0, names[..m], added, code);
      if ok {
        RestartOne(l0, before, names, added, code);
      }
    }
  }

  lemma RestartOne(l0: Live, l: Live, names: seq<string>, added: seq<string>, code: Code)
    requires names != []
    requires Kept(l0, l) && AfterRestarts(l0, l, names[..|names| - 1], added, code)
    ensures var n := names[|names| - 1];
            var (u, ok) := if n in added && n in code.tasks
                           then BroughtUp(TakenDown(l, n, code), n, code.tasks[n], code)
                           else (TakenDown(l, n, code), true);
            && Kept(l0, u)
            && (ok <==> (n in added && n in code.tasks ==> Addable(l0, code.tasks[n], code)))
            && (ok ==> AfterRestarts(l0, u, names, added, code))
  {
    var m := |names| - 1;
    var n := names[m];
    assert forall k :: k in names <==> k in names[..m] || k == n;
    TakeDownKept(l0, l, n, code);
    if n in added && n in code.tasks {
      RefusedExactly(l0, TakenDown(l, n, code), n, code);
      if Addable(l0, code.tasks[n], code) {
        var ts := BringUpKept(l0, TakenDown(l, n, code), n, code);
      }
    }
  }

  /** Live tasks after the second loop has gone through `names`. */
  ghost predicate AfterAdds(l0: Live, l1: Live, l: Live, names: seq<string>, removed: seq<string>, code: Code) {
    && (forall n :: n in l.w.tasks <==> n in l1.w.tasks || (n in names && n !in removed && n in code.tasks))
    && (forall n :: n in l1.w.tasks ==> l.w.tasks[n] == l1.w.tasks[n])
    && (forall n :: n in l.w.tasks && n !in l1.w.tasks ==> n in code.tasks && IsNew(l.w.tasks[n], n, l0, code))
  }

  lemma {:induction false} ExtendedOk(l0: Live, l1: Live, names: seq<string>, removed: seq<string>, code: Code)
    requires Kept(l0, l1) && NoDuplicates(names)
    requires forall n :: n in names && n !in removed ==> n !in l1.w.tasks
    ensures var (l, ok) := Extended(l1, names, removed, code);
            && Kept(l0, l)
            && (ok <==> forall n :: n in names && n !in removed && n in code.tasks ==> Addable(l0, code.tasks[n], code))
            && (ok ==> AfterAdds(l0, l1, l, names, removed, code))
  {
    if names != [] {
      var m := |names| - 1;
      assert forall k :: k in names <==> k in names[..m] || k == names[m];
      ExtendedOk(l0, l1, names[..m], removed, code);
      var (before, ok) := Extended(l1, names[..m], removed, code);
      if ok {
        ExtendOne(l0, l1, before, names, removed, code);
      }
    }
  }

  lemma ExtendOne(l0: Live, l1: Live, l: Live, names: seq<string>, removed: seq<string>, code: Code)
    requires names != [] && NoDuplicates(names)
    requires forall n :: n in names && n !in removed ==> n !in l1.w.tasks
    requires Kept(l0, l) && AfterAdds(l0, l1, l, names[..|names| - 1], removed, code)
    ensures var n := names[|names| - 1];
            var (u, ok) := if n !in removed && n in code.tasks then BroughtUp(l, n, code.tasks[n], code) else (l, true);
            && Kept(l0, u)
            && (ok <==> (n !in removed && n in code.tasks ==> Addable(l0, code.tasks[n], code)))
            && (ok ==> AfterAdds(l0, l1, u, names, removed, code))
  {
    var m := |names| - 1;
    var n := names[m];
    assert forall k :: k in names <==> k in names[..m] || k == n;
    assert n !in names[..m];
    if n !in removed && n in code.tasks {
      RefusedExactly(l0, l, n, code);
      if Addable(l0, code.tasks[n], code) {
        var ts := BringUpKept(l0, l, n, code);
      }
    }
  }
}
