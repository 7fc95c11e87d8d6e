/**
 * The reload after one that failed before any task was touched.
 *
 * Such a failure may already have published the selectors of the configuration it was given.  The
 * next reload compares with them, finds them unchanged, and need not make routes anew.
 */
module ReloadRetry {
  import opened Config
  import opened DeltaPlan
  import opened ReloadRuns
  import opened ReloadSteps
  import opened ReloadTasks
  import opened Stages
  import opened StageCache
  import opened StageRefs
  import opened StoreState
  import opened StoreWork
  import opened TaskRun
  import opened Text

  ghost function Made(w: Work, names: set<string>): set<Instance> {
    set n | n in names :: Instance(n, w.gen)
  }

  /** Senders built for an update whose next sender cannot be built: closed, never published. */
  ghost function Abandoned(w: Work, names: set<string>): Work {
    Close(w.(built := w.built + Made(w, names)), Made(w, names))
  }

  /** Nobody remembers the replaced senders. */
  ghost function Lost(w: Work): Work {
    NextReload(w.(closing := {}))
  }

  lemma NothingAbandoned(w: Work)
    ensures Abandoned(w, {}) == w
  {
  }

  /** What a failure before the task loops can change beside the senders. */
  ghost predicate OnlySelectors(s: State, t: State, c: Config) {
    && t == s.(w := t.w, cache := t.cache, selectors := t.selectors, taskSets := t.taskSets)
    && (|| (t.selectors == s.selectors && t.taskSets == s.taskSets)
        || (t.selectors == c.selectors && t.taskSets == c.taskSets))
  }

  /** The store `t` an update to `c` leaves that fails before the task loops; `names` are the senders
      it had built by then. */
  ghost predicate GaveUp(s: State, t: State, c: Config, names: set<string>, compile: Compiler) {
    OnlySelectors(s, t, c) && t.w == Lost(Abandoned(s.w, names)) && Honest(t.cache, compile)
  }

  lemma AbandonedLife(w: Work, names: set<string>, inst: Instance)
    requires LifeOk(w, inst) && BuiltBefore(w, w.gen)
    ensures LifeOk(Abandoned(w, names), inst)
  {
    assert multiset(Made(w, names))[inst] == if inst in Made(w, names) then 1 else 0;
    assert inst in Made(w, names) ==> inst !in w.built;
  }

  lemma AbandonedUnused(w: Work, names: set<string>)
    requires WorkOk(w) && BuiltBefore(w, w.gen)
    ensures !InUse(w, Made(w, names))
  {
    forall n, i | n in w.running && 0 <= i < |w.running[n].bound|
      ensures w.running[n].bound[i] !in Made(w, names)
    {
      assert Attached(w.tasks[n], w.senders, w.closing);
      assert LifeOk(w, w.running[n].bound[i]);
    }
  }

  lemma AbandonedOk(w: Work, names: set<string>)
    requires WorkOk(w) && w.closing == {} && BuiltBefore(w, w.gen)
    ensures WorkOk(Lost(Abandoned(w, names))) && BuiltBefore(Lost(Abandoned(w, names)), w.gen + 1)
  {
    AbandonedUnused(w, names);
    var u := Abandoned(w, names);
    forall inst
      ensures LifeOk(u, inst)
    {
      assert LifeOk(w, inst);
      AbandonedLife(w, names, inst);
    }
    LivesFrame(u, Lost(u));
  }

  /** What a failure leaks: the replaced senders not yet closed, neither known to the store nor waiting
      any longer.  Everything stays accounted for if and only if there are none. */
  lemma LeaksExactly(w: Work)
    requires WorkOk(w)
    ensures WorkOk(Lost(w)) <==> w.closing == {}
    ensures forall inst :: inst in w.closing <==>
              inst in Lost(w).built && !Current(Lost(w).senders, inst) && inst !in Lost(w).closed
  {
    forall inst
      ensures inst in w.closing <==> inst in w.built && !Current(w.senders, inst) && inst !in w.closed
    {
      assert LifeOk(w, inst);
    }
    if w.closing == {} {
      LivesFrame(w, Lost(w));
    } else {
      var inst :| inst in w.closing;
      assert !LifeOk(Lost(w), inst);
    }
  }

  /** The failed update has left tasks, senders, pipelines and receivers as they were. */
  lemma GaveUpHeld(s: State, t: State, c0: Config, c: Config, names: set<string>, compile: Compiler)
    requires Held(s, c0, compile) && GaveUp(s, t, c, names, compile)
    ensures Held(t, c0, compile)
  {
    AbandonedOk(s.w, names);
  }

  /** The next update, of any loadable configuration, succeeds; the store then runs it if and only if
      routes were made anew or had been right before. */
  lemma RetryRunsExactly(s: State, t: State, c0: Config, c1: Config, c: Config, names: set<string>, p: Plan, compile: Compiler)
    requires Held(s, c0, compile) && GaveUp(s, t, c1, names, compile)
    requires Loadable(c, compile) && PlanFor(p, RunningConfig(t), c)
    ensures Delta(t, c, p, compile).1
    ensures Runs(Delta(t, c, p, compile).0, c, compile) <==> MustRewire(p) || RoutesRun(s.receivers, c, s.w.tasks)
  {
    GaveUpHeld(s, t, c0, c1, names, compile);
    HeldRunsExactly(t, c0, c, p, compile);
  }

  /** Nothing but selectors, task sets and senders no task uses is different. */
  ghost predicate SameForTasks(c0: Config, c: Config) {
    && c.tasks == c0.tasks && c.pipelines == c0.pipelines && c.receivers == c0.receivers
    && (forall n, i :: n in c.tasks && 0 <= i < |c.tasks[n].senders| ==>
          var sn := c.tasks[n].senders[i];
          sn in c0.senders && sn in c.senders && c.senders[sn] == c0.senders[sn])
    && (forall pn :: pn in c.pipelines ==> c.pipelines[pn] != Stages([]))
  }

  lemma NoTaskRestarts(t: State, c0: Config, c: Config, compile: Compiler, n: string)
    requires Held(t, c0, compile) && SameForTasks(c0, c) && n in c.tasks
    ensures n in t.w.tasks && !MustRestart(RunningConfig(t), c, n)
  {
    var ts := t.w.tasks[n];
    assert TaskRuns(ts, n, c0.tasks[n], t.pipelines, t.w.senders);
    CloneTwice(c0.pipelines);
    forall i | 0 <= i < |ts.cfg.senders|
      ensures ts.cfg.senders[i] !in ChangedNames(Snapshot(t.w.senders), c.senders)
    {
      assert ts.cfg.senders[i] in t.w.senders;
    }
    forall i | 0 <= i < |ts.cfg.pipelines|
      ensures ts.cfg.pipelines[i] !in ChangedNames(Cloned(c.pipelines), c.pipelines)
    {
      assert ts.cfg.pipelines[i] in c.pipelines;
    }
  }

  lemma SomeIn(names: seq<string>)
    ensures names != [] ==> exists n :: n in names
  {
    if names != [] {
      assert names[0] in names;
    }
  }

  lemma NothingToDo(t: State, c0: Config, c: Config, p: Plan, compile: Compiler)
    requires Held(t, c0, compile) && SameForTasks(c0, c) && PlanFor(p, RunningConfig(t), c)
    requires t.selectors == c.selectors && t.taskSets == c.taskSets
    ensures !MustRewire(p)
  {
    PlanChanges(p, RunningConfig(t), c);
    assert RunningConfig(t).receivers == c.receivers;
    forall n
      ensures n !in p.tasks.added && n !in p.tasks.removed
    {
      PlanSaysOfTask(p, RunningConfig(t), c, n);
      if n in c.tasks {
        NoTaskRestarts(t, c0, c, compile, n);
      }
    }
    SomeIn(p.tasks.added);
    SomeIn(p.tasks.removed);
  }

  /** Both configurations route the same for every receiver. */
  ghost predicate SameRouting(c0: Config, c: Config, tasks: map<string, TaskState>)
    requires AllResolve(c0.selectors, c0.taskSets, tasks) && AllResolve(c.selectors, c.taskSets, tasks)
  {
    forall rn :: rn in c.receivers ==>
      RouteOf(AllRoutes(c.selectors, c.taskSets, tasks), c.receivers[rn].selector) ==
      RouteOf(AllRoutes(c0.selectors, c0.taskSets, tasks), c.receivers[rn].selector)
  }

  lemma RoutesDiffer(s: State, c0: Config, c: Config, compile: Compiler)
    requires Runs(s, c0, compile) && Loadable(c, compile) && SameForTasks(c0, c)
    ensures AllResolve(c0.selectors, c0.taskSets, s.w.tasks) && AllResolve(c.selectors, c.taskSets, s.w.tasks)
    ensures RoutesRun(s.receivers, c, s.w.tasks) <==> SameRouting(c0, c, s.w.tasks)
  {
    TasksResolve(c, s.w.tasks);
  }

  /** New selectors together with a sender that cannot be built yet: the update fails, having
      published the selectors.  The same configuration is then accepted, and its receivers go on
      routing as before: the store runs it only if the selectors make no difference to them. */
  lemma RetryKeepsRoutes(s: State, t: State, c0: Config, c: Config, names: set<string>, p: Plan, compile: Compiler)
    requires Runs(s, c0, compile) && GaveUp(s, t, c, names, compile)
    requires Loadable(c, compile) && SameForTasks(c0, c) && PlanFor(p, RunningConfig(t), c)
    requires t.selectors == c.selectors && t.taskSets == c.taskSets
    ensures AllResolve(c0.selectors, c0.taskSets, s.w.tasks) && AllResolve(c.selectors, c.taskSets, s.w.tasks)
    ensures Delta(t, c, p, compile).1 && Delta(t, c, p, compile).0.receivers == s.receivers
    ensures Runs(Delta(t, c, p, compile).0, c, compile) <==> SameRouting(c0, c, s.w.tasks)
  {
    GaveUpHeld(s, t, c0, c, names, compile);
    NothingToDo(t, c0, c, p, compile);
    RetryRunsExactly(s, t, c0, c, c, names, p, compile);
    RoutesDiffer(s, c0, c, compile);
    PlanChanges(p, RunningConfig(t), c);
  }
}
