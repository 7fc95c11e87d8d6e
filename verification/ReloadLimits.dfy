/** What a reload does with a configuration that names something it does not configure. */
module ReloadLimits {
  import opened Config
  import opened DeltaPlan
  import opened ReloadRuns
  import opened ReloadSteps
  import opened ReloadTasks
  import opened Stages
  import opened StageCache
  import opened StageRefs
  import opened StoreState
  import opened StoreWork
  import opened TaskRun
  import opened Text

  lemma RunningTaskLoadable(s: State, c: Config, compile: Compiler, n: string)
    requires Runs(s, c, compile) && n in c.tasks
    ensures TaskLoadable(c.tasks[n], c)
  {
    var ts := s.w.tasks[n];
    assert TaskRuns(ts, n, c.tasks[n], s.pipelines, s.w.senders);
    forall i | 0 <= i < |c.tasks[n].senders|
      ensures c.tasks[n].senders[i] in c.senders
    {
      assert ts.cfg.senders[i] in s.w.senders;
    }
  }

  /** Only a configuration that names nothing missing can be running. */
  lemma RunsOnlyLoadable(s: State, c: Config, compile: Compiler)
    requires Runs(s, c, compile)
    ensures Loadable(c, compile)
  {
    forall n | n in c.tasks
      ensures TaskLoadable(c.tasks[n], c)
    {
      RunningTaskLoadable(s, c, compile, n);
    }
    TasksResolve(c, s.w.tasks);
  }

  lemma AddableIsLoadable(s: State, c: Config, names: seq<string>, compile: Compiler, l0: Live)
    requires Replaceable(s, compile) && Compilable(c, compile)
    requires NoDuplicates(names) && Elements(names) == c.tasks.Keys
    requires l0.w == Rebuilt(AllStopped(s.w), c.senders) && Extended(l0, names, [], CodeFor(c, compile)).1
    ensures forall n :: n in c.tasks ==> TaskLoadable(c.tasks[n], c)
    ensures Extended(l0, names, [], CodeFor(c, compile)).0.w.tasks.Keys == c.tasks.Keys
  {
    RebuiltOk(s.w, c.senders);
    ExtendedOk(l0, l0, names, [], CodeFor(c, compile));
    AllAdded(l0, Extended(l0, names, [], CodeFor(c, compile)).0, c, names, CodeFor(c, compile));
    forall n | n in c.tasks
      ensures TaskLoadable(c.tasks[n], c)
    {
      assert n in Elements(names);
      assert Addable(l0, c.tasks[n], CodeFor(c, compile));
    }
  }

  /** A full rebuild succeeds exactly on a configuration that names nothing missing. */
  lemma FullSucceedsExactly(s: State, c: Config, names: seq<string>, compile: Compiler)
    requires Replaceable(s, compile) && Compilable(c, compile)
    requires NoDuplicates(names) && Elements(names) == c.tasks.Keys
    ensures Full(s, c, names, compile).1 <==> Loadable(c, compile)
  {
    if Loadable(c, compile) {
      FullRuns(s, c, names, compile);
    } else if Full(s, c, names, compile).1 {
      var l0 := Live(Rebuilt(AllStopped(s.w), c.senders), Collected(Grown(s.cache, StagesIn(c.pipelines), compile)));
      AddableIsLoadable(s, c, names, compile, l0);
      TasksResolve(c, Extended(l0, names, [], CodeFor(c, compile)).0.w.tasks);
    }
  }

  /** An incremental update succeeds on every such configuration; when it succeeds, the store runs
      the configuration if and only if it is one. */
  lemma DeltaRunsExactly(s: State, c0: Config, c: Config, p: Plan, compile: Compiler)
    requires Runs(s, c0, compile) && PlanFor(p, RunningConfig(s), c)
    requires p.pipelines.Changed() ==> Compilable(c, compile)
    ensures Loadable(c, compile) ==> Delta(s, c, p, compile).1
    ensures Delta(s, c, p, compile).1 ==> (Runs(Delta(s, c, p, compile).0, c, compile) <==> Loadable(c, compile))
  {
    if Loadable(c, compile) {
      DeltaRuns(s, c0, c, p, compile);
    } else if Runs(Delta(s, c, p, compile).0, c, compile) {
      RunsOnlyLoadable(Delta(s, c, p, compile).0, c, compile);
    }
  }

  /** The same for a store that holds a configuration whose routes may be out of date. */
  lemma HeldDelta(s: State, c0: Config, c: Config, p: Plan, compile: Compiler)
    requires Held(s, c0, compile) && PlanFor(p, RunningConfig(s), c)
    requires p.pipelines.Changed() ==> Compilable(c, compile)
    ensures Loadable(c, compile) ==> Delta(s, c, p, compile).1 && Held(Delta(s, c, p, compile).0, c, compile)
    ensures Delta(s, c, p, compile).1 ==>
              (Runs(Delta(s, c, p, compile).0, c, compile) <==>
               Loadable(c, compile) && (MustRewire(p) || RoutesRun(s.receivers, c, s.w.tasks)))
  {
    if Loadable(c, compile) {
      HeldRunsExactly(s, c0, c, p, compile);
    } else if Runs(Delta(s, c, p, compile).0, c, compile) {
      RunsOnlyLoadable(Delta(s, c, p, compile).0, c, compile);
    }
  }

  // An incremental update accepts more

  ghost predicate UsesSender(tasks: map<string, TaskConfig>, sn: string) {
    exists n :: n in tasks && sn in tasks[n].senders
  }

  function WithoutSender(c: Config, sn: string): Config {
    c.(senders := c.senders - {sn})
  }

  lemma UserCounts(tasks: map<string, TaskState>, n: string, sn: string)
    requires n in tasks && sn in tasks[n].cfg.senders
    ensures AllUses(tasks)[sn] > 0
  {
    UsesRemove(tasks, n);
    assert multiset(tasks[n].cfg.senders)[sn] > 0;
  }

  /** A sender that live tasks use is not dropped, configured or not. */
  lemma UsedSenderStays(w: Work, c0: Config, pipelines: map<string, seq<Stage>>, next: map<string, SenderConfig>, n: string, sn: string)
    requires WorkRuns(w, c0, pipelines) && n in c0.tasks && sn in c0.tasks[n].senders
    ensures sn in w.senders && sn in SenderDelta(w, next).senders
  {
    assert TaskRuns(w.tasks[n], n, c0.tasks[n], pipelines, w.senders);
    UserCounts(w.tasks, n, sn);
    UsedIsKnown(w, sn);
  }

  lemma StillAddable(s: State, c0: Config, c: Config, p: Plan, compile: Compiler, l0: Live, n: string)
    requires Runs(s, c0, compile) && c.tasks == c0.tasks && c.pipelines == c0.pipelines && n in c.tasks
    requires l0.w == WithSenders(s.w, c, p)
    ensures Compilable(c, compile) && Addable(l0, c.tasks[n], CodeFor(c, compile))
  {
    assert TaskRuns(s.w.tasks[n], n, c0.tasks[n], s.pipelines, s.w.senders);
    forall i | 0 <= i < |c.tasks[n].senders|
      ensures c.tasks[n].senders[i] in l0.w.senders
    {
      UsedSenderStays(s.w, c0, s.pipelines, c.senders, n, c.tasks[n].senders[i]);
    }
  }

  lemma FinalKeys(s: State, c: Config, p: Plan, code: Code, l0: Live, l1: Live, l: Live)
    requires PlanFor(p, RunningConfig(s), c) && l0.w.tasks == s.w.tasks && code.tasks == c.tasks
    requires AfterRestarts(l0, l1, p.tasks.removed, p.tasks.added, code)
    requires AfterAdds(l0, l1, l, p.tasks.added, p.tasks.removed, code)
    ensures l.w.tasks.Keys == c.tasks.Keys
  {
    forall n
      ensures n in l.w.tasks <==> n in c.tasks
    {
      PlanSaysOfTask(p, RunningConfig(s), c, n);
    }
  }

  /** With every task of the configuration bindable the loops end with exactly those tasks live. */
  lemma LoopsSucceed(s: State, c: Config, p: Plan, s1: State)
    requires PlanFor(p, RunningConfig(s), c) && s1.w.tasks == s.w.tasks && WorkOk(s1.w)
    requires AllAddable(Live(s1.w, s1.cache), Code(s1.pipelines, s1.sigs, c.tasks))
    ensures TasksApplied(s1, c, p).1 && TasksApplied(s1, c, p).0.w.tasks.Keys == c.tasks.Keys
  {
    var l0, code := Live(s1.w, s1.cache), Code(s1.pipelines, s1.sigs, c.tasks);
    var l1, l := LoopsRun(s, c, p, s1);
    FinalKeys(s, c, p, code, l0, l1, l);
  }

  lemma DeltaSucceeds(s: State, c: Config, p: Plan, compile: Compiler, s1: State, l: Live)
    requires p.pipelines.Changed() ==> Compilable(c, compile)
    requires s1 == Prepared(s, c, p, compile) && TasksApplied(s1, c, p) == (l, true)
    requires AllResolve(s1.selectors, s1.taskSets, l.w.tasks)
    ensures Delta(s, c, p, compile).1
  {
    var s2 := WithReceivers(Swept(s1, l), c, p);
    assert s2.w.tasks == l.w.tasks && s2.selectors == s1.selectors && s2.taskSets == s1.taskSets;
    assert WithRoutes(s2, p).1;
  }

  /** Whatever senders are configured: tasks, selectors and pipelines that ran before are accepted. */
  lemma SameTasksAccepted(s: State, c0: Config, c: Config, p: Plan, compile: Compiler)
    requires Runs(s, c0, compile) && PlanFor(p, RunningConfig(s), c)
    requires c.tasks == c0.tasks && c.pipelines == c0.pipelines
    requires c.selectors == c0.selectors && c.taskSets == c0.taskSets
    ensures Compilable(c, compile) && Delta(s, c, p, compile).1
  {
    var s1 := Prepared(s, c, p, compile);
    PlanChanges(p, RunningConfig(s), c);
    PreparedFor(s, c0, c, p, compile);
    WithSendersOk(s.w, c, p);
    forall n | n in c.tasks
      ensures Addable(Live(s1.w, s1.cache), c.tasks[n], Code(s1.pipelines, s1.sigs, c.tasks))
    {
      StillAddable(s, c0, c, p, compile, Live(s1.w, s1.cache), n);
    }
    LoopsSucceed(s, c, p, s1);
    RunsOnlyLoadable(s, c0, compile);
    SelectorsStay(c0, c);
    TasksResolve(c, TasksApplied(s1, c, p).0.w.tasks);
    DeltaSucceeds(s, c, p, compile, s1, TasksApplied(s1, c, p).0);
  }

  /** Taking a sender out of the configuration while tasks still name it: the incremental update
      reports success, although a full rebuild of the same configuration is refused, and the store
      does not run what it was given.  The references of the tasks keep the sender alive, and the
      task loop looks senders up in the store, not in the configuration. */
  lemma RemovedSenderAccepted(s: State, c0: Config, sn: string, p: Plan, compile: Compiler)
    requires Runs(s, c0, compile) && UsesSender(c0.tasks, sn)
    requires PlanFor(p, RunningConfig(s), WithoutSender(c0, sn))
    ensures var c := WithoutSender(c0, sn);
            && Compilable(c, compile) && !Loadable(c, compile)
            && Delta(s, c, p, compile).1 && !Runs(Delta(s, c, p, compile).0, c, compile)
  {
    SameTasksAccepted(s, c0, WithoutSender(c0, sn), p, compile);
    NamesMissingSender(c0, sn);
    DeltaRunsExactly(s, c0, WithoutSender(c0, sn), p, compile);
  }

  lemma SelectorsStay(c0: Config, c: Config)
    requires c.selectors == c0.selectors && c.taskSets == c0.taskSets && c.tasks == c0.tasks
    requires forall sn :: sn in c0.selectors ==> SelectorLoadable(c0.selectors[sn], c0)
    ensures forall sn :: sn in c.selectors ==> SelectorLoadable(c.selectors[sn], c)
  {
  }

  lemma NamesMissingSender(c0: Config, sn: string)
    requires UsesSender(c0.tasks, sn)
    ensures exists n :: n in c0.tasks && !TaskLoadable(c0.tasks[n], WithoutSender(c0, sn))
  {
    var n :| n in c0.tasks && sn in c0.tasks[n].senders;
    var i :| 0 <= i < |c0.tasks[n].senders| && c0.tasks[n].senders[i] == sn;
    assert !TaskLoadable(c0.tasks[n], WithoutSender(c0, sn));
  }

  // An update that fails

  /** The sender and task side when the task loops have run: as far as they got, or swept. */
  ghost function LeftBy(s: State, c: Config, p: Plan): Work {
    var (l, done) := TasksApplied(s, c, p);
    if done then Swept(s, l).w else l.w
  }

  ghost function LoopsLeft(s: State, c: Config, p: Plan, compile: Compiler): Work
    requires p.pipelines.Changed() ==> Compilable(c, compile)
  {
    LeftBy(Prepared(s, c, p, compile), c, p)
  }

  lemma SweptSafe(s: State, l: Live)
    requires WorkOk(l.w)
    ensures WorkOk(Swept(s, l).w)
  {
    DroppedOk(l.w, set n | n in l.w.senders && l.w.senders[n].refs <= 0);
  }

  /** An update that fails in its task loops, or after them, still leaves reference counts exact,
      every live task bound to open senders, and no sender closed while in use. */
  lemma FailedUpdateIsSafe(s: State, c0: Config, c: Config, p: Plan, compile: Compiler)
    requires Held(s, c0, compile) && PlanFor(p, RunningConfig(s), c)
    requires p.pipelines.Changed() ==> Compilable(c, compile)
    ensures WorkOk(LoopsLeft(s, c, p, compile))
  {
    var s1 := Prepared(s, c, p, compile);
    SendersSafe(s, c0, c, p, compile);
    PreparedWork(s, c, p, compile);
    LoopsSafe(s, c, p, s1);
    SweptSafe(s1, TasksApplied(s1, c, p).0);
  }

  lemma SendersSafe(s: State, c0: Config, c: Config, p: Plan, compile: Compiler)
    requires Held(s, c0, compile) && PlanFor(p, RunningConfig(s), c)
    ensures WorkOk(WithSenders(s.w, c, p)) && WithSenders(s.w, c, p).tasks == s.w.tasks
  {
    PlanChanges(p, RunningConfig(s), c);
    WithSendersOk(s.w, c, p);
  }

  lemma PreparedWork(s: State, c: Config, p: Plan, compile: Compiler)
    requires p.pipelines.Changed() ==> Compilable(c, compile)
    ensures Prepared(s, c, p, compile).w == WithSenders(s.w, c, p)
  {
  }

  lemma LoopsSafe(s: State, c: Config, p: Plan, s1: State)
    requires PlanFor(p, RunningConfig(s), c) && s1.w.tasks == s.w.tasks && WorkOk(s1.w)
    ensures WorkOk(TasksApplied(s1, c, p).0.w)
  {
    var l0, code := Live(s1.w, s1.cache), Code(s1.pipelines, s1.sigs, c.tasks);
    RestartedOk(l0, p.tasks.removed, p.tasks.added, code);
    var (l1, ok) := Restarted(l0, p.tasks.removed, p.tasks.added, code);
    if ok {
      AscendingNoDuplicates(p.tasks.added);
      NotYetLive(s, c, p, l0, l1, code);
      ExtendedOk(l0, l1, p.tasks.added, p.tasks.removed, code);
    }
  }

  // The cache whatever happens

  lemma BroughtUpEntries(l: Live, n: string, tc: TaskConfig, code: Code)
    ensures SameEntries(l.cache, BroughtUp(l, n, tc, code).0.cache)
  {
  }

  lemma TakenDownEntries(l: Live, n: string, code: Code)
    ensures SameEntries(l.cache, TakenDown(l, n, code).cache)
  {
  }

  lemma {:induction false} RestartedEntries(l: Live, names: seq<string>, added: seq<string>, code: Code)
    ensures SameEntries(l.cache, Restarted(l, names, added, code).0.cache)
  {
    if names != [] {
      var n := names[|names| - 1];
      RestartedEntries(l, names[..|names| - 1], added, code);
      var (before, ok) := Restarted(l, names[..|names| - 1], added, code);
      if ok {
        TakenDownEntries(before, n, code);
        if n in added && n in code.tasks {
          BroughtUpEntries(TakenDown(before, n, code), n, code.tasks[n], code);
        }
      }
    }
  }

  lemma {:induction false} ExtendedEntries(l: Live, names: seq<string>, removed: seq<string>, code: Code)
    ensures SameEntries(l.cache, Extended(l, names, removed, code).0.cache)
  {
    if names != [] {
      var n := names[|names| - 1];
      ExtendedEntries(l, names[..|names| - 1], removed, code);
      var (before, ok) := Extended(l, names[..|names| - 1], removed, code);
      if ok && n !in removed && n in code.tasks {
        BroughtUpEntries(before, n, code.tasks[n], code);
      }
    }
  }

  lemma ExtendedHonest(l: Live, names: seq<string>, code: Code, compile: Compiler)
    requires Honest(l.cache, compile)
    ensures Honest(Extended(l, names, [], code).0.cache, compile)
  {
    ExtendedEntries(l, names, [], code);
  }

  /** The task loops, finished or not, leave every entry of the cache with its own stage. */
  lemma LoopsHonest(s: State, c: Config, p: Plan, compile: Compiler)
    requires Honest(s.cache, compile)
    ensures Honest(TasksApplied(s, c, p).0.cache, compile)
  {
    var l0, code := Live(s.w, s.cache), Code(s.pipelines, s.sigs, c.tasks);
    RestartedEntries(l0, p.tasks.removed, p.tasks.added, code);
    var (l1, ok) := Restarted(l0, p.tasks.removed, p.tasks.added, code);
    if ok {
      ExtendedEntries(l1, p.tasks.added, p.tasks.removed, code);
    }
  }
}
