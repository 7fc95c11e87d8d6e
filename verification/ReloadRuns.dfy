/**
 * Runs of successful reloads: after each one the store shows exactly the last configuration,
 * whether it got there by a full rebuild or incrementally.
 */
module ReloadRuns {
  import opened Config
  import opened DeltaPlan
  import opened ReloadSteps
  import opened ReloadTasks
  import opened Stages
  import opened StageCache
  import opened StageRefs
  import opened StoreState
  import opened StoreWork
  import opened TaskRun
  import opened Text

  // An incremental update

  lemma SelectorsOk(s: State, c: Config, p: Plan)
    requires p.selectors.Changed() <==> s.selectors != c.selectors
    requires p.taskSets.Changed() <==> s.taskSets != c.taskSets
    ensures WithSelectors(s, c, p) == s.(selectors := c.selectors, taskSets := c.taskSets)
  {
  }

  lemma PreparedFor(s: State, c0: Config, c: Config, p: Plan, compile: Compiler)
    requires Held(s, c0, compile) && Compilable(c, compile)
    requires p.selectors.Changed() <==> s.selectors != c.selectors
    requires p.taskSets.Changed() <==> s.taskSets != c.taskSets
    requires p.pipelines.Changed() <==> Cloned(s.pipelineCfg) != c.pipelines
    ensures var s1 := Prepared(s, c, p, compile);
            && CodeRuns(s1, c, compile) && s1.w == WithSenders(s.w, c, p)
            && s1.selectors == c.selectors && s1.taskSets == c.taskSets && s1.receivers == s.receivers
  {
    SelectorsOk(s, c, p);
    var s1 := WithSelectors(s, c, p);
    var s2 := s1.(w := WithSenders(s1.w, c, p));
    assert CodeRuns(s2, c0, compile);
    WithPipelinesOk(s2, c0, c, p, compile);
  }

  lemma PreparedOk(s: State, c0: Config, c: Config, p: Plan, compile: Compiler)
    requires Held(s, c0, compile) && Loadable(c, compile) && PlanFor(p, RunningConfig(s), c)
    ensures var s1 := Prepared(s, c, p, compile);
            && CodeRuns(s1, c, compile) && s1.w == WithSenders(s.w, c, p)
            && s1.selectors == c.selectors && s1.taskSets == c.taskSets && s1.receivers == s.receivers
  {
    PlanChanges(p, RunningConfig(s), c);
    PreparedFor(s, c0, c, p, compile);
  }

  ghost function CodeFor(c: Config, compile: Compiler): Code
    requires Compilable(c, compile)
  {
    Code(CompiledAll(c.pipelines, compile), SigsOf(c.pipelines), c.tasks)
  }

  lemma LoadableAddable(l: Live, c: Config, compile: Compiler)
    requires Loadable(c, compile) && HasSenders(l.w.senders, c.senders)
    ensures AllAddable(l, CodeFor(c, compile))
  {
    forall n | n in c.tasks
      ensures Addable(l, c.tasks[n], CodeFor(c, compile))
    {
      assert TaskLoadable(c.tasks[n], c);
    }
  }

  /** A task the plan leaves alone runs what the new configuration asks for. */
  lemma UntouchedRuns(s: State, c0: Config, c: Config, compile: Compiler, senders: map<string, SenderState>, n: string)
    requires Held(s, c0, compile) && Loadable(c, compile)
    requires n in s.w.tasks && n in c.tasks && !MustRestart(RunningConfig(s), c, n)
    requires SameInstances(s.w.senders, senders, ChangedNames(Snapshot(s.w.senders), c.senders))
    ensures TaskRuns(s.w.tasks[n], n, c.tasks[n], CompiledAll(c.pipelines, compile), senders)
  {
    var ts := s.w.tasks[n];
    assert TaskRuns(ts, n, c0.tasks[n], s.pipelines, s.w.senders);
    assert TaskLoadable(c.tasks[n], c);
    CloneTwice(c0.pipelines);
    StagesStay(ts.cfg.pipelines, c0.pipelines, c.pipelines, compile);
    StaysCurrent(ts, s.w.senders, senders, ChangedNames(Snapshot(s.w.senders), c.senders));
  }

  /** The task loops of an incremental update leave exactly the tasks of the new configuration. */
  lemma DeltaTasks(s: State, c0: Config, c: Config, p: Plan, compile: Compiler, s1: State)
    requires Held(s, c0, compile) && Loadable(c, compile) && PlanFor(p, RunningConfig(s), c)
    requires s1 == Prepared(s, c, p, compile)
    ensures var (l, ok) := TasksApplied(s1, c, p);
            && ok && Kept(Live(s1.w, s1.cache), l)
            && TasksRun(l.w.tasks, c, CompiledAll(c.pipelines, compile), s1.w.senders)
            && (forall n :: n in l.w.tasks && n !in p.tasks.added ==> n in s.w.tasks && l.w.tasks[n] == s.w.tasks[n])
            && (forall n :: n in l.w.tasks && n in p.tasks.added ==> l.w.tasks[n].gen == s.w.gen)
    ensures WorkOk(s1.w) && BuiltBefore(s1.w, s.w.gen + 1) && HasSenders(s1.w.senders, c.senders)
  {
    PreparedOk(s, c0, c, p, compile);
    PlanChanges(p, RunningConfig(s), c);
    WithSendersOk(s.w, c, p);
    var l0 := Live(s1.w, s1.cache);
    LoadableAddable(l0, c, compile);
    var l1, l := LoopsRun(s, c, p, s1);
    FinalTasks(s, c0, c, p, compile, l0, l1, l);
    TasksKept(s, c0, c, p, compile, l0, l1, l);
  }

  /** With every task of the configuration bindable both loops run to their end. */
  lemma LoopsRun(s: State, c: Config, p: Plan, s1: State) returns (l1: Live, l: Live)
    requires PlanFor(p, RunningConfig(s), c) && s1.w.tasks == s.w.tasks && WorkOk(s1.w)
    requires AllAddable(Live(s1.w, s1.cache), Code(s1.pipelines, s1.sigs, c.tasks))
    ensures TasksApplied(s1, c, p) == (l, true) && Kept(Live(s1.w, s1.cache), l)
    ensures var l0, code := Live(s1.w, s1.cache), Code(s1.pipelines, s1.sigs, c.tasks);
            && AfterRestarts(l0, l1, p.tasks.removed, p.tasks.added, code)
            && AfterAdds(l0, l1, l, p.tasks.added, p.tasks.removed, code)
  {
    var l0, code := Live(s1.w, s1.cache), Code(s1.pipelines, s1.sigs, c.tasks);
    RestartedOk(l0, p.tasks.removed, p.tasks.added, code);
    l1 := Restarted(l0, p.tasks.removed, p.tasks.added, code).0;
    AscendingNoDuplicates(p.tasks.added);
    NotYetLive(s, c, p, l0, l1, code);
    ExtendedOk(l0, l1, p.tasks.added, p.tasks.removed, code);
    l := Extended(l1, p.tasks.added, p.tasks.removed, code).0;
  }

  lemma NotYetLive(s: State, c: Config, p: Plan, l0: Live, l1: Live, code: Code)
    requires PlanFor(p, RunningConfig(s), c) && l0.w.tasks == s.w.tasks
    requires AfterRestarts(l0, l1, p.tasks.removed, p.tasks.added, code)
    ensures forall n :: n in p.tasks.added && n !in p.tasks.removed ==> n !in l1.w.tasks
  {
    forall n | n in p.tasks.added && n !in p.tasks.removed
      ensures n !in l1.w.tasks
    {
      PlanSaysOfTask(p, RunningConfig(s), c, n);
    }
  }

  lemma FinalTask(s: State, c0: Config, c: Config, p: Plan, compile: Compiler, l0: Live, l1: Live, l: Live, n: string)
    requires Held(s, c0, compile) && Loadable(c, compile) && PlanFor(p, RunningConfig(s), c)
    requires l0.w.tasks == s.w.tasks && l0.w.gen == s.w.gen
    requires SameInstances(s.w.senders, l0.w.senders, ChangedNames(Snapshot(s.w.senders), c.senders))
    requires AfterRestarts(l0, l1, p.tasks.removed, p.tasks.added, CodeFor(c, compile))
    requires AfterAdds(l0, l1, l, p.tasks.added, p.tasks.removed, CodeFor(c, compile))
    ensures n in l.w.tasks <==> n in c.tasks
    ensures n in l.w.tasks ==> TaskRuns(l.w.tasks[n], n, c.tasks[n], CompiledAll(c.pipelines, compile), l0.w.senders)
    ensures n in l.w.tasks && n !in p.tasks.added ==> n in s.w.tasks && l.w.tasks[n] == s.w.tasks[n]
    ensures n in l.w.tasks && n in p.tasks.added ==> l.w.tasks[n].gen == s.w.gen
  {
    PlanSaysOfTask(p, RunningConfig(s), c, n);
    if n in s.w.tasks && n in c.tasks && n !in p.tasks.removed {
      UntouchedRuns(s, c0, c, compile, l0.w.senders, n);
    }
  }

  lemma FinalTasks(s: State, c0: Config, c: Config, p: Plan, compile: Compiler, l0: Live, l1: Live, l: Live)
    requires Held(s, c0, compile) && Loadable(c, compile) && PlanFor(p, RunningConfig(s), c)
    requires l0.w.tasks == s.w.tasks && l0.w.gen == s.w.gen
    requires SameInstances(s.w.senders, l0.w.senders, ChangedNames(Snapshot(s.w.senders), c.senders))
    requires AfterRestarts(l0, l1, p.tasks.removed, p.tasks.added, CodeFor(c, compile))
    requires AfterAdds(l0, l1, l, p.tasks.added, p.tasks.removed, CodeFor(c, compile))
    ensures TasksRun(l.w.tasks, c, CompiledAll(c.pipelines, compile), l0.w.senders)
  {
    forall n
      ensures n in l.w.tasks <==> n in c.tasks
      ensures n in l.w.tasks ==> TaskRuns(l.w.tasks[n], n, c.tasks[n], CompiledAll(c.pipelines, compile), l0.w.senders)
    {
      FinalTask(s, c0, c, p, compile, l0, l1, l, n);
    }
  }

  /** Exactly the planned tasks are new. */
  lemma TasksKept(s: State, c0: Config, c: Config, p: Plan, compile: Compiler, l0: Live, l1: Live, l: Live)
    requires Held(s, c0, compile) && Loadable(c, compile) && PlanFor(p, RunningConfig(s), c)
    requires l0.w.tasks == s.w.tasks && l0.w.gen == s.w.gen
    requires SameInstances(s.w.senders, l0.w.senders, ChangedNames(Snapshot(s.w.senders), c.senders))
    requires AfterRestarts(l0, l1, p.tasks.removed, p.tasks.added, CodeFor(c, compile))
    requires AfterAdds(l0, l1, l, p.tasks.added, p.tasks.removed, CodeFor(c, compile))
    ensures forall n :: n in l.w.tasks && n !in p.tasks.added ==> n in s.w.tasks && l.w.tasks[n] == s.w.tasks[n]
    ensures forall n :: n in l.w.tasks && n in p.tasks.added ==> l.w.tasks[n].gen == s.w.gen
  {
    forall n | n in l.w.tasks
      ensures n !in p.tasks.added ==> n in s.w.tasks && l.w.tasks[n] == s.w.tasks[n]
      ensures n in p.tasks.added ==> l.w.tasks[n].gen == s.w.gen
    {
      FinalTask(s, c0, c, p, compile, l0, l1, l, n);
    }
  }

  // Sweeping

  lemma SameTaskRuns(ts: TaskState, n: string, tc: TaskConfig, pipelines: map<string, seq<Stage>>,
                     before: map<string, SenderState>, after: map<string, SenderState>)
    requires TaskRuns(ts, n, tc, pipelines, before)
    requires forall i :: 0 <= i < |tc.senders| ==>
               tc.senders[i] in after && (tc.senders[i] in before ==> after[tc.senders[i]].inst == before[tc.senders[i]].inst)
    ensures TaskRuns(ts, n, tc, pipelines, after)
  {
  }

  /** After the loops: unused senders are dropped, and every sender left has its configuration. */
  lemma SweptOk(w: Work, c: Config, pipelines: map<string, seq<Stage>>, senders0: map<string, SenderState>, compile: Compiler)
    requires WorkOk(w) && TasksRun(w.tasks, c, pipelines, senders0)
    requires SameSenders(senders0, w.senders) && HasSenders(senders0, c.senders) && Loadable(c, compile)
    ensures var u := UnusedDropped(w);
            && WorkOk(u) && u.tasks == w.tasks && u.gen == w.gen && u.closing == w.closing && u.built == w.built
            && TasksRun(u.tasks, c, pipelines, u.senders) && SendersRun(u.senders, c)
            && (forall sn :: sn in u.senders <==> AllUses(u.tasks)[sn] > 0)
  {
    var gone := set n | n in w.senders && w.senders[n].refs <= 0;
    DroppedOk(w, gone);
    var u := UnusedDropped(w);
    forall n | n in u.tasks
      ensures TaskRuns(u.tasks[n], n, c.tasks[n], pipelines, u.senders)
    {
      assert TaskRuns(w.tasks[n], n, c.tasks[n], pipelines, senders0);
      assert Attached(u.tasks[n], u.senders, u.closing);
      SameTaskRuns(u.tasks[n], n, c.tasks[n], pipelines, senders0, u.senders);
    }
    forall sn
      ensures sn in u.senders <==> AllUses(u.tasks)[sn] > 0
      ensures sn in u.senders ==> sn in c.senders && u.senders[sn].cfg == c.senders[sn]
    {
      if AllUses(u.tasks)[sn] > 0 {
        UsedIsKnown(w, sn);
        var n := UserOf(u.tasks, sn);
        assert TaskRuns(w.tasks[n], n, c.tasks[n], pipelines, senders0);
        assert TaskLoadable(c.tasks[n], c);
      }
    }
  }

  lemma SweptHonest(before: Cache, after: Cache, sigs: Sigs, users: map<string, seq<string>>, compile: Compiler)
    requires Honest(before, compile) && SameEntries(before, after)
    ensures Honest(Collected(Recounted(after, sigs, users)), compile)
  {
  }

  // Routes

  lemma SetResolves(c: Config, tasks: map<string, TaskState>, name: string)
    requires tasks.Keys == c.tasks.Keys
    ensures Resolves(c.taskSets, tasks, name) <==> SetLoadable(name, c)
  {
  }

  /** With all configured tasks live, selectors resolve exactly when they name configured tasks. */
  lemma TasksResolve(c: Config, tasks: map<string, TaskState>)
    requires tasks.Keys == c.tasks.Keys
    ensures AllResolve(c.selectors, c.taskSets, tasks) <==>
            forall sn :: sn in c.selectors ==> SelectorLoadable(c.selectors[sn], c)
  {
    forall name
      ensures Resolves(c.taskSets, tasks, name) <==> SetLoadable(name, c)
    {
      SetResolves(c, tasks, name);
    }
    forall sn | sn in c.selectors
      ensures SelectorResolves(c.selectors[sn], c.taskSets, tasks) <==> SelectorLoadable(c.selectors[sn], c)
    {
    }
  }

  lemma RewiredOk(receivers: map<string, ReceiverState>, c: Config, tasks: map<string, TaskState>)
    requires AllResolve(c.selectors, c.taskSets, tasks) && ReceiversAre(receivers, c.receivers)
    ensures RoutesRun(Rewired(receivers, AllRoutes(c.selectors, c.taskSets, tasks)), c, tasks)
  {
  }

  lemma UnwiredOk(receivers: map<string, ReceiverState>, c0: Config, c: Config, tasks: map<string, TaskState>)
    requires RoutesRun(receivers, c0, tasks)
    requires c0.selectors == c.selectors && c0.taskSets == c.taskSets && ReceiversAre(receivers, c.receivers)
    ensures RoutesRun(receivers, c, tasks)
  {
  }

  lemma CommittedShape(receivers: map<string, ReceiverState>, next: map<string, ReceiverConfig>, gen: nat)
    ensures ReceiversAre(Committed(receivers, next, gen), next)
  {
  }

  lemma ReceiversOk(s: State, c: Config, p: Plan)
    requires p.receivers.Changed() <==> (map rn | rn in s.receivers :: s.receivers[rn].cfg) != c.receivers
    ensures var receivers := WithReceivers(s, c, p).receivers;
            ReceiversAre(receivers, c.receivers)
  {
    if p.receivers.Changed() {
      CommittedShape(s.receivers, c.receivers, s.w.gen);
    } else {
      SameReceivers(s.receivers, c.receivers);
    }
  }

  /** Routes are made anew, or left alone; then they are right if they were. */
  lemma RoutesOk(s: State, c: Config, p: Plan, compile: Compiler, s2: State)
    requires Loadable(c, compile) && PlanFor(p, RunningConfig(s), c)
    requires s2.receivers == s.receivers && s2.selectors == c.selectors && s2.taskSets == c.taskSets
    requires s2.w.tasks.Keys == c.tasks.Keys
    requires p.tasks.added == [] && p.tasks.removed == [] ==> s2.w.tasks == s.w.tasks
    ensures var (s3, ok) := WithRoutes(WithReceivers(s2, c, p), p);
            && ok && s3 == s2.(receivers := s3.receivers) && ReceiversAre(s3.receivers, c.receivers)
            && (RoutesRun(s3.receivers, c, s2.w.tasks) <==> MustRewire(p) || RoutesRun(s.receivers, c, s.w.tasks))
  {
    TasksResolve(c, s2.w.tasks);
    PlanChanges(p, RunningConfig(s), c);
    ReceiversOk(s2, c, p);
    if MustRewire(p) {
      RewiredOk(WithReceivers(s2, c, p).receivers, c, s2.w.tasks);
    }
  }

  lemma SameReceivers(receivers: map<string, ReceiverState>, next: map<string, ReceiverConfig>)
    requires (map rn | rn in receivers :: receivers[rn].cfg) == next
    ensures ReceiversAre(receivers, next)
  {
    var cfgs := map rn | rn in receivers :: receivers[rn].cfg;
    assert cfgs.Keys == receivers.Keys;
    forall rn | rn in receivers
      ensures receivers[rn].cfg == next[rn]
    {
      assert cfgs[rn] == next[rn];
    }
  }

  lemma AllCurrentFromRuns(w: Work, c: Config, pipelines: map<string, seq<Stage>>)
    requires TasksRun(w.tasks, c, pipelines, w.senders)
    ensures AllCurrent(w)
  {
    forall n | n in w.tasks
      ensures w.tasks[n].name == n && Attached(w.tasks[n], w.senders, {})
    {
      assert TaskRuns(w.tasks[n], n, c.tasks[n], pipelines, w.senders);
    }
  }

  lemma FinishedOk(w: Work, c: Config, pipelines: map<string, seq<Stage>>)
    requires WorkOk(w) && BuiltBefore(w, w.gen + 1)
    requires SendersRun(w.senders, c) && TasksRun(w.tasks, c, pipelines, w.senders)
    ensures WorkRuns(NextReload(DeferredClosed(w)), c, pipelines)
    ensures NextReload(DeferredClosed(w)).tasks == w.tasks
  {
    AllCurrentFromRuns(w, c, pipelines);
    DeferredOk(w);
    var u := NextReload(DeferredClosed(w));
    LivesFrame(DeferredClosed(w), u);
  }

  /** One incremental update of a store that holds `c0`: it succeeds, and the store then runs `c` if
      and only if routes were made anew or were right already. */
  lemma HeldRunsExactly(s: State, c0: Config, c: Config, p: Plan, compile: Compiler)
    requires Held(s, c0, compile) && Loadable(c, compile) && PlanFor(p, RunningConfig(s), c)
    ensures Delta(s, c, p, compile).1 && Held(Delta(s, c, p, compile).0, c, compile)
    ensures Runs(Delta(s, c, p, compile).0, c, compile) <==> MustRewire(p) || RoutesRun(s.receivers, c, s.w.tasks)
  {
    var s1 := Prepared(s, c, p, compile);
    PreparedOk(s, c0, c, p, compile);
    DeltaTasks(s, c0, c, p, compile, s1);
    var (l, _) := TasksApplied(s1, c, p);
    SweptOk(l.w, c, s1.pipelines, s1.w.senders, compile);
    SweptHonest(s1.cache, l.cache, s1.sigs, Users(l.w.tasks), compile);
    var s2 := Swept(s1, l);
    UntouchedTasks(s, p, l);
    SameTaskNames(s, c, p);
    RoutesOk(s, c, p, compile, s2);
    var (s3, _) := WithRoutes(WithReceivers(s2, c, p), p);
    FinishedOk(s3.w, c, s3.pipelines);
  }

  /** One incremental update of a store that runs `c0`: it succeeds and the store runs `c`. */
  lemma DeltaRuns(s: State, c0: Config, c: Config, p: Plan, compile: Compiler)
    requires Runs(s, c0, compile) && Loadable(c, compile) && PlanFor(p, RunningConfig(s), c)
    ensures Delta(s, c, p, compile).1 && Runs(Delta(s, c, p, compile).0, c, compile)
  {
    HeldRunsExactly(s, c0, c, p, compile);
    if !MustRewire(p) {
      PlanChanges(p, RunningConfig(s), c);
      SameReceivers(s.receivers, c.receivers);
      UnwiredOk(s.receivers, c0, c, s.w.tasks);
    }
  }

  lemma SameTaskNames(s: State, c: Config, p: Plan)
    requires PlanFor(p, RunningConfig(s), c)
    ensures p.tasks.added == [] && p.tasks.removed == [] ==> s.w.tasks.Keys == c.tasks.Keys
  {
    if p.tasks.added == [] && p.tasks.removed == [] {
      forall n
        ensures n in s.w.tasks <==> n in c.tasks
      {
        PlanSaysOfTask(p, RunningConfig(s), c, n);
      }
    }
  }

  lemma UntouchedTasks(s: State, p: Plan, l: Live)
    requires forall n :: n in l.w.tasks && n !in p.tasks.added ==> n in s.w.tasks && l.w.tasks[n] == s.w.tasks[n]
    ensures p.tasks.added == [] && l.w.tasks.Keys == s.w.tasks.Keys ==> l.w.tasks == s.w.tasks
  {
  }

  // A full rebuild

  /** What a full rebuild needs of the store it replaces. */
  ghost predicate Replaceable(s: State, compile: Compiler) {
    WorkOk(s.w) && s.w.closing == {} && BuiltBefore(s.w, s.w.gen) && Honest(s.cache, compile)
  }

  lemma RebuiltTasks(s: State, c: Config, names: seq<string>, compile: Compiler, l0: Live)
    requires Replaceable(s, compile) && Loadable(c, compile)
    requires NoDuplicates(names) && Elements(names) == c.tasks.Keys
    requires l0.w == Rebuilt(AllStopped(s.w), c.senders)
    ensures WorkOk(l0.w) && BuiltBefore(l0.w, s.w.gen + 1) && HasSenders(l0.w.senders, c.senders)
    ensures var (l, ok) := Extended(l0, names, [], CodeFor(c, compile));
            && ok && Kept(l0, l)
            && TasksRun(l.w.tasks, c, CompiledAll(c.pipelines, compile), l0.w.senders)
  {
    RebuiltOk(s.w, c.senders);
    LoadableAddable(l0, c, compile);
    ExtendedOk(l0, l0, names, [], CodeFor(c, compile));
    var (l, _) := Extended(l0, names, [], CodeFor(c, compile));
    AllAdded(l0, l, c, names, CodeFor(c, compile));
  }

  lemma AllAdded(l0: Live, l: Live, c: Config, names: seq<string>, code: Code)
    requires code.tasks == c.tasks && l0.w.tasks == map[] && Elements(names) == c.tasks.Keys
    requires AfterAdds(l0, l0, l, names, [], code)
    ensures TasksRun(l.w.tasks, c, code.pipelines, l0.w.senders)
  {
    assert forall n :: n in c.tasks <==> n in Elements(names);
  }

  lemma KeptRuns(l0: Live, l: Live, c: Config, pipelines: map<string, seq<Stage>>)
    requires Kept(l0, l) && TasksRun(l.w.tasks, c, pipelines, l0.w.senders)
    ensures TasksRun(l.w.tasks, c, pipelines, l.w.senders)
  {
    forall n | n in l.w.tasks
      ensures TaskRuns(l.w.tasks[n], n, c.tasks[n], pipelines, l.w.senders)
    {
      assert TaskRuns(l.w.tasks[n], n, c.tasks[n], pipelines, l0.w.senders);
      SameTaskRuns(l.w.tasks[n], n, c.tasks[n], pipelines, l0.w.senders, l.w.senders);
    }
  }

  /** A full rebuild, in whatever order it starts the tasks: it succeeds and the store runs `c`. */
  lemma FullRuns(s: State, c: Config, names: seq<string>, compile: Compiler)
    requires Replaceable(s, compile) && Loadable(c, compile)
    requires NoDuplicates(names) && Elements(names) == c.tasks.Keys
    ensures Full(s, c, names, compile).1 && Runs(Full(s, c, names, compile).0, c, compile)
  {
    GrownHonest(s.cache, StagesIn(c.pipelines), compile);
    var cache := Collected(Grown(s.cache, StagesIn(c.pipelines), compile));
    var l0 := Live(Rebuilt(AllStopped(s.w), c.senders), cache);
    RebuiltTasks(s, c, names, compile, l0);
    var (l, _) := Extended(l0, names, [], CodeFor(c, compile));
    KeptRuns(l0, l, c, CompiledAll(c.pipelines, compile));
    TasksResolve(c, l.w.tasks);
    CommittedShape(map[], c.receivers, s.w.gen);
    RewiredOk(Committed(map[], c.receivers, s.w.gen), c, l.w.tasks);
    FullWork(l0, l, c, CompiledAll(c.pipelines, compile));
  }

  lemma FullWork(l0: Live, l: Live, c: Config, pipelines: map<string, seq<Stage>>)
    requires Kept(l0, l) && l0.w.closing == {} && BuiltBefore(l0.w, l0.w.gen + 1)
    requires SendersRun(l0.w.senders, c) && TasksRun(l.w.tasks, c, pipelines, l.w.senders)
    ensures WorkRuns(NextReload(l.w), c, pipelines)
  {
    LivesFrame(l.w, NextReload(l.w));
  }
}
