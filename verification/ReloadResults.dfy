/** What a reader of the store can rely on after any run of successful reloads. */
module ReloadResults {
  import opened Config
  import opened DeltaPlan
  import opened Options
  import opened ReloadRuns
  import opened ReloadSteps
  import opened ReloadTasks
  import opened Stages
  import opened StageCache
  import opened StageRefs
  import opened StoreState
  import opened StoreWork
  import opened TaskRun
  import opened Text
  import V = Validation

  // Runs

  ghost function ChangesBetween<V>(before: map<string, V>, after: map<string, V>): (d: Names)
    ensures ListsChanges(d, before, after)
  {
    Names(Sorted(AddedNames(before, after)), Sorted(RemovedNames(before, after)))
  }

  /** The plan of a reload: sorted listings of what to build and what to take down. */
  ghost function PlanOf(now: Running, c: Config): (p: Plan)
    ensures PlanFor(p, now, c)
  {
    Plan(ChangesBetween(now.receivers, c.receivers), ChangesBetween(now.selectors, c.selectors), ChangesBetween(now.taskSets, c.taskSets),
         ChangesBetween(now.senders, c.senders), ChangesBetween(now.pipelines, c.pipelines),
         Names(Sorted(TasksToAdd(now, c)), Sorted(TasksToRemove(now, c))))
  }

  /** A configuration to load, and the order in which a full rebuild would start its tasks. */
  datatype Load = Load(config: Config, order: seq<string>)

  ghost predicate LoadOk(l: Load, compile: Compiler) {
    Loadable(l.config, compile) && NoDuplicates(l.order) && Elements(l.order) == l.config.tasks.Keys
  }

  predicate NothingRuns(s: State) {
    s.receivers == map[] && s.w.senders == map[] && s.w.tasks == map[]
  }

  /** `UpdateCache`: a full rebuild when nothing runs yet, else an incremental update. */
  ghost function Updated(s: State, l: Load, compile: Compiler): State
    requires LoadOk(l, compile)
  {
    if NothingRuns(s) then Full(s, l.config, l.order, compile).0
    else Delta(s, l.config, PlanOf(RunningConfig(s), l.config), compile).0
  }

  ghost predicate AllOk(loads: seq<Load>, compile: Compiler) {
    forall i :: 0 <= i < |loads| ==> LoadOk(loads[i], compile)
  }

  ghost function After(loads: seq<Load>, compile: Compiler): State
    requires AllOk(loads, compile)
  {
    if loads == [] then EMPTY else Updated(After(loads[..|loads| - 1], compile), loads[|loads| - 1], compile)
  }

  lemma RunsReplaceable(s: State, c: Config, compile: Compiler)
    requires Runs(s, c, compile)
    ensures Replaceable(s, compile)
  {
  }

  lemma EmptyReplaceable(compile: Compiler)
    ensures Replaceable(EMPTY, compile)
  {
    forall inst
      ensures LifeOk(EMPTY.w, inst)
    {
    }
  }

  /** After every reload the store runs the configuration loaded last. */
  lemma {:induction false} EveryRun(loads: seq<Load>, compile: Compiler)
    requires AllOk(loads, compile)
    ensures Replaceable(After(loads, compile), compile)
    ensures loads != [] ==> Runs(After(loads, compile), loads[|loads| - 1].config, compile)
  {
    if loads == [] {
      EmptyReplaceable(compile);
    } else {
      var m := |loads| - 1;
      EveryRun(loads[..m], compile);
      var s, l := After(loads[..m], compile), loads[m];
      if NothingRuns(s) {
        FullRuns(s, l.config, l.order, compile);
      } else {
        assert m > 0;
        DeltaRuns(s, loads[m - 1].config, l.config, PlanOf(RunningConfig(s), l.config), compile);
      }
      RunsReplaceable(After(loads, compile), l.config, compile);
    }
  }

  // What the store shows

  function NamesOf(tasks: seq<TaskState>): seq<string> {
    seq(|tasks|, i requires 0 <= i < |tasks| => tasks[i].name)
  }

  /** Names of the tasks a configuration routes a key to. */
  function RouteNames(c: Config, selector: string, key: string): seq<string> {
    if selector !in c.selectors then []
    else
      var sc := c.selectors[selector];
      if key in sc.matches then Expand(c.taskSets, sc.matches[key])
      else if sc.defaultTaskSet != "" then Expand(c.taskSets, sc.defaultTaskSet)
      else []
  }

  lemma ResolvedNames(c: Config, tasks: map<string, TaskState>, name: string)
    requires Resolves(c.taskSets, tasks, name) && forall n :: n in tasks ==> tasks[n].name == n
    ensures NamesOf(Resolved(c.taskSets, tasks, name)) == Expand(c.taskSets, name)
  {
  }

  lemma RunningNames(s: State, c: Config, compile: Compiler)
    requires Runs(s, c, compile)
    ensures s.w.tasks.Keys == c.tasks.Keys
    ensures forall n :: n in s.w.tasks ==> s.w.tasks[n].name == n
  {
    forall n | n in s.w.tasks
      ensures s.w.tasks[n].name == n
    {
      assert TaskRuns(s.w.tasks[n], n, c.tasks[n], s.pipelines, s.w.senders);
    }
  }

  /** Each receiver routes each key to exactly the tasks its selector names for it, and those are
      live tasks of the store. */
  lemma RoutesShown(s: State, c: Config, compile: Compiler, rn: string, key: string)
    requires Runs(s, c, compile) && rn in c.receivers
    ensures rn in s.receivers && s.receivers[rn].cfg == c.receivers[rn]
    ensures NamesOf(Matched(s.receivers[rn].routes, key)) == RouteNames(c, c.receivers[rn].selector, key)
    ensures forall i :: 0 <= i < |Matched(s.receivers[rn].routes, key)| ==>
              Matched(s.receivers[rn].routes, key)[i].name in s.w.tasks
              && s.w.tasks[Matched(s.receivers[rn].routes, key)[i].name] == Matched(s.receivers[rn].routes, key)[i]
  {
    RunningNames(s, c, compile);
    var selector := c.receivers[rn].selector;
    if selector in c.selectors {
      var sc := c.selectors[selector];
      assert SelectorResolves(sc, c.taskSets, s.w.tasks);
      if key in sc.matches {
        ResolvedNames(c, s.w.tasks, sc.matches[key]);
      } else if sc.defaultTaskSet != "" {
        ResolvedNames(c, s.w.tasks, sc.defaultTaskSet);
      }
    }
  }

  /** The tasks and senders a configuration asks for. */
  lemma TasksShown(s: State, c: Config, compile: Compiler, n: string)
    requires Runs(s, c, compile)
    ensures n in s.w.tasks <==> n in c.tasks
    ensures n in c.tasks ==>
              && s.w.tasks[n].cfg == c.tasks[n]
              && KnownPipelines(c.tasks[n].pipelines, CompiledAll(c.pipelines, compile))
              && s.w.tasks[n].stages == StagesFor(c.tasks[n].pipelines, CompiledAll(c.pipelines, compile))
  {
    if n in s.w.tasks {
      assert TaskRuns(s.w.tasks[n], n, c.tasks[n], s.pipelines, s.w.senders);
    }
  }

  ghost predicate Used(s: State, sn: string) {
    AllUses(s.w.tasks)[sn] > 0
  }

  lemma SendersShown(s: State, c: Config, compile: Compiler, sn: string)
    requires Runs(s, c, compile) && Used(s, sn)
    ensures sn in s.w.senders && sn in c.senders && s.w.senders[sn].cfg == c.senders[sn]
  {
    UsedIsKnown(s.w, sn);
  }

  /** Two stores are the same to everybody outside. */
  ghost predicate LookAlike(s: State, t: State) {
    && s.receivers.Keys == t.receivers.Keys
    && (forall rn :: rn in s.receivers ==> s.receivers[rn].cfg == t.receivers[rn].cfg)
    && (forall rn, key :: rn in s.receivers ==>
          NamesOf(Matched(s.receivers[rn].routes, key)) == NamesOf(Matched(t.receivers[rn].routes, key)))
    && s.w.tasks.Keys == t.w.tasks.Keys
    && (forall n :: n in s.w.tasks ==>
          s.w.tasks[n].cfg == t.w.tasks[n].cfg && s.w.tasks[n].stages == t.w.tasks[n].stages)
    && s.pipelines == t.pipelines
    && (forall sn :: Used(s, sn) <==> Used(t, sn))
    && (forall sn :: Used(s, sn) ==>
          sn in s.w.senders && sn in t.w.senders && s.w.senders[sn].cfg == t.w.senders[sn].cfg)
  }

  lemma SameUses(s: State, t: State, c: Config, compile: Compiler, sn: string)
    requires Runs(s, c, compile) && Runs(t, c, compile) && Used(s, sn)
    ensures Used(t, sn)
  {
    var n := UserOf(s.w.tasks, sn);
    TasksShown(s, c, compile, n);
    TasksShown(t, c, compile, n);
    var i :| 0 <= i < |t.w.tasks[n].cfg.senders| && t.w.tasks[n].cfg.senders[i] == sn;
    UsesOf(t.w.tasks, n, i);
  }

  lemma RunningSameLooksAlike(s: State, t: State, c: Config, compile: Compiler)
    requires Runs(s, c, compile) && Runs(t, c, compile)
    ensures LookAlike(s, t)
  {
    forall rn, key | rn in s.receivers
      ensures NamesOf(Matched(s.receivers[rn].routes, key)) == NamesOf(Matched(t.receivers[rn].routes, key))
    {
      RoutesShown(s, c, compile, rn, key);
      RoutesShown(t, c, compile, rn, key);
    }
    forall n | n in s.w.tasks
      ensures s.w.tasks[n].cfg == t.w.tasks[n].cfg && s.w.tasks[n].stages == t.w.tasks[n].stages
    {
      TasksShown(s, c, compile, n);
      TasksShown(t, c, compile, n);
    }
    forall sn
      ensures Used(s, sn) <==> Used(t, sn)
      ensures Used(s, sn) ==> sn in s.w.senders && sn in t.w.senders && s.w.senders[sn].cfg == t.w.senders[sn].cfg
    {
      if Used(s, sn) {
        SameUses(s, t, c, compile, sn);
        SendersShown(s, c, compile, sn);
        SendersShown(t, c, compile, sn);
      }
      if Used(t, sn) {
        SameUses(t, s, c, compile, sn);
      }
    }
  }

  /** After any run of reloads, one more incremental update and a full rebuild of any other store
      with the same configuration give stores that look alike. */
  lemma IncrementalEqualsFull(loads: seq<Load>, next: Load, compile: Compiler, t: State)
    requires loads != [] && AllOk(loads, compile) && LoadOk(next, compile) && Replaceable(t, compile)
    ensures var s := After(loads, compile);
            LookAlike(Delta(s, next.config, PlanOf(RunningConfig(s), next.config), compile).0,
                      Full(t, next.config, next.order, compile).0)
  {
    EveryRun(loads, compile);
    var s := After(loads, compile);
    var p := PlanOf(RunningConfig(s), next.config);
    DeltaRuns(s, loads[|loads| - 1].config, next.config, p, compile);
    FullRuns(t, next.config, next.order, compile);
    RunningSameLooksAlike(Delta(s, next.config, p, compile).0, Full(t, next.config, next.order, compile).0,
                          next.config, compile);
  }

  // Sender lifetime

  /** After any run: counts are exact, nothing running is bound to a closed sender nor ever was, and
      each instance built is either current or was closed exactly once. */
  lemma SenderLifetime(loads: seq<Load>, compile: Compiler, sn: string, inst: Instance)
    requires AllOk(loads, compile)
    ensures var w := After(loads, compile).w;
            && !w.fault
            && (sn in w.senders ==> w.senders[sn].refs == AllUses(w.tasks)[sn])
            && (inst in w.built ==>
                  if Current(w.senders, inst) then w.closed[inst] == 0 else w.closed[inst] == 1)
            && (inst in w.closed ==> inst in w.built)
  {
    EveryRun(loads, compile);
    assert LifeOk(After(loads, compile).w, inst);
  }

  /** `StopAll` then leaves no task running and every instance ever built closed exactly once, no
      task having been bound to it when it closed. */
  lemma StopAllClosesTheRest(loads: seq<Load>, compile: Compiler, inst: Instance)
    requires AllOk(loads, compile)
    ensures var w := AllStopped(After(loads, compile).w);
            w.running == map[] && !w.fault && (inst in w.built ==> w.closed[inst] == 1)
  {
    EveryRun(loads, compile);
    var w := After(loads, compile).w;
    var u := AllStopped(w);
    assert u.running == map[];
    assert !InUse(w.(running := w.running - w.tasks.Keys), Insts(w, w.senders.Keys));
    assert LifeOk(w, inst);
    var all := Insts(w, w.senders.Keys);
    assert inst in all <==> Current(w.senders, inst);
    assert multiset(all)[inst] == if inst in all then 1 else 0;
  }

  // What a reload restarts

  lemma RoutesKeep(s: State, p: Plan)
    ensures WithRoutes(s, p).0.w == s.w && WithRoutes(s, p).0.cache == s.cache
  {
    if MustRewire(p) && AllResolve(s.selectors, s.taskSets, s.w.tasks) {
    } else {
      assert WithRoutes(s, p).0 == s;
    }
  }

  lemma TailKeeps(s: State, c: Config, p: Plan)
    ensures var t := WithRoutes(WithReceivers(s, c, p), p).0;
            t.w == s.w && t.cache == s.cache
  {
    var u := WithReceivers(s, c, p);
    assert u.w == s.w && u.cache == s.cache;
    RoutesKeep(u, p);
  }

  lemma SweepKeeps(s: State, l: Live)
    ensures Swept(s, l).w.tasks == l.w.tasks
    ensures Swept(s, l).cache == Collected(Recounted(l.cache, s.sigs, Users(l.w.tasks)))
  {
  }

  lemma FinishKeeps(s: State)
    ensures Finished(s).w.tasks == s.w.tasks && Finished(s).cache == s.cache
  {
  }

  /** After the task loops no step touches the tasks, and only the sweep touches the cache. */
  lemma DeltaParts(s: State, c: Config, p: Plan, compile: Compiler, s1: State, l: Live)
    requires p.pipelines.Changed() ==> Compilable(c, compile)
    requires s1 == Prepared(s, c, p, compile) && l == TasksApplied(s1, c, p).0
    requires Delta(s, c, p, compile).1
    ensures Delta(s, c, p, compile).0.w.tasks == l.w.tasks
    ensures Delta(s, c, p, compile).0.cache == Collected(Recounted(l.cache, s1.sigs, Users(l.w.tasks)))
  {
    var s2 := Swept(s1, l);
    SweepKeeps(s1, l);
    TailKeeps(s2, c, p);
    FinishKeeps(WithRoutes(WithReceivers(s2, c, p), p).0);
  }

  /** An incremental update restarts exactly the tasks its plan adds; all others are the very same. */
  lemma RestartsExactly(s: State, c0: Config, c: Config, p: Plan, compile: Compiler, n: string)
    requires Runs(s, c0, compile) && Loadable(c, compile) && PlanFor(p, RunningConfig(s), c) && n in c.tasks
    ensures var t := Delta(s, c, p, compile).0;
            && n in t.w.tasks
            && (if n in s.w.tasks && !MustRestart(RunningConfig(s), c, n) then t.w.tasks[n] == s.w.tasks[n]
                else t.w.tasks[n].gen == s.w.gen)
  {
    DeltaRuns(s, c0, c, p, compile);
    TasksShown(Delta(s, c, p, compile).0, c, compile, n);
    var s1 := Prepared(s, c, p, compile);
    DeltaParts(s, c, p, compile, s1, TasksApplied(s1, c, p).0);
    LoopsRestart(s, c0, c, p, compile, n);
    PlanSaysOfTask(p, RunningConfig(s), c, n);
  }

  lemma LoopsRestart(s: State, c0: Config, c: Config, p: Plan, compile: Compiler, n: string)
    requires Runs(s, c0, compile) && Loadable(c, compile) && PlanFor(p, RunningConfig(s), c)
    ensures var tasks := TasksApplied(Prepared(s, c, p, compile), c, p).0.w.tasks;
            n in tasks ==>
              if n in p.tasks.added then tasks[n].gen == s.w.gen else n in s.w.tasks && tasks[n] == s.w.tasks[n]
  {
    DeltaTasks(s, c0, c, p, compile, Prepared(s, c, p, compile));
  }

  /** Loading the same configuration again restarts a task exactly when it uses a pipeline whose
      stage list is present but empty. */
  lemma ReloadOfTheSame(s: State, c: Config, compile: Compiler, n: string)
    requires Runs(s, c, compile) && Loadable(c, compile) && n in c.tasks
    ensures n in s.w.tasks
    ensures MustRestart(RunningConfig(s), c, n) <==>
              exists i :: 0 <= i < |c.tasks[n].pipelines| && c.pipelines[c.tasks[n].pipelines[i]] == Stages([])
  {
    TasksShown(s, c, compile, n);
    var ts := s.w.tasks[n];
    assert TaskRuns(ts, n, c.tasks[n], s.pipelines, s.w.senders);
    assert TaskLoadable(c.tasks[n], c);
    CloneTwice(c.pipelines);
    forall i | 0 <= i < |ts.cfg.senders|
      ensures ts.cfg.senders[i] !in ChangedNames(Snapshot(s.w.senders), c.senders)
    {
      assert ts.cfg.senders[i] in s.w.senders;
    }
    forall i | 0 <= i < |ts.cfg.pipelines|
      ensures ts.cfg.pipelines[i] in ChangedNames(Cloned(c.pipelines), c.pipelines) <==>
              c.pipelines[ts.cfg.pipelines[i]] == Stages([])
    {
      assert ts.cfg.pipelines[i] in c.pipelines;
    }
  }

  // The stage cache

  lemma EmptyCacheStays(code: Code, l: Live, names: seq<string>, added: seq<string>)
    requires l.cache == map[]
    ensures Restarted(l, names, added, code).0.cache == map[]
    ensures Extended(l, names, added, code).0.cache == map[]
  {
    if names != [] {
      EmptyCacheStays(code, l, names[..|names| - 1], added);
    }
  }

  lemma NothingCollected(sigs: set<StageConfig>, compile: Compiler)
    requires forall sig :: sig in sigs ==> compile(sig).Some?
    ensures Collected(Grown(map[], sigs, compile)) == map[]
  {
  }

  /** Between successful reloads the cache is empty: entries are collected before any task has had
      the chance to retain them.  It only ever helps within one compilation. */
  lemma {:induction false} CacheEmptyAtRest(loads: seq<Load>, compile: Compiler)
    requires AllOk(loads, compile)
    ensures After(loads, compile).cache == map[]
  {
    if loads != [] {
      var m := |loads| - 1;
      CacheEmptyAtRest(loads[..m], compile);
      EveryRun(loads[..m], compile);
      var s, l := After(loads[..m], compile), loads[m];
      NothingCollected(StagesIn(l.config.pipelines), compile);
      if NothingRuns(s) {
        FullCache(s, l, compile);
      } else {
        assert m > 0;
        DeltaCache(s, loads[m - 1].config, l, compile);
      }
    }
  }

  lemma FullCache(s: State, l: Load, compile: Compiler)
    requires s.cache == map[] && LoadOk(l, compile) && Replaceable(s, compile)
    ensures Full(s, l.config, l.order, compile).0.cache == map[]
  {
    FullRuns(s, l.config, l.order, compile);
    NothingCollected(StagesIn(l.config.pipelines), compile);
    EmptyCacheStays(CodeFor(l.config, compile), Live(Rebuilt(AllStopped(s.w), l.config.senders), map[]), l.order, []);
  }

  lemma DeltaCache(s: State, c0: Config, l: Load, compile: Compiler)
    requires s.cache == map[] && LoadOk(l, compile) && Runs(s, c0, compile)
    ensures Delta(s, l.config, PlanOf(RunningConfig(s), l.config), compile).0.cache == map[]
  {
    var p := PlanOf(RunningConfig(s), l.config);
    DeltaRuns(s, c0, l.config, p, compile);
    var s1 := Prepared(s, l.config, p, compile);
    DeltaParts(s, l.config, p, compile, s1, TasksApplied(s1, l.config, p).0);
    PreparedCache(s, l.config, p, compile);
    LoopsCache(Prepared(s, l.config, p, compile), l.config, p);
  }

  lemma PreparedCache(s: State, c: Config, p: Plan, compile: Compiler)
    requires s.cache == map[] && Compilable(c, compile)
    ensures Prepared(s, c, p, compile).cache == map[]
  {
    NothingCollected(StagesIn(c.pipelines), compile);
  }

  lemma LoopsCache(s: State, c: Config, p: Plan)
    requires s.cache == map[]
    ensures TasksApplied(s, c, p).0.cache == map[]
  {
    var code := Code(s.pipelines, s.sigs, c.tasks);
    EmptyCacheStays(code, Live(s.w, s.cache), p.tasks.removed, p.tasks.added);
    EmptyCacheStays(code, Restarted(Live(s.w, s.cache), p.tasks.removed, p.tasks.added, code).0,
                    p.tasks.added, p.tasks.removed);
  }

  ghost predicate EntryIsExact(t: State, c: Config, compile: Compiler, sig: StageConfig) {
    sig in t.cache ==>
      && compile(sig) == Some(t.cache[sig].fn)
      && t.cache[sig].tasks == UsersOf(SigsOf(c.pipelines), Users(t.w.tasks), sig)
      && t.cache[sig].tasks != {} && t.cache[sig].refs == |t.cache[sig].tasks|
  }

  lemma SweptIsExact(s1: State, l: Live, t: State, c: Config, compile: Compiler, sig: StageConfig)
    requires t.cache == Swept(s1, l).cache && t.w.tasks == l.w.tasks && s1.sigs == SigsOf(c.pipelines)
    requires Honest(t.cache, compile)
    ensures EntryIsExact(t, c, compile, sig)
  {
    CollectedIsExact(l.cache, s1.sigs, Users(l.w.tasks), sig);
  }

  /** After an incremental update of any running store, also one whose cache a failed reload left
      filled, each entry lists exactly the live tasks that use its stage, and there is one. */
  lemma EntriesAreExact(s: State, c0: Config, c: Config, p: Plan, compile: Compiler, sig: StageConfig)
    requires Runs(s, c0, compile) && Loadable(c, compile) && PlanFor(p, RunningConfig(s), c)
    ensures EntryIsExact(Delta(s, c, p, compile).0, c, compile, sig)
  {
    DeltaRuns(s, c0, c, p, compile);
    PreparedOk(s, c0, c, p, compile);
    var s1 := Prepared(s, c, p, compile);
    var l := TasksApplied(s1, c, p).0;
    DeltaParts(s, c, p, compile, s1, l);
    SweptIsExact(s1, l, Delta(s, c, p, compile).0, c, compile, sig);
  }

  // From validation to reloads

  /** A configuration that passes validation is loadable, with stages compiled by `compileStage`. */
  lemma ValidIsLoadable(c: Config, regexOk: string -> bool)
    requires V.Valid(c, regexOk)
    ensures Loadable(c, sc => Compiled(sc, regexOk))
  {
    V.ValidReferencesResolve(c, regexOk);
    var compile := (sc: StageConfig) => Compiled(sc, regexOk);
    forall pn | pn in c.pipelines
      ensures ListCompiles(StagesOf(c.pipelines[pn]), compile)
    {
    }
    forall sig | sig in StagesIn(c.pipelines)
      ensures compile(sig).Some?
    {
      var pn :| pn in c.pipelines && sig in StagesOf(c.pipelines[pn]);
      assert ListCompiles(StagesOf(c.pipelines[pn]), compile);
    }
    forall tn | tn in c.tasks
      ensures TaskLoadable(c.tasks[tn], c)
    {
      assert V.TaskValid(tn, c.tasks[tn], c);
    }
    forall name
      ensures SetLoadable(name, c)
    {
      assert name in c.taskSets ==> V.TaskSetValid(name, c.taskSets[name], c);
    }
  }
}
