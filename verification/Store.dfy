/**
 * The runtime store: its index maps, and the methods that reload it.
 *
 * Each method is proved to do what the corresponding step of `StoreState` and `StoreWork` says; ghost
 * fields follow which tasks run and what has become of every sender instance.  Loops over maps take
 * their keys in any order.  Whether a sender or receiver can be built is decided outside: the names
 * that can are parameters of a reload.
 */
module Store {
  import opened Config
  import opened DeltaPlan
  import opened Options
  import opened ReloadLimits
  import opened ReloadRetry
  import opened ReloadRuns
  import opened ReloadSteps
  import opened ReloadTasks
  import opened Stages
  import opened StageCache
  import opened StageRefs
  import opened StoreState
  import opened StoreWork
  import opened TaskRun
  import opened Text

  // Reference counts

  lemma CountSnoc(names: seq<string>, i: nat, n: string)
    requires i < |names|
    ensures multiset(names[..i + 1])[n] == multiset(names[..i])[n] + (if n == names[i] then 1 else 0)
  {
    assert names[..i + 1] == names[..i] + [names[i]];
  }

  lemma RecountSnoc(senders: map<string, SenderState>, names: seq<string>, i: nat, more: bool)
    requires i < |names|
    ensures var before := Recount(senders, names[..i], more);
            Recount(senders, names[..i + 1], more) ==
              if names[i] in senders
              then before[names[i] := before[names[i]].(refs := before[names[i]].refs + (if more then 1 else -1))]
              else before
  {
    forall n | n in senders
      ensures Recount(senders, names[..i + 1], more)[n].refs ==
              Recount(senders, names[..i], more)[n].refs + (if n != names[i] then 0 else if more then 1 else -1)
    {
      CountSnoc(names, i, n);
    }
  }

  lemma RecountNothing(senders: map<string, SenderState>, more: bool)
    ensures Recount(senders, [], more) == senders
  {
  }

  lemma RecountBack(senders: map<string, SenderState>, names: seq<string>)
    ensures Recount(Recount(senders, names, true), names, false) == senders
  {
  }

  /** Giving references back: names no longer known are skipped. */
  method ReleaseSenders(senders: map<string, SenderState>, names: seq<string>)
    returns (senders': map<string, SenderState>)
    ensures senders' == Recount(senders, names, false)
  {
    senders' := senders;
    RecountNothing(senders, false);
    var i := 0;
    while i < |names|
      invariant 0 <= i <= |names| && senders' == Recount(senders, names[..i], false)
    {
      RecountSnoc(senders, names, i, false);
      if names[i] in senders' {
        var ss := senders'[names[i]];
        senders' := senders'[names[i] := SenderState(ss.cfg, ss.inst, ss.refs - 1)];
      }
      i := i + 1;
    }
    assert names[..i] == names;
  }

  /** Taking references one by one; an unknown name gives back those already taken. */
  method RetainSenders(senders: map<string, SenderState>, names: seq<string>)
    returns (ok: bool, senders': map<string, SenderState>, bound: seq<Instance>)
    ensures ok <==> KnownSenders(senders, names)
    ensures ok ==> senders' == Recount(senders, names, true) && bound == BoundTo(senders, names)
    ensures !ok ==> senders' == senders
  {
    senders', bound := senders, [];
    RecountNothing(senders, true);
    var i := 0;
    while i < |names|
      invariant 0 <= i <= |names| && KnownSenders(senders, names[..i])
      invariant senders' == Recount(senders, names[..i], true) && bound == BoundTo(senders, names[..i])
    {
      if names[i] !in senders' {
        senders' := ReleaseSenders(senders', names[..i]);
        RecountBack(senders, names[..i]);
        return false, senders', [];
      }
      RecountSnoc(senders, names, i, true);
      var ss := senders'[names[i]];
      senders' := senders'[names[i] := SenderState(ss.cfg, ss.inst, ss.refs + 1)];
      bound := bound + [ss.inst];
      i := i + 1;
    }
    assert names[..i] == names;
    ok := true;
  }

  method BindPipelines(names: seq<string>, pipelines: map<string, seq<Stage>>) returns (ok: bool, stages: seq<seq<Stage>>)
    ensures ok <==> KnownPipelines(names, pipelines)
    ensures ok ==> stages == StagesFor(names, pipelines)
  {
    stages := [];
    var i := 0;
    while i < |names|
      invariant 0 <= i <= |names| && KnownPipelines(names[..i], pipelines) && stages == StagesFor(names[..i], pipelines)
    {
      if names[i] !in pipelines {
        return false, [];
      }
      stages := stages + [pipelines[names[i]]];
      i := i + 1;
    }
    assert names[..i] == names;
    ok := true;
  }

  // Senders

  /** Names whose sender must be built, looked at in whatever order the map yields them; the first
      build that fails ends the loop. */
  method BuildSenders(w: map<string, SenderState>, next: map<string, SenderConfig>, builds: set<string>)
    returns (ok: bool, built: set<string>)
    ensures var must := set n | n in next && (n !in w || w[n].cfg != next[n]);
            && built <= must * builds && (ok <==> must <= builds) && (ok ==> built == must)
  {
    built := {};
    ghost var must := set n | n in next && (n !in w || w[n].cfg != next[n]);
    var left := next.Keys;
    while left != {}
      invariant left <= next.Keys && built == must - left && built <= builds
      decreases left
    {
      var n :| n in left;
      if n !in w || w[n].cfg != next[n] {
        if n !in builds {
          assert n in must;
          return false, built;
        }
        built := built + {n};
      }
      left := left - {n};
    }
    ok := true;
  }

  method PublishSenders(senders: map<string, SenderState>, next: map<string, SenderConfig>, built: set<string>, gen: nat)
    returns (senders': map<string, SenderState>, closers: set<Instance>)
    requires built <= next.Keys
    ensures senders' == map n | n in senders.Keys + built ::
              if n in built then SenderState(next[n], Instance(n, gen), if n in senders then senders[n].refs else 0)
              else senders[n]
    ensures closers == set n | n in senders && n in built :: senders[n].inst
  {
    senders', closers := senders, {};
    var left := built;
    while left != {}
      invariant left <= built
      invariant senders' == map n | n in senders.Keys + (built - left) ::
        if n in built - left then SenderState(next[n], Instance(n, gen), if n in senders then senders[n].refs else 0)
        else senders[n]
      invariant closers == set n | n in senders && n in built - left :: senders[n].inst
      decreases left
    {
      var n :| n in left;
      var refs := 0;
      if n in senders' {
        refs := senders'[n].refs;
        closers := closers + {senders'[n].inst};
      }
      senders' := senders'[n := SenderState(next[n], Instance(n, gen), refs)];
      assert built - (left - {n}) == (built - left) + {n};
      left := left - {n};
    }
    assert built - left == built;
  }

  /** The senders to drop: not kept by configuration and no longer referenced. */
  method SendersToDrop(senders: map<string, SenderState>, keep: set<string>, unreferenced: int -> bool)
    returns (gone: set<string>)
    ensures gone == set n | n in senders && n !in keep && unreferenced(senders[n].refs)
  {
    gone := {};
    var left := senders.Keys;
    while left != {}
      invariant left <= senders.Keys
      invariant gone == set n | n in senders && n !in left && n !in keep && unreferenced(senders[n].refs)
      decreases left
    {
      var n :| n in left;
      if n !in keep && unreferenced(senders[n].refs) {
        gone := gone + {n};
      }
      left := left - {n};
    }
  }

  // Selectors

  method ResolveTaskSet(taskSets: map<string, seq<string>>, tasks: map<string, TaskState>, name: string)
    returns (ok: bool, states: seq<TaskState>)
    ensures ok <==> Resolves(taskSets, tasks, name)
    ensures ok ==> states == Resolved(taskSets, tasks, name)
  {
    states := [];
    var names := if name in taskSets then taskSets[name] else [];
    var i := 0;
    while i < |names|
      invariant 0 <= i <= |names| && forall k :: 0 <= k < i ==> names[k] in tasks
      invariant states == seq(i, k requires 0 <= k < i => tasks[names[k]])
    {
      if names[i] !in tasks {
        assert Expand(taskSets, name)[i] !in tasks;
        return false, [];
      }
      states := states + [tasks[names[i]]];
      i := i + 1;
    }
    ok := true;
  }

  method CompileSelector(sc: SelectorConfig, taskSets: map<string, seq<string>>, tasks: map<string, TaskState>)
    returns (ok: bool, routes: Routes)
    ensures ok <==> SelectorResolves(sc, taskSets, tasks)
    ensures ok ==> routes == SelectorRoutes(sc, taskSets, tasks)
  {
    routes := Routes(map[], []);
    var byKey: map<string, seq<TaskState>> := map[];
    var left := sc.matches.Keys;
    while left != {}
      invariant left <= sc.matches.Keys
      invariant forall key :: key in sc.matches && key !in left ==> Resolves(taskSets, tasks, sc.matches[key])
      invariant byKey == map key | key in sc.matches && key !in left :: Resolved(taskSets, tasks, sc.matches[key])
      decreases left
    {
      var key :| key in left;
      var states: seq<TaskState>;
      ok, states := ResolveTaskSet(taskSets, tasks, sc.matches[key]);
      if !ok {
        return;
      }
      byKey := byKey[key := states];
      left := left - {key};
    }
    ok := true;
    var fallback: seq<TaskState> := [];
    if sc.defaultTaskSet != "" {
      ok, fallback := ResolveTaskSet(taskSets, tasks, sc.defaultTaskSet);
    }
    routes := Routes(byKey, fallback);
  }

  method CompileSelectors(selectors: map<string, SelectorConfig>, taskSets: map<string, seq<string>>,
                          tasks: map<string, TaskState>) returns (ok: bool, routes: map<string, Routes>)
    ensures ok <==> AllResolve(selectors, taskSets, tasks)
    ensures ok ==> routes == AllRoutes(selectors, taskSets, tasks)
  {
    routes := map[];
    var left := selectors.Keys;
    while left != {}
      invariant left <= selectors.Keys
      invariant forall sn :: sn in selectors && sn !in left ==> SelectorResolves(selectors[sn], taskSets, tasks)
      invariant routes == map sn | sn in selectors && sn !in left :: SelectorRoutes(selectors[sn], taskSets, tasks)
      decreases left
    {
      var sn :| sn in left;
      var r: Routes;
      ok, r := CompileSelector(selectors[sn], taskSets, tasks);
      if !ok {
        return;
      }
      routes := routes[sn := r];
      left := left - {sn};
    }
    ok := true;
  }

  method Rewire(receivers: map<string, ReceiverState>, routes: map<string, Routes>)
    returns (receivers': map<string, ReceiverState>)
    ensures receivers' == Rewired(receivers, routes)
  {
    receivers' := map[];
    var left := receivers.Keys;
    while left != {}
      invariant left <= receivers.Keys
      invariant receivers' == map rn | rn in receivers && rn !in left ::
        receivers[rn].(routes := RouteOf(routes, receivers[rn].cfg.selector))
      decreases left
    {
      var rn :| rn in left;
      var rs := receivers[rn];
      receivers' := receivers'[rn := ReceiverState(rs.cfg, rs.gen, RouteOf(routes, rs.cfg.selector))];
      left := left - {rn};
    }
  }

  method CloneSelectors(selectors: map<string, SelectorConfig>) returns (copy: map<string, SelectorConfig>)
    ensures copy == selectors
  {
    copy := map[];
    var left := selectors.Keys;
    while left != {}
      invariant left <= selectors.Keys && copy == map sn | sn in selectors && sn !in left :: selectors[sn]
      decreases left
    {
      var sn :| sn in left;
      copy := copy[sn := SelectorConfig(selectors[sn].matches, selectors[sn].defaultTaskSet)];
      left := left - {sn};
    }
  }

  method ClonePipelines(pipelines: map<string, StageList>) returns (copy: map<string, StageList>)
    ensures copy == Cloned(pipelines)
  {
    copy := map[];
    var left := pipelines.Keys;
    while left != {}
      invariant left <= pipelines.Keys
      invariant copy == map pn | pn in pipelines && pn !in left ::
        if StagesOf(pipelines[pn]) == [] then Nil else pipelines[pn]
      decreases left
    {
      var pn :| pn in left;
      var stages := StagesOf(pipelines[pn]);
      copy := copy[pn := if |stages| == 0 then Nil else Stages(stages)];
      left := left - {pn};
    }
  }

  method TaskPipelines(tasks: map<string, TaskState>) returns (users: map<string, seq<string>>)
    ensures users == Users(tasks)
  {
    users := map n | n in tasks :: tasks[n].cfg.pipelines;
  }

  lemma RestartStops(l: Live, names: seq<string>, i: nat, added: seq<string>, code: Code)
    requires i <= |names| && !Restarted(l, names[..i], added, code).1
    ensures Restarted(l, names, added, code) == Restarted(l, names[..i], added, code)
    decreases |names|
  {
    if i < |names| {
      assert names[..|names| - 1][..i] == names[..i];
      RestartStops(l, names[..|names| - 1], i, added, code);
    } else {
      assert names[..i] == names;
    }
  }

  lemma ExtendStops(l: Live, names: seq<string>, i: nat, removed: seq<string>, code: Code)
    requires i <= |names| && !Extended(l, names[..i], removed, code).1
    ensures Extended(l, names, removed, code) == Extended(l, names[..i], removed, code)
    decreases |names|
  {
    if i < |names| {
      assert names[..|names| - 1][..i] == names[..i];
      ExtendStops(l, names[..|names| - 1], i, removed, code);
    } else {
      assert names[..i] == names;
    }
  }

  function ToBuild(receivers: map<string, ReceiverState>, next: map<string, ReceiverConfig>): set<string> {
    set rn | rn in next && (rn !in receivers || receivers[rn].cfg != next[rn])
  }

  /** The outcome of compiling for a delta. */
  ghost predicate CompiledFor(c: Config, p: Plan, out: map<string, seq<Stage>>, sigs: Sigs, compile: Compiler) {
    p.pipelines.Changed() ==>
      Compilable(c, compile) && out == CompiledAll(c.pipelines, compile) && sigs == SigsOf(c.pipelines)
  }

  /** Replacing senders and then publishing compiled pipelines. */
  ghost function Published(s: State, c: Config, p: Plan, out: map<string, seq<Stage>>, sigs: Sigs): State {
    var t := s.(w := WithSenders(s.w, c, p));
    if p.pipelines.Changed()
    then t.(pipelines := out, pipelineCfg := Cloned(c.pipelines), sigs := sigs, cache := Collected(t.cache))
    else t
  }

  ghost function GrownFor(cache: Cache, c: Config, p: Plan, compile: Compiler): Cache
    requires p.pipelines.Changed() ==> Compilable(c, compile)
  {
    if p.pipelines.Changed() then Grown(cache, StagesIn(c.pipelines), compile) else cache
  }

  lemma PreparedIs(s: State, c: Config, p: Plan, compile: Compiler, out: map<string, seq<Stage>>, sigs: Sigs)
    requires CompiledFor(c, p, out, sigs, compile)
    ensures Published(WithSelectors(s.(cache := GrownFor(s.cache, c, p, compile)), c, p), c, p, out, sigs) ==
            Prepared(s, c, p, compile)
  {
  }

  /** Routes do not depend on what was there before a rewiring. */
  lemma WithRoutesEither(s: State, t: State, p: Plan)
    requires SameReceiversButRoutes(s.receivers, t.receivers) && s == t.(receivers := s.receivers)
    requires MustRewire(p) || s.receivers == t.receivers
    ensures WithRoutes(s, p).1 == WithRoutes(t, p).1
    ensures WithRoutes(s, p).1 ==> WithRoutes(s, p) == WithRoutes(t, p)
  {
    if MustRewire(p) && AllResolve(t.selectors, t.taskSets, t.w.tasks) {
      RewiredSame(s.receivers, t.receivers, AllRoutes(t.selectors, t.taskSets, t.w.tasks));
    }
  }

  class RuntimeStore {
    const compile: Compiler
    var gen: nat
    var receivers: map<string, ReceiverState>
    var selectors: map<string, SelectorConfig>
    var taskSets: map<string, seq<string>>
    var senders: map<string, SenderState>
    var tasks: map<string, TaskState>
    var pipelines: map<string, seq<Stage>>
    var pipelineCfg: map<string, StageList>
    var pipelineStageSigs: Sigs
    var stageCache: Cache
    ghost var running: map<string, TaskState>
    ghost var built: set<Instance>
    ghost var closing: set<Instance>
    ghost var closed: multiset<Instance>
    ghost var fault: bool
    ghost var listening: set<(string, nat)>

    ghost function W(): Work
      reads this
    {
      Work(gen, senders, tasks, running, built, closing, closed, fault)
    }

    ghost function L(): Live
      reads this
    {
      Live(W(), stageCache)
    }

    ghost function View(): State
      reads this
    {
      State(W(), receivers, selectors, taskSets, pipelines, pipelineCfg, pipelineStageSigs, stageCache)
    }

    /** Exactly the receivers of the store are started and not stopped. */
    ghost predicate Listening()
      reads `receivers, `listening
    {
      listening == ReceiverIds(receivers)
    }

    /** What holds between reloads, also after one that failed. */
    ghost predicate Valid()
      reads this
    {
      Honest(stageCache, compile) && closing == {} && Earlier(receivers, gen)
    }

    constructor (compile: Compiler)
      ensures this.compile == compile && View() == EMPTY && Valid() && Listening()
    {
      this.compile, gen := compile, 0;
      receivers, selectors, taskSets, senders, tasks := map[], map[], map[], map[], map[];
      pipelines, pipelineCfg, pipelineStageSigs, stageCache := map[], map[], map[], map[];
      running, built, closing, closed, fault, listening := map[], {}, {}, multiset{}, false, {};
    }

    // Senders

    ghost method CloseInstances(insts: set<Instance>)
      modifies `closed, `fault
      ensures W() == Close(old(W()), insts)
    {
      fault := fault || InUse(W(), insts);
      closed := closed + multiset(insts);
    }

    method GcUnusedSenders()
      modifies `senders, `closed, `fault
      ensures W() == UnusedDropped(old(W()))
    {
      var gone := SendersToDrop(senders, {}, refs => refs <= 0);
      ghost var insts := Insts(W(), gone);
      assert gone == set n | n in W().senders && W().senders[n].refs <= 0;
      senders := map n | n in senders && n !in gone :: senders[n];
      CloseInstances(insts);
    }

    /** Replacing senders by the ones just built, in one locked section. */
    method PublishBuilt(next: map<string, SenderConfig>, names: set<string>)
      requires names == set n | n in next && MustBuild(W(), next, n)
      modifies `senders, `built, `closing
      ensures W() == SendersReplaced(old(W()), next)
    {
      ghost var w := W();
      var closers: set<Instance>;
      senders, closers := PublishSenders(senders, next, names, gen);
      built := built + set n | n in names :: Instance(n, gen);
      closing := closing + closers;
      PublishedIsReplaced(w, next, names, closers, senders, built);
    }

    /** Closing senders that are no longer configured and not referenced. */
    method DropUnconfigured(next: map<string, SenderConfig>)
      modifies `senders, `closed, `fault
      ensures W() == Dropped(old(W()), set n | n in old(W()).senders && Droppable(old(W()), next, n))
    {
      var gone := SendersToDrop(senders, next.Keys, refs => refs == 0);
      ghost var w := W();
      assert gone == set n | n in w.senders && Droppable(w, next, n);
      senders := map n | n in senders && n !in gone :: senders[n];
      CloseInstances(Insts(w, gone));
    }

    /** On a failed build the senders built so far are closed and nothing is published. */
    method ApplySenderDelta(next: map<string, SenderConfig>, builds: set<string>) returns (ok: bool, ghost made: set<string>)
      modifies `senders, `built, `closing, `closed, `fault
      ensures ok <==> forall n :: n in next && MustBuild(old(W()), next, n) ==> n in builds
      ensures W() == if ok then SenderDelta(old(W()), next) else Abandoned(old(W()), made)
    {
      var names: set<string>;
      ok, names := BuildSenders(senders, next, builds);
      assert (set n | n in next && (n !in senders || senders[n].cfg != next[n])) ==
             (set n | n in next && MustBuild(W(), next, n));
      made := names;
      if !ok {
        Abandon(names);
        return;
      }
      PublishBuilt(next, names);
      DropUnconfigured(next);
    }

    ghost method Abandon(names: set<string>)
      modifies `built, `closed, `fault
      ensures W() == Abandoned(old(W()), names)
    {
      ghost var insts := Made(W(), names);
      built := built + insts;
      CloseInstances(insts);
    }

    static lemma PublishedIsReplaced(w: Work, next: map<string, SenderConfig>, names: set<string>, closers: set<Instance>,
                                     senders: map<string, SenderState>, built: set<Instance>)
      requires names == set n | n in next && MustBuild(w, next, n)
      requires senders == map n | n in w.senders.Keys + names ::
                 if n in names then SenderState(next[n], Instance(n, w.gen), if n in w.senders then w.senders[n].refs else 0)
                 else w.senders[n]
      requires closers == set n | n in w.senders && n in names :: w.senders[n].inst
      requires built == w.built + set n | n in names :: Instance(n, w.gen)
      ensures w.(senders := senders, built := built, closing := w.closing + closers) == SendersReplaced(w, next)
    {
      var u := SendersReplaced(w, next);
      assert u.senders.Keys == senders.Keys;
      assert forall n :: n in senders ==> u.senders[n] == senders[n];
      assert closers == Replaced(w, next);
    }

    // Tasks

    method RemoveTask(name: string, ghost code: Code)
      requires code.sigs == pipelineStageSigs
      modifies `tasks, `senders, `running, `stageCache
      ensures L() == TakenDown(old(L()), name, code)
    {
      if name in tasks {
        var ts := tasks[name];
        tasks := tasks - {name};
        stageCache := ReleaseTaskStageRefs(stageCache, pipelineStageSigs, name, ts.cfg.pipelines);
        senders := ReleaseSenders(senders, ts.cfg.senders);
      }
      running := running - {name};
    }

    method AddTask(name: string, tc: TaskConfig, ghost code: Code) returns (ok: bool)
      requires code.sigs == pipelineStageSigs && code.pipelines == pipelines
      modifies `senders, `tasks, `running, `stageCache, `fault
      ensures (L(), ok) == BroughtUp(old(L()), name, tc, code)
    {
      var stages: seq<seq<Stage>>;
      ok, stages := BindPipelines(tc.pipelines, pipelines);
      if !ok {
        return;
      }
      var bound: seq<Instance>;
      ok, senders, bound := RetainSenders(senders, tc.senders);
      if !ok {
        return;
      }
      var ts := TaskState(name, tc, gen, stages, bound);
      running := running[name := ts];
      fault := fault || exists i :: 0 <= i < |bound| && bound[i] in closed;
      tasks := tasks[name := ts];
      stageCache := RetainTaskStageRefs(stageCache, pipelineStageSigs, name, tc.pipelines);
    }

    method RestartTasks(removed: seq<string>, added: seq<string>, configs: map<string, TaskConfig>, ghost code: Code)
      returns (ok: bool)
      requires code == Code(pipelines, pipelineStageSigs, configs)
      modifies `senders, `tasks, `running, `stageCache, `fault
      ensures (L(), ok) == Restarted(old(L()), removed, added, code)
    {
      ghost var l0 := L();
      var i := 0;
      while i < |removed|
        invariant 0 <= i <= |removed| && code == Code(pipelines, pipelineStageSigs, configs)
        invariant (L(), true) == Restarted(l0, removed[..i], added, code)
      {
        var name := removed[i];
        assert removed[..i + 1][..i] == removed[..i];
        RemoveTask(name, code);
        if name in added && name in configs {
          ok := AddTask(name, configs[name], code);
          if !ok {
            RestartStops(l0, removed, i + 1, added, code);
            return;
          }
        }
        i := i + 1;
      }
      assert removed[..i] == removed;
      ok := true;
    }

    method ExtendTasks(added: seq<string>, removed: seq<string>, configs: map<string, TaskConfig>, ghost code: Code)
      returns (ok: bool)
      requires code == Code(pipelines, pipelineStageSigs, configs)
      modifies `senders, `tasks, `running, `stageCache, `fault
      ensures (L(), ok) == Extended(old(L()), added, removed, code)
    {
      ghost var l0 := L();
      var i := 0;
      while i < |added|
        invariant 0 <= i <= |added| && code == Code(pipelines, pipelineStageSigs, configs)
        invariant (L(), true) == Extended(l0, added[..i], removed, code)
      {
        var name := added[i];
        assert added[..i + 1][..i] == added[..i];
        if name !in removed && name in configs {
          ok := AddTask(name, configs[name], code);
          if !ok {
            ExtendStops(l0, added, i + 1, removed, code);
            return;
          }
        }
        i := i + 1;
      }
      assert added[..i] == added;
      ok := true;
    }

    // Receivers and selectors

    method RebuildReceiverSelectors() returns (ok: bool)
      modifies `receivers
      ensures ok <==> AllResolve(selectors, taskSets, tasks)
      ensures ok ==> receivers == Rewired(old(receivers), AllRoutes(selectors, taskSets, tasks))
      ensures !ok ==> receivers == old(receivers)
    {
      var copy := CloneSelectors(selectors);
      var routes: map<string, Routes>;
      ok, routes := CompileSelectors(copy, taskSets, tasks);
      if ok {
        receivers := Rewire(receivers, routes);
      }
    }

    /** New and changed receivers, built before anything is published. */
    method PrepareReceiverDelta(next: map<string, ReceiverConfig>, builds: set<string>)
      returns (ok: bool, names: set<string>)
      ensures ok ==> names == ToBuild(receivers, next)
      ensures next.Keys <= builds ==> ok
    {
      names := {};
      var left := next.Keys;
      while left != {}
        invariant left <= next.Keys
        invariant names == set rn | rn in next && rn !in left && (rn !in receivers || receivers[rn].cfg != next[rn])
        decreases left
      {
        var rn :| rn in left;
        if rn !in receivers || receivers[rn].cfg != next[rn] {
          if rn !in builds {
            return false, {};
          }
          names := names + {rn};
        }
        left := left - {rn};
      }
      ok := true;
    }

    /** Dropping unconfigured receivers, then putting the built ones in place one by one: after a
        rewiring each is started, and only then the one it replaces is stopped. */
    method CommitReceiverDelta(next: map<string, ReceiverConfig>, names: set<string>) returns (ok: bool)
      requires names == ToBuild(receivers, next) && Earlier(receivers, gen)
      modifies `receivers, `listening
      ensures AllResolve(selectors, taskSets, tasks) ==> ok
      ensures ok ==> SameReceiversButRoutes(receivers, Committed(old(receivers), next, gen))
      ensures Earlier(receivers, gen + 1) && (ok && old(Listening()) ==> Listening())
    {
      ghost var before := receivers;
      receivers := map rn | rn in receivers && rn in next :: receivers[rn];
      listening := listening - ReceiverIds(Outside(before, next.Keys));
      IdsDropped(before, next.Keys);
      var left := names;
      while left != {}
        invariant left <= names
        invariant SameReceiversButRoutes(receivers, Partly(before, next, gen, left))
        invariant old(Listening()) ==> Listening()
        decreases left
      {
        var rn :| rn in left;
        PartlyOne(receivers, before, next, gen, left, rn);
        IdsAfterOne(receivers, before, next, gen, left, rn);
        ok := CommitOne(rn, next[rn]);
        left := left - {rn};
        PartlyEarlier(receivers, before, next, gen, left);
        if !ok {
          return;
        }
      }
      PartlyEarlier(receivers, before, next, gen, left);
      ok := true;
    }

    method CommitOne(rn: string, cfg: ReceiverConfig) returns (ok: bool)
      requires rn in receivers ==> receivers[rn].gen < gen
      modifies `receivers, `listening
      ensures ok <==> AllResolve(selectors, taskSets, tasks)
      ensures SameReceiversButRoutes(receivers, old(receivers)[rn := ReceiverState(cfg, gen, None)])
      ensures ok && old(Listening()) ==> Listening()
    {
      ghost var replaced := if rn in receivers then {(rn, receivers[rn].gen)} else {};
      ghost var before := receivers;
      receivers := receivers[rn := ReceiverState(cfg, gen, None)];
      ok := RebuildReceiverSelectors();
      if ok {
        listening := (listening + {(rn, gen)}) - replaced;
        IdsReplaced(before, receivers, rn, cfg, gen);
      }
    }

    // An incremental update

    method CloneTaskSets() returns (copy: map<string, seq<string>>)
      ensures copy == taskSets
    {
      copy := map ts | ts in taskSets :: taskSets[ts];
    }

    method RunningSnapshot() returns (now: Running)
      ensures now == RunningConfig(View())
    {
      var clonedPipelines := ClonePipelines(pipelineCfg);
      var clonedSelectors := CloneSelectors(selectors);
      var clonedSets := CloneTaskSets();
      now := Running(map rn | rn in receivers :: receivers[rn].cfg, clonedSelectors, clonedSets,
                     map sn | sn in senders :: senders[sn].cfg, clonedPipelines,
                     map tn | tn in tasks :: tasks[tn].cfg);
    }

    method PlanReload(c: Config) returns (p: Plan)
      ensures PlanFor(p, RunningConfig(View()), c)
    {
      var now := RunningSnapshot();
      p := PlanBusinessDelta(now, c);
    }

    method CompileDelta(c: Config, p: Plan) returns (ok: bool, out: map<string, seq<Stage>>, sigs: Sigs)
      requires Honest(stageCache, compile)
      modifies `stageCache
      ensures Compilable(c, compile) ==> ok
      ensures ok ==> CompiledFor(c, p, out, sigs, compile) && stageCache == GrownFor(old(stageCache), c, p, compile)
      ensures !ok ==> stageCache == old(stageCache)
      ensures Honest(stageCache, compile)
    {
      ok, out, sigs := true, map[], map[];
      if p.pipelines.Changed() {
        ok, out, sigs, stageCache := CompilePipelinesWithStageCache(stageCache, c.pipelines, compile);
      }
    }

    method PublishSelectors(c: Config, p: Plan)
      modifies `selectors, `taskSets
      ensures View() == WithSelectors(old(View()), c, p)
    {
      if p.selectors.Changed() || p.taskSets.Changed() {
        selectors := CloneSelectors(c.selectors);
        taskSets := c.taskSets;
      }
    }

    method ReplaceSenders(c: Config, p: Plan, builds: set<string>) returns (ok: bool, ghost made: set<string>)
      modifies `senders, `built, `closing, `closed, `fault
      ensures c.senders.Keys <= builds ==> ok
      ensures W() == if ok then WithSenders(old(W()), c, p) else Abandoned(old(W()), made)
    {
      ok, made := true, {};
      if p.senders.Changed() {
        ok, made := ApplySenderDelta(c.senders, builds);
      }
    }

    method PublishPipelines(c: Config, out: map<string, seq<Stage>>, sigs: Sigs)
      modifies `pipelines, `pipelineCfg, `pipelineStageSigs, `stageCache
      ensures pipelines == out && pipelineCfg == Cloned(c.pipelines) && pipelineStageSigs == sigs
      ensures stageCache == Collected(old(stageCache))
    {
      pipelines, pipelineStageSigs := out, sigs;
      pipelineCfg := ClonePipelines(c.pipelines);
      stageCache := GcUnusedStageCache(stageCache);
    }

    /** What can fail before anything is published: compiling and building receivers. */
    method CompileAndBuild(c: Config, p: Plan, receiverBuilds: set<string>)
      returns (ok: bool, out: map<string, seq<Stage>>, sigs: Sigs, built: set<string>)
      requires Honest(stageCache, compile)
      modifies `stageCache
      ensures Compilable(c, compile) && c.receivers.Keys <= receiverBuilds ==> ok
      ensures ok ==> CompiledFor(c, p, out, sigs, compile) && stageCache == GrownFor(old(stageCache), c, p, compile)
                     && (p.receivers.Changed() ==> built == ToBuild(receivers, c.receivers))
      ensures Honest(stageCache, compile)
    {
      built := {};
      ok, out, sigs := CompileDelta(c, p);
      if ok && p.receivers.Changed() {
        ok, built := PrepareReceiverDelta(c.receivers, receiverBuilds);
      }
    }

    method CompileAndPublishSelectors(c: Config, p: Plan, receiverBuilds: set<string>)
      returns (ok: bool, out: map<string, seq<Stage>>, sigs: Sigs, built: set<string>)
      requires Honest(stageCache, compile)
      modifies `selectors, `taskSets, `stageCache
      ensures Compilable(c, compile) && c.receivers.Keys <= receiverBuilds ==> ok
      ensures ok ==> CompiledFor(c, p, out, sigs, compile)
                     && View() == WithSelectors(old(View()).(cache := GrownFor(old(stageCache), c, p, compile)), c, p)
                     && (p.receivers.Changed() ==> built == ToBuild(receivers, c.receivers))
      ensures OnlySelectors(old(View()), View(), c) && Honest(stageCache, compile)
    {
      ok, out, sigs, built := CompileAndBuild(c, p, receiverBuilds);
      if ok {
        PublishSelectors(c, p);
      }
    }

    method PublishSendersAndPipelines(c: Config, p: Plan, out: map<string, seq<Stage>>, sigs: Sigs, builds: set<string>)
      returns (ok: bool, ghost made: set<string>)
      modifies `senders, `built, `closing, `closed, `fault, `pipelines, `pipelineCfg, `pipelineStageSigs, `stageCache
      ensures c.senders.Keys <= builds ==> ok
      ensures View() == if ok then Published(old(View()), c, p, out, sigs) else old(View()).(w := Abandoned(old(W()), made))
      ensures Honest(old(stageCache), compile) ==> Honest(stageCache, compile)
    {
      ok, made := ReplaceSenders(c, p, builds);
      if ok && p.pipelines.Changed() {
        PublishPipelines(c, out, sigs);
      }
    }

    /** Everything that comes before the task loops: compile, build receivers, publish selectors,
        replace senders, publish pipelines.  Whatever fails, senders and tasks stay as they were, and
        the senders in `made` are closed again. */
    method PrepareDelta(c: Config, p: Plan, senderBuilds: set<string>, receiverBuilds: set<string>)
      returns (ok: bool, built: set<string>, ghost made: set<string>)
      requires Honest(stageCache, compile)
      modifies `selectors, `taskSets, `senders, `built, `closing, `closed, `fault,
               `pipelines, `pipelineCfg, `pipelineStageSigs, `stageCache
      ensures ok ==> (p.pipelines.Changed() ==> Compilable(c, compile)) && View() == Prepared(old(View()), c, p, compile)
      ensures ok && p.receivers.Changed() ==> built == ToBuild(receivers, c.receivers)
      ensures Compilable(c, compile) && c.senders.Keys <= senderBuilds && c.receivers.Keys <= receiverBuilds ==> ok
      ensures !ok ==> OnlySelectors(old(View()), View(), c) && W() == Abandoned(old(W()), made)
      ensures Honest(stageCache, compile)
    {
      ghost var s0 := View();
      var out, sigs;
      ok, out, sigs, built := CompileAndPublishSelectors(c, p, receiverBuilds);
      made := {};
      NothingAbandoned(W());
      if ok {
        ghost var s1 := View();
        ok, made := PublishSendersAndPipelines(c, p, out, sigs, senderBuilds);
        PreparedEnds(s0, c, p, compile, out, sigs, s1, View(), ok);
      }
    }

    static lemma PreparedEnds(s: State, c: Config, p: Plan, compile: Compiler, out: map<string, seq<Stage>>, sigs: Sigs,
                              s1: State, t: State, ok: bool)
      requires CompiledFor(c, p, out, sigs, compile)
      requires s1 == WithSelectors(s.(cache := GrownFor(s.cache, c, p, compile)), c, p)
      requires ok ==> t == Published(s1, c, p, out, sigs)
      ensures ok ==> (p.pipelines.Changed() ==> Compilable(c, compile)) && t == Prepared(s, c, p, compile)
    {
      PreparedIs(s, c, p, compile, out, sigs);
    }

    method ApplyTasks(c: Config, p: Plan) returns (ok: bool)
      modifies `senders, `tasks, `running, `stageCache, `fault
      ensures (L(), ok) == TasksApplied(old(View()), c, p)
    {
      ghost var code := Code(pipelines, pipelineStageSigs, c.tasks);
      ok := RestartTasks(p.tasks.removed, p.tasks.added, c.tasks, code);
      if ok {
        ok := ExtendTasks(p.tasks.added, p.tasks.removed, c.tasks, code);
      }
    }

    /** The task loops and the sweep after them. */
    method ApplyTasksAndSweep(c: Config, p: Plan) returns (ok: bool, ghost l: Live)
      modifies `senders, `tasks, `running, `stageCache, `closed, `fault
      ensures (l, ok) == TasksApplied(old(View()), c, p)
      ensures ok ==> View() == Swept(old(View()), l)
      ensures !ok ==> L() == l
    {
      ok := ApplyTasks(c, p);
      l := L();
      if ok {
        Sweep();
      }
    }

    method Sweep()
      modifies `stageCache, `senders, `closed, `fault
      ensures View() == Swept(old(View()), old(L()))
    {
      var users := TaskPipelines(tasks);
      stageCache := RebuildStageTaskRefs(stageCache, pipelineStageSigs, users);
      GcUnusedSenders();
      stageCache := GcUnusedStageCache(stageCache);
    }

    method CommitReceivers(c: Config, p: Plan, built: set<string>) returns (ok: bool)
      requires p.receivers.Changed() ==>
                 built == ToBuild(receivers, c.receivers)
      requires Earlier(receivers, gen)
      modifies `receivers, `listening
      ensures Earlier(receivers, gen + 1) && (ok && old(Listening()) ==> Listening())
      ensures AllResolve(selectors, taskSets, tasks) || !p.receivers.Changed() ==> ok
      ensures ok ==> SameReceiversButRoutes(receivers, WithReceivers(old(View()), c, p).receivers)
      ensures !p.receivers.Changed() ==> receivers == old(receivers)
    {
      ok := true;
      if p.receivers.Changed() {
        ok := CommitReceiverDelta(c.receivers, built);
      }
    }

    method CloseReplaced()
      modifies `closing, `closed, `fault, `gen
      ensures View() == Finished(old(View()))
    {
      ghost var insts := closing;
      closing := {};
      CloseInstances(insts);
      gen := gen + 1;
    }

    method RewireIfNeeded(p: Plan) returns (ok: bool)
      modifies `receivers
      ensures ReceiverIds(receivers) == old(ReceiverIds(receivers)) && receivers.Keys == old(receivers.Keys)
      ensures Earlier(old(receivers), gen + 1) ==> Earlier(receivers, gen + 1)
      ensures ok == WithRoutes(old(View()), p).1
      ensures ok ==> View() == WithRoutes(old(View()), p).0
    {
      ok := true;
      if MustRewire(p) {
        ghost var before := receivers;
        ok := RebuildReceiverSelectors();
        SameIds(receivers, before);
      }
    }

    /** Committing receivers and rewiring. */
    method CommitAndRewire(c: Config, p: Plan, built: set<string>) returns (ok: bool)
      requires p.receivers.Changed() ==> built == ToBuild(receivers, c.receivers)
      requires Earlier(receivers, gen)
      modifies `receivers, `listening
      ensures Earlier(receivers, gen + 1) && (ok && old(Listening()) ==> Listening())
      ensures ok <==> WithRoutes(WithReceivers(old(View()), c, p), p).1
      ensures ok ==> View() == WithRoutes(WithReceivers(old(View()), c, p), p).0
    {
      ghost var s0 := View();
      ok := CommitReceivers(c, p, built);
      if ok {
        WithRoutesEither(View(), WithReceivers(s0, c, p), p);
        ok := RewireIfNeeded(p);
      }
    }

    /** Closing the replaced senders comes last of all. */
    method FinishDelta(c: Config, p: Plan, built: set<string>) returns (ok: bool)
      requires p.receivers.Changed() ==> built == ToBuild(receivers, c.receivers)
      requires Earlier(receivers, gen)
      modifies `receivers, `listening, `closing, `closed, `fault, `gen
      ensures Earlier(receivers, if ok then gen else gen + 1) && (ok && old(Listening()) ==> Listening())
      ensures ok <==> WithRoutes(WithReceivers(old(View()), c, p), p).1
      ensures ok ==> View() == Finished(WithRoutes(WithReceivers(old(View()), c, p), p).0)
      ensures !ok ==> W() == old(W())
    {
      ok := CommitAndRewire(c, p, built);
      if ok {
        CloseReplaced();
      }
    }

    /** A failed update: the list of replaced senders is lost, and none of them will be closed. */
    method GiveUp()
      modifies `closing, `gen
      ensures W() == Lost(old(W()))
    {
      closing := {};
      gen := gen + 1;
    }

    /** The task loops and the sweep; every entry of the cache stays what its signature says. */
    method RunLoops(c: Config, p: Plan) returns (ok: bool, ghost l: Live)
      requires Honest(stageCache, compile)
      modifies `senders, `tasks, `running, `stageCache, `closed, `fault
      ensures Honest(stageCache, compile) && (l, ok) == TasksApplied(old(View()), c, p)
      ensures ok ==> View() == Swept(old(View()), l)
      ensures W() == LeftBy(old(View()), c, p)
    {
      ghost var s := View();
      ok, l := ApplyTasksAndSweep(c, p);
      LoopsHonest(s, c, p, compile);
      if ok {
        SweptHonest(l.cache, l.cache, s.sigs, Users(l.w.tasks), compile);
      }
    }

    /** The task loops, the sweep, and then receivers and routes. */
    method LoopAndFinish(c: Config, p: Plan, built: set<string>) returns (ok: bool)
      requires p.receivers.Changed() ==> built == ToBuild(receivers, c.receivers)
      requires Honest(stageCache, compile) && Earlier(receivers, gen)
      modifies `senders, `tasks, `running, `stageCache, `receivers, `listening, `closing, `closed, `fault, `gen
      ensures Honest(stageCache, compile) && Earlier(receivers, if ok then gen else gen + 1)
      ensures ok && old(Listening()) ==> Listening()
      ensures ok <==> EndOf(old(View()), c, p).1
      ensures ok ==> View() == EndOf(old(View()), c, p).0
      ensures !ok ==> W() == LeftBy(old(View()), c, p)
    {
      ghost var l;
      ok, l := RunLoops(c, p);
      if ok {
        ok := FinishDelta(c, p, built);
      }
    }

    method RunDelta(c: Config, p: Plan, built: set<string>) returns (ok: bool)
      requires p.receivers.Changed() ==> built == ToBuild(receivers, c.receivers)
      requires Honest(stageCache, compile) && Earlier(receivers, gen)
      modifies `senders, `tasks, `running, `stageCache, `receivers, `listening, `closing, `closed, `fault, `gen
      ensures Valid() && (ok && old(Listening()) ==> Listening())
      ensures ok <==> EndOf(old(View()), c, p).1
      ensures ok ==> View() == EndOf(old(View()), c, p).0
      ensures !ok ==> W() == Lost(LeftBy(old(View()), c, p))
    {
      ghost var s := View();
      ok := LoopAndFinish(c, p, built);
      EndsSettled(s, c, p);
      if !ok {
        GiveUp();
      }
    }

    /** A finished update has closed what it replaced. */
    static lemma EndsSettled(s: State, c: Config, p: Plan)
      ensures var (t, done) := EndOf(s, c, p); done ==> t.w.closing == {}
    {
    }

    /** The end of an update whose preparation led to `s`. */
    static ghost function EndOf(s: State, c: Config, p: Plan): (State, bool) {
      var (l, done) := TasksApplied(s, c, p);
      if !done then (s, false)
      else
        var (t, wired) := WithRoutes(WithReceivers(Swept(s, l), c, p), p);
        if wired then (Finished(t), true) else (s, false)
    }

    static lemma DeltaIs(s: State, c: Config, p: Plan, compile: Compiler)
      requires p.pipelines.Changed() ==> Compilable(c, compile)
      ensures var (t, done) := EndOf(Prepared(s, c, p, compile), c, p);
              Delta(s, c, p, compile) == if done then (t, true) else (s, false)
    {
    }

    static lemma DeltaEnds(s: State, c: Config, p: Plan, compile: Compiler, s1: State, t: State, ok: bool)
      requires p.pipelines.Changed() ==> Compilable(c, compile)
      requires s1 == Prepared(s, c, p, compile)
      requires (ok <==> EndOf(s1, c, p).1) && (ok ==> t == EndOf(s1, c, p).0)
      requires !ok ==> t.w == Lost(LeftBy(s1, c, p))
      ensures (ok <==> Delta(s, c, p, compile).1) && (ok ==> (t, true) == Delta(s, c, p, compile))
      ensures !ok ==> t.w == Lost(LoopsLeft(s, c, p, compile))
    {
      DeltaIs(s, c, p, compile);
    }

    /** The update from where the preparation of the store `s` has led. */
    method RunPrepared(c: Config, p: Plan, built: set<string>, ghost s: State, ghost listened: bool) returns (ok: bool)
      requires listened ==> Listening()
      requires p.receivers.Changed() ==> built == ToBuild(receivers, c.receivers)
      requires Honest(stageCache, compile) && Earlier(receivers, gen)
      requires (p.pipelines.Changed() ==> Compilable(c, compile)) && View() == Prepared(s, c, p, compile)
      modifies `senders, `tasks, `running, `stageCache, `receivers, `listening, `closing, `closed, `fault, `gen
      ensures Valid() && (ok && listened ==> Listening())
      ensures (ok <==> Delta(s, c, p, compile).1) && (ok ==> (View(), true) == Delta(s, c, p, compile))
      ensures !ok ==> W() == Lost(LoopsLeft(s, c, p, compile))
    {
      ghost var s1 := View();
      ok := RunDelta(c, p, built);
      DeltaEnds(s, c, p, compile, s1, View(), ok);
    }

    method PrepareOrGiveUp(c: Config, p: Plan, senderBuilds: set<string>, receiverBuilds: set<string>)
      returns (ok: bool, built: set<string>, ghost made: set<string>)
      requires Valid()
      modifies `selectors, `taskSets, `senders, `built, `closing, `closed, `fault,
               `pipelines, `pipelineCfg, `pipelineStageSigs, `stageCache, `gen
      ensures ok ==> (p.pipelines.Changed() ==> Compilable(c, compile)) && View() == Prepared(old(View()), c, p, compile)
      ensures ok && p.receivers.Changed() ==> built == ToBuild(receivers, c.receivers)
      ensures Compilable(c, compile) && c.senders.Keys <= senderBuilds && c.receivers.Keys <= receiverBuilds ==> ok
      ensures !ok ==> Valid() && GaveUp(old(View()), View(), c, made, compile)
      ensures Honest(stageCache, compile) && (ok ==> Earlier(receivers, gen))
    {
      ok, built, made := PrepareDelta(c, p, senderBuilds, receiverBuilds);
      if !ok {
        GiveUp();
      }
    }

    /** The update to `c` by plan `p`.  `prepared` says how far a failed one got: up to the task loops
        nothing live has changed (`made` are the senders built in vain), after that the loops stay as
        far as they went. */
    method ApplyPlan(c: Config, p: Plan, senderBuilds: set<string>, receiverBuilds: set<string>, ghost listened: bool)
      returns (ok: bool, ghost prepared: bool, ghost made: set<string>)
      requires Valid() && (listened ==> Listening())
      modifies this
      ensures Valid() && (ok && listened ==> Listening())
      ensures prepared ==> (p.pipelines.Changed() ==> Compilable(c, compile))
                           && (ok <==> Delta(old(View()), c, p, compile).1)
      ensures ok ==> prepared && (View(), true) == Delta(old(View()), c, p, compile)
      ensures Compilable(c, compile) && c.senders.Keys <= senderBuilds && c.receivers.Keys <= receiverBuilds ==> prepared
      ensures !prepared ==> GaveUp(old(View()), View(), c, made, compile)
      ensures prepared && !ok ==> W() == Lost(LoopsLeft(old(View()), c, p, compile))
    {
      ghost var s0 := View();
      var built: set<string>;
      ok, built, made := PrepareOrGiveUp(c, p, senderBuilds, receiverBuilds);
      prepared := ok;
      if ok {
        ok := RunPrepared(c, p, built, s0, listened);
      }
    }

    method ApplyBusinessDelta(c: Config, senderBuilds: set<string>, receiverBuilds: set<string>)
      returns (ok: bool, ghost p: Plan, ghost prepared: bool, ghost made: set<string>)
      requires Valid()
      modifies this
      ensures Valid() && (ok && old(Listening()) ==> Listening())
      ensures PlanFor(p, RunningConfig(old(View())), c)
      ensures prepared ==> (p.pipelines.Changed() ==> Compilable(c, compile))
                           && (ok <==> Delta(old(View()), c, p, compile).1)
      ensures ok ==> prepared && (View(), true) == Delta(old(View()), c, p, compile)
      ensures Compilable(c, compile) && c.senders.Keys <= senderBuilds && c.receivers.Keys <= receiverBuilds ==> prepared
      ensures !prepared ==> GaveUp(old(View()), View(), c, made, compile)
      ensures prepared && !ok ==> W() == Lost(LoopsLeft(old(View()), c, p, compile))
    {
      var plan := PlanReload(c);
      ok, prepared, made := ApplyPlan(c, plan, senderBuilds, receiverBuilds, Listening());
      p := plan;
    }

    // A full rebuild

    /** Receivers stop first, then all tasks, one after the other, before any sender is closed. */
    method StopAll()
      modifies `listening, `running, `closed, `fault
      ensures W() == AllStopped(old(W())) && listening == old(listening) - ReceiverIds(receivers)
    {
      listening := listening - ReceiverIds(receivers);
      ghost var w := W();
      var left := tasks.Keys;
      while left != {}
        invariant left <= tasks.Keys && W() == w.(running := w.running - (tasks.Keys - left))
        invariant listening == old(listening) - ReceiverIds(receivers)
        decreases left
      {
        var n :| n in left;
        running := running - {n};
        assert tasks.Keys - (left - {n}) == (tasks.Keys - left) + {n};
        left := left - {n};
      }
      assert tasks.Keys - left == tasks.Keys;
      CloseInstances(Insts(w, senders.Keys));
    }

    /** Index maps start over for the new configuration, before any component is built. */
    method ResetIndexes(c: Config, out: map<string, seq<Stage>>, sigs: Sigs)
      modifies `receivers, `selectors, `taskSets, `senders, `tasks, `pipelines, `pipelineCfg,
               `pipelineStageSigs, `stageCache
      ensures receivers == map[] && senders == map[] && tasks == map[]
      ensures selectors == c.selectors && taskSets == c.taskSets
      ensures pipelines == out && pipelineStageSigs == sigs && pipelineCfg == Cloned(c.pipelines)
      ensures stageCache == Collected(old(stageCache))
    {
      receivers, senders, tasks := map[], map[], map[];
      selectors := CloneSelectors(c.selectors);
      taskSets := c.taskSets;
      pipelines, pipelineStageSigs := out, sigs;
      pipelineCfg := ClonePipelines(c.pipelines);
      stageCache := GcUnusedStageCache(stageCache);
    }

    static function Populated(w: Work, next: map<string, SenderConfig>): Work {
      w.(senders := map n | n in next :: SenderState(next[n], Instance(n, w.gen), 0),
         built := w.built + set n | n in next :: Instance(n, w.gen))
    }

    method BuildAllSenders(next: map<string, SenderConfig>, builds: set<string>) returns (ok: bool)
      requires senders == map[]
      modifies `senders, `built
      ensures next.Keys <= builds ==> ok
      ensures ok ==> W() == Populated(old(W()), next)
    {
      var left := next.Keys;
      while left != {}
        invariant left <= next.Keys
        invariant senders == map n | n in next && n !in left :: SenderState(next[n], Instance(n, gen), 0)
        invariant built == old(built) + set n | n in next && n !in left :: Instance(n, gen)
        decreases left
      {
        var n :| n in left;
        if n !in builds {
          return false;
        }
        senders := senders[n := SenderState(next[n], Instance(n, gen), 0)];
        built := built + {Instance(n, gen)};
        left := left - {n};
      }
      ok := true;
    }

    /** Starting the tasks in whatever order the map yields them. */
    method AddAllTasks(configs: map<string, TaskConfig>, ghost code: Code) returns (ok: bool, ghost order: seq<string>)
      requires code == Code(pipelines, pipelineStageSigs, configs)
      modifies `senders, `tasks, `running, `stageCache, `fault
      ensures (L(), ok) == Extended(old(L()), order, [], code)
      ensures NoDuplicates(order) && Elements(order) <= configs.Keys && (ok ==> Elements(order) == configs.Keys)
    {
      ghost var l0 := L();
      order := [];
      var left := configs.Keys;
      while left != {}
        invariant left <= configs.Keys && code == Code(pipelines, pipelineStageSigs, configs)
        invariant Collects(order, configs.Keys - left)
        invariant (L(), true) == Extended(l0, order, [], code)
        decreases left
      {
        var n :| n in left;
        CollectOne(order, configs.Keys - left, n);
        assert configs.Keys - (left - {n}) == (configs.Keys - left) + {n};
        assert (order + [n])[..|order|] == order;
        left := left - {n};
        ok := AddTask(n, configs[n], code);
        order := order + [n];
        if !ok {
          return;
        }
      }
      ok := true;
    }

    method BuildAllReceivers(next: map<string, ReceiverConfig>, builds: set<string>) returns (ok: bool)
      requires receivers == map[]
      modifies `receivers
      ensures Earlier(receivers, gen + 1) && (next.Keys <= builds ==> ok)
      ensures ok ==> receivers == Committed(map[], next, gen)
    {
      var left := next.Keys;
      while left != {}
        invariant left <= next.Keys
        invariant receivers == map rn | rn in next && rn !in left :: ReceiverState(next[rn], gen, None)
        decreases left
      {
        var rn :| rn in left;
        if rn !in builds {
          return false;
        }
        receivers := receivers[rn := ReceiverState(next[rn], gen, None)];
        left := left - {rn};
      }
      ok := true;
    }

    static function Cleared(w: Work): Work {
      w.(senders := map[], tasks := map[])
    }

    method StopAndCompile(c: Config) returns (ok: bool, out: map<string, seq<Stage>>, sigs: Sigs)
      requires Honest(stageCache, compile)
      modifies `listening, `running, `closed, `fault, `stageCache
      ensures W() == AllStopped(old(W())) && listening == old(listening) - ReceiverIds(receivers)
      ensures Honest(stageCache, compile)
      ensures ok <==> Compilable(c, compile)
      ensures ok ==> out == CompiledAll(c.pipelines, compile) && sigs == SigsOf(c.pipelines)
                     && stageCache == Grown(old(stageCache), StagesIn(c.pipelines), compile)
    {
      StopAll();
      ok, out, sigs, stageCache := CompilePipelinesWithStageCache(stageCache, c.pipelines, compile);
    }

    /** Stopping everything, compiling, and resetting the index maps. */
    method StopAndReset(c: Config) returns (ok: bool)
      requires Valid()
      modifies this
      ensures Valid() && listening == old(listening) - old(ReceiverIds(receivers))
      ensures Compilable(c, compile) ==> ok
      ensures ok ==> Compilable(c, compile)
                     && View() == Staffed(c, compile, Live(Cleared(AllStopped(old(W()))), Fresh(old(View()), c, compile).cache))
    {
      var out, sigs;
      ok, out, sigs := StopAndCompile(c);
      if ok {
        ResetIndexes(c, out, sigs);
      }
    }

    /** The senders of a full rebuild of the store `s`. */
    method StaffSenders(c: Config, senderBuilds: set<string>, ghost s: State) returns (ok: bool)
      requires Compilable(c, compile)
      requires View() == Staffed(c, compile, Live(Cleared(AllStopped(s.w)), Fresh(s, c, compile).cache))
      modifies `senders, `built
      ensures c.senders.Keys <= senderBuilds ==> ok
      ensures ok ==> View() == Staffed(c, compile, Fresh(s, c, compile))
    {
      ok := BuildAllSenders(c.senders, senderBuilds);
      assert Populated(Cleared(AllStopped(s.w)), c.senders) == Rebuilt(AllStopped(s.w), c.senders);
    }

    /** What the task loop of a full rebuild starts from. */
    method RebuildSenders(c: Config, senderBuilds: set<string>) returns (ok: bool)
      requires Valid()
      modifies this
      ensures Valid() && listening == old(listening) - old(ReceiverIds(receivers))
      ensures Compilable(c, compile) && c.senders.Keys <= senderBuilds ==> ok
      ensures ok ==> Compilable(c, compile) && View() == Staffed(c, compile, Fresh(old(View()), c, compile))
    {
      ghost var s := View();
      ok := StopAndReset(c);
      if ok {
        ok := StaffSenders(c, senderBuilds, s);
      }
    }

    /** The end of a full rebuild: receivers built and wired. */
    static function Wired(s: State, c: Config): State
      requires AllResolve(s.selectors, s.taskSets, s.w.tasks)
    {
      s.(w := NextReload(s.w),
         receivers := Rewired(Committed(map[], c.receivers, s.w.gen), AllRoutes(s.selectors, s.taskSets, s.w.tasks)))
    }

    /** Selectors are compiled once before any receiver is built. */
    method CheckSelectors() returns (ok: bool)
      requires receivers == map[]
      modifies `receivers
      ensures receivers == map[] && (ok <==> AllResolve(selectors, taskSets, tasks))
    {
      ok := RebuildReceiverSelectors();
      assert receivers == map[];
    }

    method BuildAndWire(c: Config, builds: set<string>) returns (ok: bool)
      requires receivers == map[] && AllResolve(selectors, taskSets, tasks)
      modifies `receivers
      ensures Earlier(receivers, gen + 1) && (c.receivers.Keys <= builds ==> ok)
      ensures ok ==> receivers == Rewired(Committed(map[], c.receivers, gen), AllRoutes(selectors, taskSets, tasks))
    {
      ok := BuildAllReceivers(c.receivers, builds);
      if ok {
        ok := RebuildReceiverSelectors();
      }
    }

    /** All receivers start, when all are wired, and the reload is over. */
    method StartAll()
      modifies `listening, `gen
      ensures gen == old(gen) + 1 && (old(listening) == {} ==> Listening())
    {
      listening := listening + ReceiverIds(receivers);
      gen := gen + 1;
    }

    /** Building and wiring receivers once all tasks run; they start when all are wired. */
    method RebuildReceivers(c: Config, receiverBuilds: set<string>) returns (ok: bool)
      requires receivers == map[]
      modifies `receivers, `gen, `listening
      ensures Earlier(receivers, gen) && (ok && old(listening) == {} ==> Listening())
      ensures AllResolve(selectors, taskSets, tasks) && c.receivers.Keys <= receiverBuilds ==> ok
      ensures ok ==> AllResolve(selectors, taskSets, tasks) && View() == Wired(old(View()), c)
    {
      ok := CheckSelectors();
      if ok {
        ok := BuildAndWire(c, receiverBuilds);
      }
      if ok {
        StartAll();
      } else {
        gen := gen + 1;
      }
    }

    /** What the task loop of a full rebuild starts from. */
    static ghost function Fresh(s: State, c: Config, compile: Compiler): Live
      requires Compilable(c, compile)
    {
      Live(Rebuilt(AllStopped(s.w), c.senders), Collected(Grown(s.cache, StagesIn(c.pipelines), compile)))
    }

    /** The store after the task loop of a full rebuild. */
    static ghost function Staffed(c: Config, compile: Compiler, l: Live): State
      requires Compilable(c, compile)
    {
      State(l.w, map[], c.selectors, c.taskSets, CompiledAll(c.pipelines, compile), Cloned(c.pipelines),
            SigsOf(c.pipelines), l.cache)
    }

    /** The task loop of a full rebuild of the store `s`. */
    method StartTasks(c: Config, ghost s: State) returns (ok: bool, ghost order: seq<string>, ghost l: Live)
      requires Valid() && Compilable(c, compile) && View() == Staffed(c, compile, Fresh(s, c, compile))
      modifies `senders, `tasks, `running, `stageCache, `fault
      ensures Valid() && NoDuplicates(order) && Elements(order) <= c.tasks.Keys
      ensures (l, ok) == Extended(Fresh(s, c, compile), order, [], CodeFor(c, compile))
      ensures View() == Staffed(c, compile, l) && (ok ==> Elements(order) == c.tasks.Keys)
    {
      ghost var l0, code := L(), Code(pipelines, pipelineStageSigs, c.tasks);
      ok, order := AddAllTasks(c.tasks, code);
      ExtendedHonest(l0, order, code, compile);
      l := L();
    }

    /** The rebuild up to and including the task loop. */
    method RebuildTasksToo(c: Config, senderBuilds: set<string>) returns (ok: bool, ghost order: seq<string>, ghost l: Live)
      requires Valid()
      modifies this
      ensures Valid() && listening == old(listening) - old(ReceiverIds(receivers))
      ensures NoDuplicates(order) && Elements(order) <= c.tasks.Keys
      ensures ok ==> Compilable(c, compile) && Elements(order) == c.tasks.Keys
                     && (l, true) == Extended(Fresh(old(View()), c, compile), order, [], CodeFor(c, compile))
                     && View() == Staffed(c, compile, l)
      ensures Loadable(c, compile) && Replaceable(old(View()), compile) ==>
                && (c.senders.Keys <= senderBuilds ==> ok)
                && (ok ==> AllResolve(c.selectors, c.taskSets, l.w.tasks))
    {
      ghost var s0 := View();
      order := [];
      ok := RebuildSenders(c, senderBuilds);
      if ok {
        ok, order, l := StartTasks(c, s0);
        NeverRefused(s0, c, order, compile, Fresh(s0, c, compile));
      } else {
        l := L();
      }
    }

    static lemma FullIs(s: State, c: Config, order: seq<string>, compile: Compiler, l: Live)
      requires Compilable(c, compile)
      requires (l, true) == Extended(Fresh(s, c, compile), order, [], CodeFor(c, compile))
      ensures AllResolve(c.selectors, c.taskSets, l.w.tasks) ==>
                Full(s, c, order, compile) == (Wired(Staffed(c, compile, l), c), true)
    {
      GenKept(s, c, order, compile, l);
    }

    /** The receivers of a full rebuild of the store `s`; `l` is what the task loop left. */
    method FinishRebuild(c: Config, receiverBuilds: set<string>, ghost s: State, ghost order: seq<string>, ghost l: Live)
      returns (ok: bool)
      requires Valid() && Compilable(c, compile) && View() == Staffed(c, compile, l)
      requires (l, true) == Extended(Fresh(s, c, compile), order, [], CodeFor(c, compile))
      modifies `receivers, `gen, `listening
      ensures Valid() && (ok && old(listening) == {} ==> Listening())
      ensures ok ==> (View(), true) == Full(s, c, order, compile)
      ensures AllResolve(c.selectors, c.taskSets, l.w.tasks) && c.receivers.Keys <= receiverBuilds ==> ok
    {
      ok := RebuildReceivers(c, receiverBuilds);
      FullEnds(s, c, order, compile, l, View(), ok);
    }

    method ReplaceAll(c: Config, senderBuilds: set<string>, receiverBuilds: set<string>)
      returns (ok: bool, ghost order: seq<string>)
      requires Valid()
      modifies this
      ensures Valid() && (ok && old(Listening()) ==> Listening())
      ensures ok ==> Compilable(c, compile) && NoDuplicates(order) && Elements(order) == c.tasks.Keys
                     && (View(), true) == Full(old(View()), c, order, compile)
      ensures Loadable(c, compile) && Replaceable(old(View()), compile) ==>
                (c.senders.Keys <= senderBuilds && c.receivers.Keys <= receiverBuilds ==> ok)
    {
      ghost var s0 := View();
      ghost var l;
      ok, order, l := RebuildTasksToo(c, senderBuilds);
      if ok {
        ok := FinishRebuild(c, receiverBuilds, s0, order, l);
      }
    }

    static lemma FullEnds(s: State, c: Config, order: seq<string>, compile: Compiler, l: Live, t: State, ok: bool)
      requires ok ==> Compilable(c, compile)
                      && (l, true) == Extended(Fresh(s, c, compile), order, [], CodeFor(c, compile))
                      && AllResolve(c.selectors, c.taskSets, l.w.tasks) && t == Wired(Staffed(c, compile, l), c)
      ensures ok ==> Compilable(c, compile) && (t, true) == Full(s, c, order, compile)
    {
      if ok {
        FullIs(s, c, order, compile, l);
      }
    }

    /** Starting tasks does not move on to the next reload. */
    static lemma {:induction false} GenKept(s: State, c: Config, order: seq<string>, compile: Compiler, l: Live)
      requires Compilable(c, compile)
      requires l == Extended(Fresh(s, c, compile), order, [], CodeFor(c, compile)).0
      ensures l.w.gen == s.w.gen
    {
      if order != [] {
        GenKept(s, c, order[..|order| - 1], compile,
                Extended(Fresh(s, c, compile), order[..|order| - 1], [], CodeFor(c, compile)).0);
      }
    }

    /** With a loadable configuration no task is refused, whatever the order. */
    static lemma NeverRefused(s: State, c: Config, order: seq<string>, compile: Compiler, l0: Live)
      requires Compilable(c, compile) && NoDuplicates(order) && Elements(order) <= c.tasks.Keys
      requires l0.w == Rebuilt(AllStopped(s.w), c.senders)
      ensures Loadable(c, compile) && Replaceable(s, compile) ==>
                Extended(l0, order, [], CodeFor(c, compile)).1
      ensures Loadable(c, compile) && Replaceable(s, compile) && Elements(order) == c.tasks.Keys ==>
                AllResolve(c.selectors, c.taskSets, Extended(l0, order, [], CodeFor(c, compile)).0.w.tasks)
    {
      if Loadable(c, compile) && Replaceable(s, compile) {
        RebuiltOk(s.w, c.senders);
        LoadableAddable(l0, c, compile);
        ExtendedOk(l0, l0, order, [], CodeFor(c, compile));
        if Elements(order) == c.tasks.Keys {
          RebuiltTasks(s, c, order, compile, l0);
          TasksResolve(c, Extended(l0, order, [], CodeFor(c, compile)).0.w.tasks);
        }
      }
    }

    ghost predicate Empty()
      reads this
    {
      receivers == map[] && senders == map[] && tasks == map[]
    }

    /** The store is empty and replaceable, or holds some configuration `c0`: it runs it, or an update
        has failed on it before any task was touched. */
    ghost predicate Settled(c0: Config)
      reads this
    {
      if Empty() then Replaceable(View(), compile) else Held(View(), c0, compile)
    }

    /** One reload, of any configuration, on any store, also one a failed reload has left: a success
        is exactly a full rebuild of an empty store, or else an incremental update (`p` its plan,
        `order` the order in which a rebuild started the tasks).  A settled store accepts every
        loadable configuration when what must be built can be.  After a success it runs the new
        configuration if and only if that one is loadable and routes were made anew or had been
        right; an empty store makes sure of both.  A failure before any task was touched (`prepared`
        is false) leaves a settled store settled. */
    method UpdateCache(c: Config, senderBuilds: set<string>, receiverBuilds: set<string>, ghost c0: Config)
      returns (ok: bool, ghost order: seq<string>, ghost p: Plan, ghost prepared: bool, ghost made: set<string>)
      requires Valid()
      modifies this
      ensures Valid() && (ok && old(Listening()) ==> Listening())
      ensures ok ==>
                if old(Empty())
                then Compilable(c, compile) && NoDuplicates(order) && Elements(order) == c.tasks.Keys
                     && (View(), true) == Full(old(View()), c, order, compile)
                else PlanFor(p, RunningConfig(old(View())), c) && (p.pipelines.Changed() ==> Compilable(c, compile))
                     && (View(), true) == Delta(old(View()), c, p, compile)
      ensures old(Settled(c0)) && Loadable(c, compile) ==>
                (c.senders.Keys <= senderBuilds && c.receivers.Keys <= receiverBuilds ==> ok)
      ensures old(Settled(c0)) && ok ==>
                (Runs(View(), c, compile) <==>
                 Loadable(c, compile) && (old(Empty()) || MustRewire(p) || old(RoutesRun(receivers, c, tasks))))
      ensures old(Settled(c0)) && ok && old(Empty()) ==> Loadable(c, compile)
      ensures old(Runs(View(), c0, compile)) && ok && !old(Empty()) ==>
                (Runs(View(), c, compile) <==> Loadable(c, compile))
      ensures old(Settled(c0)) && ok && Loadable(c, compile) ==> Held(View(), c, compile)
      ensures !prepared ==> !ok && GaveUp(old(View()), View(), c, made, compile) && (old(Settled(c0)) ==> Settled(c0))
    {
      ghost var s0, settled := View(), Settled(c0);
      p := Plan(Names([], []), Names([], []), Names([], []), Names([], []), Names([], []), Names([], []));
      order, prepared, made := [], true, {};
      if |receivers| == 0 && |senders| == 0 && |tasks| == 0 {
        ok, order := ReplaceAll(c, senderBuilds, receiverBuilds);
        FullSettled(s0, c, order, compile, settled, ok);
      } else {
        ok, p, prepared, made := ApplyBusinessDelta(c, senderBuilds, receiverBuilds);
        DeltaSettled(s0, c0, c, p, compile, settled && (ok || Loadable(c, compile)));
        StillSettled(s0, View(), c0, c, made, compile, settled && !prepared);
      }
    }

    static lemma FullSettled(s: State, c: Config, order: seq<string>, compile: Compiler, settled: bool, ok: bool)
      requires ok ==> Compilable(c, compile) && NoDuplicates(order) && Elements(order) == c.tasks.Keys
                      && Full(s, c, order, compile).1
      requires settled ==> Replaceable(s, compile)
      ensures settled && ok ==> Loadable(c, compile) && Runs(Full(s, c, order, compile).0, c, compile)
                                && Held(Full(s, c, order, compile).0, c, compile)
    {
      if settled && ok {
        FullSucceedsExactly(s, c, order, compile);
        FullRuns(s, c, order, compile);
      }
    }

    static lemma StillSettled(s: State, t: State, c0: Config, c: Config, made: set<string>, compile: Compiler, asked: bool)
      requires asked ==> Held(s, c0, compile) && GaveUp(s, t, c, made, compile)
      ensures asked ==> Held(t, c0, compile)
    {
      if asked {
        GaveUpHeld(s, t, c0, c, made, compile);
      }
    }

    static lemma DeltaSettled(s: State, c0: Config, c: Config, p: Plan, compile: Compiler, asked: bool)
      requires asked ==> Held(s, c0, compile) && PlanFor(p, RunningConfig(s), c)
                         && (p.pipelines.Changed() ==> Compilable(c, compile))
      ensures asked && Loadable(c, compile) ==>
                Delta(s, c, p, compile).1 && Held(Delta(s, c, p, compile).0, c, compile)
      ensures asked && Delta(s, c, p, compile).1 ==>
                (Runs(Delta(s, c, p, compile).0, c, compile) <==>
                 Loadable(c, compile) && (MustRewire(p) || RoutesRun(s.receivers, c, s.w.tasks)))
      ensures asked && Runs(s, c0, compile) && Delta(s, c, p, compile).1 ==>
                (Runs(Delta(s, c, p, compile).0, c, compile) <==> Loadable(c, compile))
    {
      if asked {
        HeldDelta(s, c0, c, p, compile);
        if Runs(s, c0, compile) {
          DeltaRunsExactly(s, c0, c, p, compile);
        }
      }
    }
  }

  /** Receivers part-way through a commit: those in `left` are not in place yet. */
  ghost function Partly(receivers: map<string, ReceiverState>, next: map<string, ReceiverConfig>, gen: nat, left: set<string>)
    : map<string, ReceiverState>
  {
    map rn | rn in next && (rn in receivers || rn !in left) ::
      if rn in receivers && (receivers[rn].cfg == next[rn] || rn in left) then receivers[rn]
      else ReceiverState(next[rn], gen, None)
  }

  /** Receiver instances by name and the reload that built them. */
  ghost function ReceiverIds(receivers: map<string, ReceiverState>): set<(string, nat)> {
    set rn | rn in receivers :: (rn, receivers[rn].gen)
  }

  ghost predicate Earlier(receivers: map<string, ReceiverState>, gen: nat) {
    forall rn :: rn in receivers ==> receivers[rn].gen < gen
  }

  lemma PartlyEarlier(receivers: map<string, ReceiverState>, before: map<string, ReceiverState>,
                      next: map<string, ReceiverConfig>, gen: nat, left: set<string>)
    requires SameReceiversButRoutes(receivers, Partly(before, next, gen, left)) && Earlier(before, gen)
    ensures Earlier(receivers, gen + 1)
  {
  }

  lemma InIds(receivers: map<string, ReceiverState>, id: (string, nat))
    ensures id in ReceiverIds(receivers) <==> id.0 in receivers && receivers[id.0].gen == id.1
  {
    if id.0 in receivers && receivers[id.0].gen == id.1 {
      assert (id.0, receivers[id.0].gen) == id;
    }
  }

  lemma SameIds(a: map<string, ReceiverState>, b: map<string, ReceiverState>)
    requires SameReceiversButRoutes(a, b)
    ensures ReceiverIds(a) == ReceiverIds(b)
  {
    forall id
      ensures id in ReceiverIds(a) <==> id in ReceiverIds(b)
    {
      InIds(a, id);
      InIds(b, id);
    }
  }

  function Outside(receivers: map<string, ReceiverState>, keep: set<string>): map<string, ReceiverState> {
    map rn | rn in receivers && rn !in keep :: receivers[rn]
  }

  lemma IdsDropped(receivers: map<string, ReceiverState>, keep: set<string>)
    ensures ReceiverIds(receivers) - ReceiverIds(Outside(receivers, keep)) ==
            ReceiverIds(map rn | rn in receivers && rn in keep :: receivers[rn])
  {
    var kept := map rn | rn in receivers && rn in keep :: receivers[rn];
    forall id
      ensures id in ReceiverIds(kept) <==> id in ReceiverIds(receivers) && id !in ReceiverIds(Outside(receivers, keep))
    {
      InIds(receivers, id);
      InIds(Outside(receivers, keep), id);
      InIds(kept, id);
    }
  }

  lemma IdsReplaced(before: map<string, ReceiverState>, after: map<string, ReceiverState>, rn: string, cfg: ReceiverConfig, gen: nat)
    requires SameReceiversButRoutes(after, before[rn := ReceiverState(cfg, gen, None)])
    requires rn in before ==> before[rn].gen < gen
    ensures ReceiverIds(after) ==
      (ReceiverIds(before) + {(rn, gen)}) - (if rn in before then {(rn, before[rn].gen)} else {})
  {
    forall id
      ensures id in ReceiverIds(after) <==>
        (id in ReceiverIds(before) || id == (rn, gen)) && !(rn in before && id == (rn, before[rn].gen))
    {
      InIds(before, id);
      InIds(after, id);
    }
  }

  /** The receiver a turn replaces is of an earlier reload. */
  lemma IdsAfterOne(receivers: map<string, ReceiverState>, before: map<string, ReceiverState>,
                    next: map<string, ReceiverConfig>, gen: nat, left: set<string>, rn: string)
    requires rn in left && rn in next && (rn !in before || before[rn].cfg != next[rn])
    requires SameReceiversButRoutes(receivers, Partly(before, next, gen, left))
    requires forall r :: r in before ==> before[r].gen < gen
    ensures rn in receivers ==> receivers[rn].gen < gen
  {
  }

  lemma PartlyOne(receivers: map<string, ReceiverState>, before: map<string, ReceiverState>,
                  next: map<string, ReceiverConfig>, gen: nat, left: set<string>, rn: string)
    requires rn in left && rn in next && (rn !in before || before[rn].cfg != next[rn])
    requires SameReceiversButRoutes(receivers, Partly(before, next, gen, left))
    ensures SameReceiversButRoutes(receivers[rn := ReceiverState(next[rn], gen, None)], Partly(before, next, gen, left - {rn}))
  {
  }

  /** Equal up to routes, which the next rewiring sets anyway. */
  ghost predicate SameReceiversButRoutes(a: map<string, ReceiverState>, b: map<string, ReceiverState>) {
    a.Keys == b.Keys && forall rn :: rn in a ==> a[rn].cfg == b[rn].cfg && a[rn].gen == b[rn].gen
  }

  lemma RewiredSame(a: map<string, ReceiverState>, b: map<string, ReceiverState>, routes: map<string, Routes>)
    requires SameReceiversButRoutes(a, b)
    ensures Rewired(a, routes) == Rewired(b, routes)
  {
    forall rn | rn in a
      ensures Rewired(a, routes)[rn] == Rewired(b, routes)[rn]
    {
    }
  }
}
