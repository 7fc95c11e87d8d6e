/**
 * What a store that runs a configuration looks like, and why an incremental update and a full
 * rebuild both lead to it.
 *
 * `Runs` is the meaning of "the store runs configuration `c`".  The lemmas here are about the parts
 * of a reload before the task loops: senders whose configuration did not change keep their instance,
 * and pipelines that did not change keep their stages.
 */
module ReloadSteps {
  import opened Config
  import opened DeltaPlan
  import opened Stages
  import opened StageCache
  import opened StageRefs
  import opened StoreState
  import opened StoreWork
  import opened TaskRun
  import opened Text

  /** Every stage compiles and nothing is named that is not configured.  No sender, task or receiver
      is mentioned beyond that: whether it can be built is another matter. */
  ghost predicate Loadable(c: Config, compile: Compiler) {
    && Compilable(c, compile)
    && (forall tn :: tn in c.tasks ==> TaskLoadable(c.tasks[tn], c))
    && (forall sn :: sn in c.selectors ==> SelectorLoadable(c.selectors[sn], c))
  }

  predicate SetLoadable(name: string, c: Config) {
    forall i :: 0 <= i < |Expand(c.taskSets, name)| ==> Expand(c.taskSets, name)[i] in c.tasks
  }

  predicate SelectorLoadable(sc: SelectorConfig, c: Config) {
    && (forall key :: key in sc.matches ==> SetLoadable(sc.matches[key], c))
    && (sc.defaultTaskSet != "" ==> SetLoadable(sc.defaultTaskSet, c))
  }

  predicate TaskLoadable(t: TaskConfig, c: Config) {
    && (forall i :: 0 <= i < |t.pipelines| ==> t.pipelines[i] in c.pipelines)
    && (forall i :: 0 <= i < |t.senders| ==> t.senders[i] in c.senders)
  }

  // What a store that runs `c` looks like

  /** A live task is what the configuration and the current senders make of it. */
  ghost predicate TaskRuns(ts: TaskState, n: string, tc: TaskConfig, pipelines: map<string, seq<Stage>>,
                           senders: map<string, SenderState>) {
    && ts.name == n && ts.cfg == tc
    && KnownPipelines(tc.pipelines, pipelines) && ts.stages == StagesFor(tc.pipelines, pipelines)
    && Attached(ts, senders, {})
  }

  ghost predicate TasksRun(tasks: map<string, TaskState>, c: Config, pipelines: map<string, seq<Stage>>,
                           senders: map<string, SenderState>) {
    tasks.Keys == c.tasks.Keys && forall n :: n in tasks ==> TaskRuns(tasks[n], n, c.tasks[n], pipelines, senders)
  }

  ghost predicate SendersRun(senders: map<string, SenderState>, c: Config) {
    forall sn :: sn in senders ==> sn in c.senders && senders[sn].cfg == c.senders[sn]
  }

  ghost predicate WorkRuns(w: Work, c: Config, pipelines: map<string, seq<Stage>>) {
    && WorkOk(w) && w.closing == {} && BuiltBefore(w, w.gen)
    && SendersRun(w.senders, c)
    && TasksRun(w.tasks, c, pipelines, w.senders)
  }

  ghost predicate CodeRuns(s: State, c: Config, compile: Compiler) {
    && Compilable(c, compile)
    && s.pipelines == CompiledAll(c.pipelines, compile)
    && s.pipelineCfg == Cloned(c.pipelines)
    && s.sigs == SigsOf(c.pipelines)
    && Honest(s.cache, compile)
  }

  ghost predicate RoutesRun(receivers: map<string, ReceiverState>, c: Config, tasks: map<string, TaskState>) {
    && receivers.Keys == c.receivers.Keys
    && AllResolve(c.selectors, c.taskSets, tasks)
    && (forall rn :: rn in receivers ==>
          receivers[rn].cfg == c.receivers[rn]
          && receivers[rn].routes == RouteOf(AllRoutes(c.selectors, c.taskSets, tasks), c.receivers[rn].selector))
  }

  ghost predicate Runs(s: State, c: Config, compile: Compiler) {
    && WorkRuns(s.w, c, s.pipelines)
    && CodeRuns(s, c, compile)
    && s.selectors == c.selectors && s.taskSets == c.taskSets
    && RoutesRun(s.receivers, c, s.w.tasks)
  }

  ghost predicate ReceiversAre(receivers: map<string, ReceiverState>, next: map<string, ReceiverConfig>) {
    receivers.Keys == next.Keys && forall rn :: rn in receivers ==> receivers[rn].cfg == next[rn]
  }

  /** A store that runs `c` as far as tasks, senders, pipelines and receivers go; its selectors and
      what its receivers are routed to may be anything. */
  ghost predicate Held(s: State, c: Config, compile: Compiler) {
    WorkRuns(s.w, c, s.pipelines) && CodeRuns(s, c, compile) && ReceiversAre(s.receivers, c.receivers)
  }

  // Senders

  ghost predicate HasSenders(senders: map<string, SenderState>, next: map<string, SenderConfig>) {
    forall sn :: sn in next ==> sn in senders && senders[sn].cfg == next[sn]
  }

  function Snapshot(senders: map<string, SenderState>): map<string, SenderConfig> {
    map sn | sn in senders :: senders[sn].cfg
  }

  /** Senders whose configuration did not change keep their instance. */
  ghost predicate SameInstances(before: map<string, SenderState>, after: map<string, SenderState>, changed: set<string>) {
    forall sn :: sn in before && sn !in changed ==> sn in after && after[sn].inst == before[sn].inst
  }

  lemma SenderDeltaShape(w: Work, next: map<string, SenderConfig>)
    ensures HasSenders(SenderDelta(w, next).senders, next)
    ensures SameInstances(w.senders, SenderDelta(w, next).senders, ChangedNames(Snapshot(w.senders), next))
    ensures SenderDelta(w, next).tasks == w.tasks && SenderDelta(w, next).gen == w.gen
  {
    var snap := Snapshot(w.senders);
    forall sn | sn in w.senders && sn !in ChangedNames(snap, next)
      ensures sn in next && w.senders[sn].cfg == next[sn]
    {
      assert sn !in RemovedNames(snap, next);
    }
  }

  lemma SenderDeltaOk(w: Work, next: map<string, SenderConfig>)
    requires WorkOk(w) && BuiltBefore(w, w.gen)
    ensures WorkOk(SenderDelta(w, next)) && BuiltBefore(SenderDelta(w, next), w.gen + 1)
  {
    ReplacedOk(w, next);
    var u := SendersReplaced(w, next);
    DroppedOk(u, set n | n in u.senders && Droppable(u, next, n));
  }

  /** The senders as the task loops find them. */
  lemma WithSendersOk(w: Work, c: Config, p: Plan)
    requires WorkOk(w) && BuiltBefore(w, w.gen) && (p.senders.Changed() <==> Snapshot(w.senders) != c.senders)
    ensures var u := WithSenders(w, c, p);
            && WorkOk(u) && BuiltBefore(u, w.gen + 1) && u.tasks == w.tasks && u.gen == w.gen
            && HasSenders(u.senders, c.senders)
            && SameInstances(w.senders, u.senders, ChangedNames(Snapshot(w.senders), c.senders))
  {
    if p.senders.Changed() {
      SenderDeltaShape(w, c.senders);
      SenderDeltaOk(w, c.senders);
    } else {
      assert forall sn :: sn in c.senders ==> sn in Snapshot(w.senders);
    }
  }

  /** A task none of whose senders changed is still bound to current instances. */
  lemma StaysCurrent(ts: TaskState, before: map<string, SenderState>, after: map<string, SenderState>, changed: set<string>)
    requires Attached(ts, before, {}) && SameInstances(before, after, changed) && !Touches(ts.cfg.senders, changed)
    ensures Attached(ts, after, {})
  {
    forall i | 0 <= i < |ts.bound|
      ensures ts.cfg.senders[i] in after && ts.bound[i] == after[ts.cfg.senders[i]].inst
    {
      assert ts.cfg.senders[i] !in changed;
    }
  }

  // Pipelines

  lemma ClonedStages(pipelines: map<string, StageList>, pn: string)
    requires pn in pipelines
    ensures pn in Cloned(pipelines) && StagesOf(Cloned(pipelines)[pn]) == StagesOf(pipelines[pn])
  {
  }

  /** A copy equal to the new pipelines has the same stage lists, and is its own copy. */
  lemma CloneEqual(before: map<string, StageList>, after: map<string, StageList>)
    requires Cloned(before) == after
    ensures SigsOf(before) == SigsOf(after) && StagesIn(before) == StagesIn(after) && Cloned(after) == Cloned(before)
  {
    assert before.Keys == after.Keys;
    forall pn | pn in before
      ensures StagesOf(before[pn]) == StagesOf(after[pn])
    {
      ClonedStages(before, pn);
      assert after[pn] == Cloned(before)[pn];
    }
    SameStagesIn(before, after);
  }

  lemma SameStagesIn(before: map<string, StageList>, after: map<string, StageList>)
    requires before.Keys == after.Keys && forall pn :: pn in before ==> StagesOf(before[pn]) == StagesOf(after[pn])
    ensures StagesIn(before) == StagesIn(after)
  {
    forall sig
      ensures sig in StagesIn(before) <==> sig in StagesIn(after)
    {
      if sig in StagesIn(before) {
        var pn :| pn in before && sig in StagesOf(before[pn]);
        assert pn in after && sig in StagesOf(after[pn]);
      }
      if sig in StagesIn(after) {
        var pn :| pn in after && sig in StagesOf(after[pn]);
        assert pn in before && sig in StagesOf(before[pn]);
      }
    }
  }

  lemma CloneCompiles(before: map<string, StageList>, after: map<string, StageList>, compile: Compiler)
    requires Cloned(before) == after && AllCompile(before, compile) && AllCompile(after, compile)
    ensures CompiledAll(before, compile) == CompiledAll(after, compile)
  {
    assert before.Keys == after.Keys;
    forall pn | pn in before
      ensures CompiledAll(before, compile)[pn] == CompiledAll(after, compile)[pn]
    {
      ClonedStages(before, pn);
      assert after[pn] == Cloned(before)[pn];
    }
  }

  lemma GrownHonest(cache: Cache, sigs: set<StageConfig>, compile: Compiler)
    requires Honest(cache, compile) && forall sig :: sig in sigs ==> compile(sig).Some?
    ensures Honest(Collected(Grown(cache, sigs, compile)), compile)
  {
  }

  lemma CloneTwice(pipelines: map<string, StageList>)
    ensures Cloned(Cloned(pipelines)) == Cloned(pipelines)
  {
    assert Cloned(Cloned(pipelines)).Keys == Cloned(pipelines).Keys;
    forall pn | pn in pipelines
      ensures Cloned(Cloned(pipelines))[pn] == Cloned(pipelines)[pn]
    {
      ClonedStages(pipelines, pn);
    }
  }

  /** The compiled pipelines as the task loops find them. */
  lemma WithPipelinesOk(s: State, c0: Config, c: Config, p: Plan, compile: Compiler)
    requires CodeRuns(s, c0, compile) && Compilable(c, compile)
    requires p.pipelines.Changed() <==> Cloned(s.pipelineCfg) != c.pipelines
    ensures CodeRuns(WithPipelines(s, c, p, compile), c, compile)
    ensures WithPipelines(s, c, p, compile).w == s.w
    ensures var t := WithPipelines(s, c, p, compile);
      t.selectors == s.selectors && t.taskSets == s.taskSets && t.receivers == s.receivers
  {
    if p.pipelines.Changed() {
      GrownHonest(s.cache, StagesIn(c.pipelines), compile);
    } else {
      CloneTwice(c0.pipelines);
      CloneEqual(c0.pipelines, c.pipelines);
      CloneCompiles(c0.pipelines, c.pipelines, compile);
    }
  }

  /** A task none of whose pipelines changed still runs the stages the new configuration asks for. */
  lemma StagesStay(names: seq<string>, before: map<string, StageList>, after: map<string, StageList>, compile: Compiler)
    requires AllCompile(before, compile) && AllCompile(after, compile)
    requires KnownPipelines(names, CompiledAll(before, compile)) && KnownPipelines(names, CompiledAll(after, compile))
    requires !Touches(names, ChangedNames(Cloned(before), after))
    ensures StagesFor(names, CompiledAll(before, compile)) == StagesFor(names, CompiledAll(after, compile))
  {
    forall i | 0 <= i < |names|
      ensures StagesFor(names, CompiledAll(before, compile))[i] == StagesFor(names, CompiledAll(after, compile))[i]
    {
      var pn := names[i];
      assert pn !in ChangedNames(Cloned(before), after);
      assert pn in Cloned(before) && pn in after;
      assert Cloned(before)[pn] == after[pn];
      ClonedStages(before, pn);
    }
  }
}
