/**
 * The whole store as a value, and what a full rebuild and an incremental update make of it.  Both
 * are composed of the store's steps in the order the code performs them; the builds of senders and
 * receivers succeed, while compile, task and selector failures are results of their own.
 */
module StoreState {
  import opened Config
  import opened DeltaPlan
  import opened Options
  import opened Stages
  import opened StageCache
  import opened StageRefs
  import opened StoreWork
  import opened Text

  /** A compiled selector, expanded to live tasks. */
  datatype Routes = Routes(byKey: map<string, seq<TaskState>>, fallback: seq<TaskState>)

  datatype ReceiverState = ReceiverState(cfg: ReceiverConfig, gen: nat, routes: Option<Routes>)

  datatype State = State(
    w: Work,
    receivers: map<string, ReceiverState>,
    selectors: map<string, SelectorConfig>,
    taskSets: map<string, seq<string>>,
    pipelines: map<string, seq<Stage>>,
    pipelineCfg: map<string, StageList>,
    sigs: Sigs,
    cache: Cache)

  const EMPTY: State :=
    State(Work(0, map[], map[], map[], {}, {}, multiset{}, false), map[], map[], map[], map[], map[], map[], map[])

  // Selectors

  function Expand(taskSets: map<string, seq<string>>, name: string): seq<string> {
    if name in taskSets then taskSets[name] else []
  }

  predicate Resolves(taskSets: map<string, seq<string>>, tasks: map<string, TaskState>, name: string) {
    forall i :: 0 <= i < |Expand(taskSets, name)| ==> Expand(taskSets, name)[i] in tasks
  }

  function Resolved(taskSets: map<string, seq<string>>, tasks: map<string, TaskState>, name: string): seq<TaskState>
    requires Resolves(taskSets, tasks, name)
  {
    seq(|Expand(taskSets, name)|, i requires 0 <= i < |Expand(taskSets, name)| => tasks[Expand(taskSets, name)[i]])
  }

  predicate SelectorResolves(sc: SelectorConfig, taskSets: map<string, seq<string>>, tasks: map<string, TaskState>) {
    && (forall key :: key in sc.matches ==> Resolves(taskSets, tasks, sc.matches[key]))
    && (sc.defaultTaskSet != "" ==> Resolves(taskSets, tasks, sc.defaultTaskSet))
  }

  function SelectorRoutes(sc: SelectorConfig, taskSets: map<string, seq<string>>, tasks: map<string, TaskState>): Routes
    requires SelectorResolves(sc, taskSets, tasks)
  {
    Routes(map key | key in sc.matches :: Resolved(taskSets, tasks, sc.matches[key]),
           if sc.defaultTaskSet != "" then Resolved(taskSets, tasks, sc.defaultTaskSet) else [])
  }

  predicate AllResolve(selectors: map<string, SelectorConfig>, taskSets: map<string, seq<string>>,
                       tasks: map<string, TaskState>) {
    forall sn :: sn in selectors ==> SelectorResolves(selectors[sn], taskSets, tasks)
  }

  function AllRoutes(selectors: map<string, SelectorConfig>, taskSets: map<string, seq<string>>,
                     tasks: map<string, TaskState>): map<string, Routes>
    requires AllResolve(selectors, taskSets, tasks)
  {
    map sn | sn in selectors :: SelectorRoutes(selectors[sn], taskSets, tasks)
  }

  function RouteOf(routes: map<string, Routes>, selector: string): Option<Routes> {
    if selector in routes then Some(routes[selector]) else None
  }

  function Rewired(receivers: map<string, ReceiverState>, routes: map<string, Routes>): map<string, ReceiverState> {
    map rn | rn in receivers :: receivers[rn].(routes := RouteOf(routes, receivers[rn].cfg.selector))
  }

  /** `Match`: one exact lookup, else the fallback; a receiver without a selector matches nothing. */
  function Matched(routes: Option<Routes>, key: string): seq<TaskState> {
    match routes
    case None => []
    case Some(r) => if key in r.byKey then r.byKey[key] else r.fallback
  }

  // Receivers

  function Committed(receivers: map<string, ReceiverState>, next: map<string, ReceiverConfig>, gen: nat)
    : map<string, ReceiverState>
  {
    map rn | rn in next ::
      if rn in receivers && receivers[rn].cfg == next[rn] then receivers[rn] else ReceiverState(next[rn], gen, None)
  }

  // Pipelines

  /** Copying a stage list: an empty one becomes nil. */
  function Cloned(pipelines: map<string, StageList>): map<string, StageList> {
    map pn | pn in pipelines :: if StagesOf(pipelines[pn]) == [] then Nil else pipelines[pn]
  }

  predicate KnownPipelines(names: seq<string>, pipelines: map<string, seq<Stage>>) {
    forall i :: 0 <= i < |names| ==> names[i] in pipelines
  }

  function StagesFor(names: seq<string>, pipelines: map<string, seq<Stage>>): seq<seq<Stage>>
    requires KnownPipelines(names, pipelines)
  {
    seq(|names|, i requires 0 <= i < |names| => pipelines[names[i]])
  }

  // Tasks

  datatype Live = Live(w: Work, cache: Cache)

  /** What the task loops read but do not change. */
  datatype Code = Code(pipelines: map<string, seq<Stage>>, sigs: Sigs, tasks: map<string, TaskConfig>)

  function TakenDown(l: Live, n: string, code: Code): Live {
    Live(Stopped(Unregistered(l.w, n), n),
         if n in l.w.tasks then Released(l.cache, Uses(code.sigs, l.w.tasks[n].cfg.pipelines), n) else l.cache)
  }

  predicate Addable(l: Live, tc: TaskConfig, code: Code) {
    KnownPipelines(tc.pipelines, code.pipelines) && KnownSenders(l.w.senders, tc.senders)
  }

  /** A task that names an unknown pipeline or sender is refused and leaves nothing behind. */
  ghost function BroughtUp(l: Live, n: string, tc: TaskConfig, code: Code): (Live, bool) {
    if Addable(l, tc, code) then
      (Live(Registered(l.w, n, tc, StagesFor(tc.pipelines, code.pipelines)),
            Retained(l.cache, Uses(code.sigs, tc.pipelines), n)), true)
    else (l, false)
  }

  /** The first task loop: take each removed task down and bring it back up if it is also added. */
  ghost function Restarted(l: Live, names: seq<string>, added: seq<string>, code: Code): (Live, bool) {
    if names == [] then (l, true)
    else
      var (before, ok) := Restarted(l, names[..|names| - 1], added, code);
      var n := names[|names| - 1];
      if !ok then (before, false)
      else if n in added && n in code.tasks then BroughtUp(TakenDown(before, n, code), n, code.tasks[n], code)
      else (TakenDown(before, n, code), true)
  }

  /** The second task loop: tasks that are added without having been removed. */
  ghost function Extended(l: Live, names: seq<string>, removed: seq<string>, code: Code): (Live, bool) {
    if names == [] then (l, true)
    else
      var (before, ok) := Extended(l, names[..|names| - 1], removed, code);
      var n := names[|names| - 1];
      if !ok then (before, false)
      else if n !in removed && n in code.tasks then BroughtUp(before, n, code.tasks[n], code)
      else (before, true)
  }

  function Users(tasks: map<string, TaskState>): map<string, seq<string>> {
    map n | n in tasks :: tasks[n].cfg.pipelines
  }

  function NextReload(w: Work): Work {
    w.(gen := w.gen + 1)
  }

  // A full rebuild

  ghost function Full(s: State, c: Config, names: seq<string>, compile: Compiler): (State, bool)
    requires AllCompile(c.pipelines, compile) && forall sig :: sig in StagesIn(c.pipelines) ==> compile(sig).Some?
  {
    var code := Code(CompiledAll(c.pipelines, compile), SigsOf(c.pipelines), c.tasks);
    var cache := Collected(Grown(s.cache, StagesIn(c.pipelines), compile));
    var (l, ok) := Extended(Live(Rebuilt(AllStopped(s.w), c.senders), cache), names, [], code);
    if !ok || !AllResolve(c.selectors, c.taskSets, l.w.tasks) then (s, false)
    else
      (State(NextReload(l.w),
             Rewired(Committed(map[], c.receivers, s.w.gen), AllRoutes(c.selectors, c.taskSets, l.w.tasks)),
             c.selectors, c.taskSets, code.pipelines, Cloned(c.pipelines), code.sigs, l.cache), true)
  }

  // An incremental update

  function RunningConfig(s: State): Running {
    Running(
      map rn | rn in s.receivers :: s.receivers[rn].cfg,
      s.selectors,
      s.taskSets,
      map sn | sn in s.w.senders :: s.w.senders[sn].cfg,
      Cloned(s.pipelineCfg),
      map tn | tn in s.w.tasks :: s.w.tasks[tn].cfg)
  }

  ghost function WithSenders(w: Work, c: Config, p: Plan): Work {
    if p.senders.Changed() then SenderDelta(w, c.senders) else w
  }

  ghost function WithPipelines(s: State, c: Config, p: Plan, compile: Compiler): State
    requires p.pipelines.Changed() ==>
               AllCompile(c.pipelines, compile) && forall sig :: sig in StagesIn(c.pipelines) ==> compile(sig).Some?
  {
    if p.pipelines.Changed() then
      s.(pipelines := CompiledAll(c.pipelines, compile), pipelineCfg := Cloned(c.pipelines),
         sigs := SigsOf(c.pipelines), cache := Collected(Grown(s.cache, StagesIn(c.pipelines), compile)))
    else s
  }

  function WithSelectors(s: State, c: Config, p: Plan): State {
    if p.selectors.Changed() || p.taskSets.Changed() then s.(selectors := c.selectors, taskSets := c.taskSets) else s
  }

  function WithReceivers(s: State, c: Config, p: Plan): State {
    if p.receivers.Changed() then s.(receivers := Committed(s.receivers, c.receivers, s.w.gen)) else s
  }

  ghost function TasksApplied(s: State, c: Config, p: Plan): (Live, bool) {
    var code := Code(s.pipelines, s.sigs, c.tasks);
    var (l, ok) := Restarted(Live(s.w, s.cache), p.tasks.removed, p.tasks.added, code);
    if ok then Extended(l, p.tasks.added, p.tasks.removed, code) else (l, false)
  }

  /** Recounting stage references, dropping unused senders and unused stages. */
  ghost function Swept(s: State, l: Live): State {
    s.(w := UnusedDropped(l.w), cache := Collected(Recounted(l.cache, s.sigs, Users(l.w.tasks))))
  }

  predicate MustRewire(p: Plan) {
    || p.selectors.Changed() || p.taskSets.Changed() || p.receivers.Changed()
    || p.tasks.added != [] || p.tasks.removed != []
  }

  function WithRoutes(s: State, p: Plan): (State, bool) {
    if !MustRewire(p) then (s, true)
    else if AllResolve(s.selectors, s.taskSets, s.w.tasks) then
      (s.(receivers := Rewired(s.receivers, AllRoutes(s.selectors, s.taskSets, s.w.tasks))), true)
    else (s, false)
  }

  ghost function Finished(s: State): State {
    s.(w := NextReload(DeferredClosed(s.w)))
  }

  ghost predicate Compilable(c: Config, compile: Compiler) {
    AllCompile(c.pipelines, compile) && forall sig :: sig in StagesIn(c.pipelines) ==> compile(sig).Some?
  }

  /** Up to the point where the task loops start. */
  ghost function Prepared(s: State, c: Config, p: Plan, compile: Compiler): State
    requires p.pipelines.Changed() ==> Compilable(c, compile)
  {
    var s1 := WithSelectors(s, c, p);
    WithPipelines(s1.(w := WithSenders(s1.w, c, p)), c, p, compile)
  }

  ghost function Delta(s: State, c: Config, p: Plan, compile: Compiler): (State, bool)
    requires p.pipelines.Changed() ==> Compilable(c, compile)
  {
    var s1 := Prepared(s, c, p, compile);
    var (l, ok) := TasksApplied(s1, c, p);
    if !ok then (s, false)
    else
      var (s2, wired) := WithRoutes(WithReceivers(Swept(s1, l), c, p), p);
      if !wired then (s, false) else (Finished(s2), true)
  }
}
