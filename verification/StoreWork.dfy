/**
 * The sender and task side of the store: senders with reference counts, live tasks bound to sender
 * instances, and every instance's life.  Instances and tasks are identified by name and reload.
 */
module StoreWork {
  import opened Config
  import opened Stages
  import opened TaskRun

  datatype SenderState = SenderState(cfg: SenderConfig, inst: Instance, refs: int)

  datatype TaskState = TaskState(
    name: string, cfg: TaskConfig, gen: nat, stages: seq<seq<Stage>>, bound: seq<Instance>)

  /** `running` are the tasks started and not yet stopped, `closing` the replaced instances whose
      close is deferred, `closed` counts closes; `fault` records a running task bound to a closed
      instance. */
  datatype Work = Work(
    gen: nat,
    senders: map<string, SenderState>,
    tasks: map<string, TaskState>,
    running: map<string, TaskState>,
    built: set<Instance>,
    closing: set<Instance>,
    closed: multiset<Instance>,
    fault: bool)

  // Steps

  ghost predicate InUse(w: Work, insts: set<Instance>) {
    exists n :: n in w.running && exists i :: 0 <= i < |w.running[n].bound| && w.running[n].bound[i] in insts
  }

  ghost function Close(w: Work, insts: set<Instance>): Work {
    w.(closed := w.closed + multiset(insts), fault := w.fault || InUse(w, insts))
  }

  predicate MustBuild(w: Work, next: map<string, SenderConfig>, n: string) {
    n in next && (n !in w.senders || w.senders[n].cfg != next[n])
  }

  predicate Droppable(w: Work, next: map<string, SenderConfig>, n: string) {
    n in w.senders && n !in next && w.senders[n].refs == 0
  }

  function Built(w: Work, next: map<string, SenderConfig>, n: string): SenderState
    requires n in next
  {
    SenderState(next[n], Instance(n, w.gen), if n in w.senders then w.senders[n].refs else 0)
  }

  function Replaced(w: Work, next: map<string, SenderConfig>): set<Instance> {
    set n | n in w.senders && MustBuild(w, next, n) :: w.senders[n].inst
  }

  /** Publishing new and changed senders: counts carry over, replaced instances close later. */
  function SendersReplaced(w: Work, next: map<string, SenderConfig>): Work {
    w.(senders := map n | n in w.senders.Keys + next.Keys ::
                    if n in next && MustBuild(w, next, n) then Built(w, next, n) else w.senders[n],
       built := w.built + (set n | n in next && MustBuild(w, next, n) :: Instance(n, w.gen)),
       closing := w.closing + Replaced(w, next))
  }

  function Without(w: Work, gone: set<string>): Work {
    w.(senders := map n | n in w.senders && n !in gone :: w.senders[n])
  }

  function Insts(w: Work, names: set<string>): set<Instance> {
    set n | n in names && n in w.senders :: w.senders[n].inst
  }

  ghost function Dropped(w: Work, gone: set<string>): Work {
    Close(Without(w, gone), Insts(w, gone))
  }

  /** `applySenderDelta` when every build succeeds. */
  ghost function SenderDelta(w: Work, next: map<string, SenderConfig>): Work {
    var u := SendersReplaced(w, next);
    Dropped(u, set n | n in u.senders && Droppable(u, next, n))
  }

  ghost function UnusedDropped(w: Work): Work {
    Dropped(w, set n | n in w.senders && w.senders[n].refs <= 0)
  }

  ghost function DeferredClosed(w: Work): Work {
    Close(w.(closing := {}), w.closing)
  }

  /** One reference more, or fewer, for each occurrence in `names`. */
  function Recount(senders: map<string, SenderState>, names: seq<string>, more: bool): map<string, SenderState> {
    map n | n in senders ::
      senders[n].(refs := if more then senders[n].refs + multiset(names)[n] else senders[n].refs - multiset(names)[n])
  }

  /** The locked half of `removeTask`: the task leaves the store and gives its references back. */
  function Unregistered(w: Work, n: string): Work {
    if n !in w.tasks then w
    else w.(tasks := w.tasks - {n}, senders := Recount(w.senders, w.tasks[n].cfg.senders, false))
  }

  /** `StopGraceful` of the removed task. */
  function Stopped(w: Work, n: string): Work {
    w.(running := w.running - {n})
  }

  predicate KnownSenders(senders: map<string, SenderState>, names: seq<string>) {
    forall i :: 0 <= i < |names| ==> names[i] in senders
  }

  function BoundTo(senders: map<string, SenderState>, names: seq<string>): seq<Instance>
    requires KnownSenders(senders, names)
  {
    seq(|names|, i requires 0 <= i < |names| => senders[names[i]].inst)
  }

  function NewTask(w: Work, n: string, tc: TaskConfig, stages: seq<seq<Stage>>): TaskState
    requires KnownSenders(w.senders, tc.senders)
  {
    TaskState(n, tc, w.gen, stages, BoundTo(w.senders, tc.senders))
  }

  /** `addTask`: take references, start the task on the instances of the moment, register it. */
  ghost function Registered(w: Work, n: string, tc: TaskConfig, stages: seq<seq<Stage>>): Work
    requires KnownSenders(w.senders, tc.senders)
  {
    var ts := NewTask(w, n, tc, stages);
    w.(senders := Recount(w.senders, tc.senders, true),
       running := w.running[n := ts],
       tasks := w.tasks[n := ts],
       fault := w.fault || exists i :: 0 <= i < |ts.bound| && ts.bound[i] in w.closed)
  }

  /** `StopAll`: all tasks are stopped before any sender is closed. */
  ghost function AllStopped(w: Work): Work {
    Close(w.(running := w.running - w.tasks.Keys), Insts(w, w.senders.Keys))
  }

  /** The sender side of a full rebuild after the old components are gone. */
  function Rebuilt(w: Work, next: map<string, SenderConfig>): Work {
    w.(tasks := map[],
       senders := map n | n in next :: SenderState(next[n], Instance(n, w.gen), 0),
       built := w.built + set n | n in next :: Instance(n, w.gen))
  }

  // Invariants

  /** How often each sender name occurs in the configurations of live tasks. */
  ghost function AllUses(tasks: map<string, TaskState>): multiset<string>
    decreases |tasks|
  {
    if exists n :: n in tasks then
      var n :| n in tasks;
      Shrinks(tasks, n);
      multiset(tasks[n].cfg.senders) + AllUses(tasks - {n})
    else multiset{}
  }

  lemma Shrinks(tasks: map<string, TaskState>, n: string)
    requires n in tasks
    ensures |tasks - {n}| < |tasks|
  {
    assert (tasks - {n}).Keys == tasks.Keys - {n};
    assert |tasks - {n}| == |(tasks - {n}).Keys|;
  }

  lemma {:induction false} UsesRemove(tasks: map<string, TaskState>, n: string)
    requires n in tasks
    ensures AllUses(tasks) == multiset(tasks[n].cfg.senders) + AllUses(tasks - {n})
    decreases |tasks|
  {
    var m :| m in tasks && AllUses(tasks) == multiset(tasks[m].cfg.senders) + AllUses(tasks - {m});
    if m != n {
      Shrinks(tasks, m);
      Shrinks(tasks, n);
      UsesRemove(tasks - {m}, n);
      UsesRemove(tasks - {n}, m);
      assert tasks - {m} - {n} == tasks - {n} - {m};
    }
  }

  lemma UsesAdd(tasks: map<string, TaskState>, n: string, ts: TaskState)
    requires n !in tasks
    ensures AllUses(tasks[n := ts]) == multiset(ts.cfg.senders) + AllUses(tasks)
  {
    UsesRemove(tasks[n := ts], n);
    assert tasks[n := ts] - {n} == tasks;
  }

  lemma UsesOf(tasks: map<string, TaskState>, n: string, i: nat)
    requires n in tasks && i < |tasks[n].cfg.senders|
    ensures AllUses(tasks)[tasks[n].cfg.senders[i]] > 0
  {
    UsesRemove(tasks, n);
    assert tasks[n].cfg.senders[i] in multiset(tasks[n].cfg.senders);
  }

  lemma {:induction false} UserOf(tasks: map<string, TaskState>, sn: string) returns (n: string)
    requires AllUses(tasks)[sn] > 0
    ensures n in tasks && sn in tasks[n].cfg.senders
    decreases |tasks|
  {
    n :| n in tasks;
    UsesRemove(tasks, n);
    if sn !in tasks[n].cfg.senders {
      Shrinks(tasks, n);
      assert multiset(tasks[n].cfg.senders)[sn] == 0;
      n := UserOf(tasks - {n}, sn);
    }
  }

  /** `Refs` is the number of occurrences in live tasks' configurations. */
  ghost predicate RefsOk(senders: map<string, SenderState>, tasks: map<string, TaskState>) {
    forall n :: n in senders ==> senders[n].refs == AllUses(tasks)[n]
  }

  ghost predicate Current(senders: map<string, SenderState>, inst: Instance) {
    inst.name in senders && senders[inst.name].inst == inst
  }

  ghost predicate NamesOk(senders: map<string, SenderState>) {
    forall n :: n in senders ==> senders[n].inst.name == n
  }

  /** Each instance ever built is current, waiting to be closed, or closed once: one of the three. */
  ghost predicate LifeOk(w: Work, inst: Instance) {
    && (inst in w.built <==> Current(w.senders, inst) || inst in w.closing || inst in w.closed)
    && (Current(w.senders, inst) ==> inst !in w.closing)
    && (Current(w.senders, inst) ==> inst !in w.closed)
    && (inst in w.closing ==> inst !in w.closed)
    && w.closed[inst] <= 1
  }

  ghost predicate LivesOk(w: Work) {
    NamesOk(w.senders) && forall inst :: LifeOk(w, inst)
  }

  ghost predicate BuiltBefore(w: Work, gen: nat) {
    forall inst :: inst in w.built ==> inst.id < gen
  }

  /** A task's bindings are to current instances, or to replaced ones not yet closed. */
  ghost predicate Attached(ts: TaskState, senders: map<string, SenderState>, closing: set<Instance>) {
    && |ts.bound| == |ts.cfg.senders|
    && (forall i :: 0 <= i < |ts.bound| ==>
          && ts.cfg.senders[i] in senders
          && ts.bound[i].name == ts.cfg.senders[i]
          && (ts.bound[i] == senders[ts.cfg.senders[i]].inst || ts.bound[i] in closing))
  }

  ghost predicate AllAttached(tasks: map<string, TaskState>, senders: map<string, SenderState>, closing: set<Instance>) {
    forall n :: n in tasks ==> tasks[n].name == n && Attached(tasks[n], senders, closing)
  }

  /** What holds at every step of a reload. */
  ghost predicate WorkOk(w: Work) {
    && !w.fault
    && w.running == w.tasks
    && RefsOk(w.senders, w.tasks)
    && LivesOk(w)
    && AllAttached(w.tasks, w.senders, w.closing)
  }

  // Every step keeps what holds

  lemma UsedIsKnown(w: Work, sn: string)
    requires AllAttached(w.tasks, w.senders, w.closing) && AllUses(w.tasks)[sn] > 0
    ensures sn in w.senders
  {
    var n := UserOf(w.tasks, sn);
    assert Attached(w.tasks[n], w.senders, w.closing);
    var i :| 0 <= i < |w.tasks[n].cfg.senders| && w.tasks[n].cfg.senders[i] == sn;
    assert w.tasks[n].cfg.senders[i] in w.senders;
  }

  lemma ReplacedRefs(w: Work, next: map<string, SenderConfig>)
    requires RefsOk(w.senders, w.tasks) && AllAttached(w.tasks, w.senders, w.closing)
    ensures RefsOk(SendersReplaced(w, next).senders, w.tasks)
  {
    forall n | n in next && n !in w.senders
      ensures AllUses(w.tasks)[n] == 0
    {
      if AllUses(w.tasks)[n] > 0 {
        UsedIsKnown(w, n);
      }
    }
  }

  lemma ReplacedLives(w: Work, next: map<string, SenderConfig>)
    requires LivesOk(w) && BuiltBefore(w, w.gen)
    ensures LivesOk(SendersReplaced(w, next))
  {
    var u := SendersReplaced(w, next);
    forall inst
      ensures LifeOk(u, inst)
    {
      assert LifeOk(w, inst);
      ReplacedLife(w, next, inst);
    }
  }

  lemma ReplacedLife(w: Work, next: map<string, SenderConfig>, inst: Instance)
    requires LifeOk(w, inst) && NamesOk(w.senders) && BuiltBefore(w, w.gen)
    ensures LifeOk(SendersReplaced(w, next), inst)
  {
    var u := SendersReplaced(w, next);
    var n := inst.name;
    assert inst in Replaced(w, next) <==> Current(w.senders, inst) && MustBuild(w, next, n);
    if n in next && MustBuild(w, next, n) {
      assert Current(u.senders, inst) <==> inst == Instance(n, w.gen);
      assert inst == Instance(n, w.gen) ==> inst !in w.built;
    } else {
      assert Current(u.senders, inst) <==> Current(w.senders, inst);
    }
  }

  lemma ReplacedAttached(w: Work, next: map<string, SenderConfig>)
    requires AllAttached(w.tasks, w.senders, w.closing)
    ensures AllAttached(w.tasks, SendersReplaced(w, next).senders, SendersReplaced(w, next).closing)
  {
    var u := SendersReplaced(w, next);
    forall n | n in w.tasks
      ensures Attached(w.tasks[n], u.senders, u.closing)
    {
      var ts := w.tasks[n];
      assert Attached(ts, w.senders, w.closing);
      forall i | 0 <= i < |ts.bound|
        ensures ts.cfg.senders[i] in u.senders
        ensures ts.bound[i] == u.senders[ts.cfg.senders[i]].inst || ts.bound[i] in u.closing
      {
        var sn := ts.cfg.senders[i];
        if MustBuild(w, next, sn) && ts.bound[i] == w.senders[sn].inst {
          assert ts.bound[i] in Replaced(w, next);
        }
      }
    }
  }

  lemma ReplacedOk(w: Work, next: map<string, SenderConfig>)
    requires WorkOk(w) && BuiltBefore(w, w.gen)
    ensures WorkOk(SendersReplaced(w, next))
  {
    ReplacedRefs(w, next);
    ReplacedLives(w, next);
    ReplacedAttached(w, next);
  }

  /** A sender no task refers to can go: no running task is bound to it. */
  lemma DroppedIsUnused(w: Work, gone: set<string>)
    requires WorkOk(w) && forall n :: n in gone ==> n in w.senders && w.senders[n].refs <= 0
    ensures !InUse(w, Insts(w, gone))
    ensures forall n, i :: n in w.tasks && 0 <= i < |w.tasks[n].cfg.senders| ==> w.tasks[n].cfg.senders[i] !in gone
  {
    forall n, i | n in w.tasks && 0 <= i < |w.tasks[n].cfg.senders|
      ensures w.tasks[n].cfg.senders[i] !in gone
    {
      UsesOf(w.tasks, n, i);
    }
    forall n, i | n in w.running && 0 <= i < |w.running[n].bound|
      ensures w.running[n].bound[i] !in Insts(w, gone)
    {
      assert Attached(w.tasks[n], w.senders, w.closing);
      var inst := w.running[n].bound[i];
      assert LifeOk(w, inst);
      assert inst in Insts(w, gone) ==> Current(w.senders, inst) && inst.name in gone;
    }
  }

  lemma DroppedLife(w: Work, gone: set<string>, inst: Instance)
    requires LifeOk(w, inst) && NamesOk(w.senders)
    requires forall n :: n in gone ==> n in w.senders
    ensures LifeOk(Dropped(w, gone), inst)
  {
    var u := Dropped(w, gone);
    assert inst in Insts(w, gone) <==> Current(w.senders, inst) && inst.name in gone;
    assert Current(u.senders, inst) <==> Current(w.senders, inst) && inst.name !in gone;
    assert multiset(Insts(w, gone))[inst] == if inst in Insts(w, gone) then 1 else 0;
  }

  lemma DroppedOk(w: Work, gone: set<string>)
    requires WorkOk(w) && forall n :: n in gone ==> n in w.senders && w.senders[n].refs <= 0
    ensures WorkOk(Dropped(w, gone))
  {
    DroppedIsUnused(w, gone);
    var u := Dropped(w, gone);
    forall inst
      ensures LifeOk(u, inst)
    {
      assert LifeOk(w, inst);
      DroppedLife(w, gone, inst);
    }
    forall n | n in u.tasks
      ensures Attached(u.tasks[n], u.senders, u.closing)
    {
      assert Attached(w.tasks[n], w.senders, w.closing);
    }
  }

  lemma RecountedLives(w: Work, names: seq<string>, more: bool)
    requires LivesOk(w)
    ensures LivesOk(w.(senders := Recount(w.senders, names, more)))
  {
    var u := w.(senders := Recount(w.senders, names, more));
    forall inst
      ensures LifeOk(u, inst)
    {
      assert LifeOk(w, inst);
    }
  }

  lemma RecountedAttached(tasks: map<string, TaskState>, w: Work, names: seq<string>, more: bool)
    requires AllAttached(tasks, w.senders, w.closing)
    ensures AllAttached(tasks, Recount(w.senders, names, more), w.closing)
  {
    forall n | n in tasks
      ensures Attached(tasks[n], Recount(w.senders, names, more), w.closing)
    {
      assert Attached(tasks[n], w.senders, w.closing);
    }
  }

  lemma RemovedOk(w: Work, n: string)
    requires WorkOk(w)
    ensures WorkOk(Stopped(Unregistered(w, n), n))
  {
    if n in w.tasks {
      UsesRemove(w.tasks, n);
      RecountedLives(w, w.tasks[n].cfg.senders, false);
      RecountedAttached(w.tasks, w, w.tasks[n].cfg.senders, false);
      LivesFrame(w.(senders := Recount(w.senders, w.tasks[n].cfg.senders, false)), Stopped(Unregistered(w, n), n));
    } else {
      assert w.running - {n} == w.running;
    }
  }

  lemma LivesFrame(w: Work, u: Work)
    requires LivesOk(w) && u.senders == w.senders && u.built == w.built && u.closing == w.closing && u.closed == w.closed
    ensures LivesOk(u)
  {
    forall inst
      ensures LifeOk(u, inst)
    {
      assert LifeOk(w, inst);
    }
  }

  lemma AddedOk(w: Work, n: string, tc: TaskConfig, stages: seq<seq<Stage>>)
    requires WorkOk(w) && n !in w.tasks && KnownSenders(w.senders, tc.senders)
    ensures WorkOk(Registered(w, n, tc, stages))
  {
    var ts := NewTask(w, n, tc, stages);
    var u := Registered(w, n, tc, stages);
    UsesAdd(w.tasks, n, ts);
    RecountedLives(w, tc.senders, true);
    RecountedAttached(w.tasks, w, tc.senders, true);
    LivesFrame(w.(senders := Recount(w.senders, tc.senders, true)), u);
    forall i | 0 <= i < |ts.bound|
      ensures ts.bound[i] !in w.closed
    {
      assert LifeOk(w, ts.bound[i]);
    }
    assert Attached(ts, u.senders, u.closing);
  }

  /** Every task is bound to current instances only. */
  ghost predicate AllCurrent(w: Work) {
    AllAttached(w.tasks, w.senders, {})
  }

  lemma DeferredOk(w: Work)
    requires WorkOk(w) && AllCurrent(w)
    ensures WorkOk(DeferredClosed(w)) && AllCurrent(DeferredClosed(w))
  {
    forall n, i | n in w.running && 0 <= i < |w.running[n].bound|
      ensures w.running[n].bound[i] !in w.closing
    {
      assert Attached(w.tasks[n], w.senders, {});
      assert LifeOk(w, w.running[n].bound[i]);
    }
    forall inst
      ensures LifeOk(DeferredClosed(w), inst)
    {
      assert LifeOk(w, inst);
      assert multiset(w.closing)[inst] == if inst in w.closing then 1 else 0;
    }
  }

  /** Stopping everything and starting over: tasks stop first, then each sender closes once. */
  lemma RebuiltOk(w: Work, next: map<string, SenderConfig>)
    requires WorkOk(w) && w.closing == {} && BuiltBefore(w, w.gen)
    ensures WorkOk(Rebuilt(AllStopped(w), next)) && AllStopped(w).running == map[]
  {
    var u := AllStopped(w);
    assert u.running == map[];
    assert !InUse(w.(running := w.running - w.tasks.Keys), Insts(w, w.senders.Keys));
    var v := Rebuilt(u, next);
    forall inst
      ensures LifeOk(v, inst)
    {
      assert LifeOk(w, inst);
      RebuiltLife(w, next, inst);
    }
  }

  lemma RebuiltLife(w: Work, next: map<string, SenderConfig>, inst: Instance)
    requires LifeOk(w, inst) && NamesOk(w.senders) && w.closing == {} && BuiltBefore(w, w.gen)
    ensures LifeOk(Rebuilt(AllStopped(w), next), inst)
  {
    var v := Rebuilt(AllStopped(w), next);
    var all := Insts(w, w.senders.Keys);
    assert inst in all <==> Current(w.senders, inst);
    assert multiset(all)[inst] == if inst in all then 1 else 0;
    assert Current(v.senders, inst) <==> inst.name in next && inst == Instance(inst.name, w.gen);
    assert inst.id == w.gen ==> inst !in w.built;
  }
}
