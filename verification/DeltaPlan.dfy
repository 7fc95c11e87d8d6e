/**
 * Planning an incremental reload: which named items differ between the running configuration and
 * the next one, and which tasks must be restarted because something they use has changed.
 */
module DeltaPlan {
  import opened Config
  import opened Text

  /** Names to build: new ones and changed ones. */
  function AddedNames<V(==)>(before: map<string, V>, after: map<string, V>): set<string> {
    set n | n in after && (n !in before || before[n] != after[n])
  }

  /** Names to take down: gone ones and changed ones. */
  function RemovedNames<V(==)>(before: map<string, V>, after: map<string, V>): set<string> {
    set n | n in before && (n !in after || before[n] != after[n])
  }

  function ChangedNames<V(==)>(before: map<string, V>, after: map<string, V>): set<string> {
    AddedNames(before, after) + RemovedNames(before, after)
  }

  lemma NothingChanged<V>(before: map<string, V>, after: map<string, V>)
    ensures ChangedNames(before, after) == {} <==> before == after
  {
    if ChangedNames(before, after) == {} {
      assert forall n :: n in before ==> n !in RemovedNames(before, after);
      assert forall n :: n in after ==> n !in AddedNames(before, after);
    }
  }

  predicate Touches(names: seq<string>, changed: set<string>) {
    exists i :: 0 <= i < |names| && names[i] in changed
  }

  /** Tasks present before and after that use something changed, in either version. */
  function Affected(before: map<string, TaskConfig>, after: map<string, TaskConfig>,
                    uses: TaskConfig -> seq<string>, changed: set<string>): set<string> {
    set n | n in before && n in after && (Touches(uses(before[n]), changed) || Touches(uses(after[n]), changed))
  }

  const SendersOf: TaskConfig -> seq<string> := (t: TaskConfig) => t.senders

  const PipelinesOf: TaskConfig -> seq<string> := (t: TaskConfig) => t.pipelines

  /** The configuration pieces a plan compares. */
  datatype Running = Running(
    receivers: map<string, ReceiverConfig>,
    selectors: map<string, SelectorConfig>,
    taskSets: map<string, seq<string>>,
    senders: map<string, SenderConfig>,
    pipelines: map<string, StageList>,
    tasks: map<string, TaskConfig>)

  /** A task that exists before and after must restart when its configuration differs or it uses,
      before or after, a sender or pipeline that changed. */
  predicate MustRestart(now: Running, c: Config, n: string)
    requires n in now.tasks && n in c.tasks
  {
    || now.tasks[n] != c.tasks[n]
    || Touches(now.tasks[n].senders, ChangedNames(now.senders, c.senders))
    || Touches(c.tasks[n].senders, ChangedNames(now.senders, c.senders))
    || Touches(now.tasks[n].pipelines, ChangedNames(now.pipelines, c.pipelines))
    || Touches(c.tasks[n].pipelines, ChangedNames(now.pipelines, c.pipelines))
  }

  function TasksToRemove(now: Running, c: Config): set<string> {
    set n | n in now.tasks && (n !in c.tasks || MustRestart(now, c, n))
  }

  function TasksToAdd(now: Running, c: Config): set<string> {
    set n | n in c.tasks && (n !in now.tasks || MustRestart(now, c, n))
  }

  /** Names to build and names to take down, each sorted. */
  datatype Names = Names(added: seq<string>, removed: seq<string>) {
    predicate Changed() {
      |added| > 0 || |removed| > 0
    }
  }

  datatype Plan = Plan(receivers: Names, selectors: Names, taskSets: Names, senders: Names, pipelines: Names, tasks: Names)

  ghost predicate ListsChanges<V>(d: Names, before: map<string, V>, after: map<string, V>) {
    Lists(d.added, AddedNames(before, after)) && Lists(d.removed, RemovedNames(before, after))
  }

  ghost predicate PlanFor(p: Plan, now: Running, c: Config) {
    && ListsChanges(p.receivers, now.receivers, c.receivers)
    && ListsChanges(p.selectors, now.selectors, c.selectors)
    && ListsChanges(p.taskSets, now.taskSets, c.taskSets)
    && ListsChanges(p.senders, now.senders, c.senders)
    && ListsChanges(p.pipelines, now.pipelines, c.pipelines)
    && Lists(p.tasks.added, TasksToAdd(now, c))
    && Lists(p.tasks.removed, TasksToRemove(now, c))
  }

  lemma ListsNothing<V>(d: Names, before: map<string, V>, after: map<string, V>)
    requires ListsChanges(d, before, after)
    ensures d.Changed() <==> before != after
    ensures Elements(d.added) + Elements(d.removed) == ChangedNames(before, after)
  {
    EmptyLists(d.added, d.removed, AddedNames(before, after), RemovedNames(before, after));
    NothingChanged(before, after);
  }

  /** A kind of item has names in the plan if and only if its part of the configuration differs. */
  lemma PlanChanges(p: Plan, now: Running, c: Config)
    requires PlanFor(p, now, c)
    ensures p.receivers.Changed() <==> now.receivers != c.receivers
    ensures p.selectors.Changed() <==> now.selectors != c.selectors
    ensures p.taskSets.Changed() <==> now.taskSets != c.taskSets
    ensures p.senders.Changed() <==> now.senders != c.senders
    ensures p.pipelines.Changed() <==> now.pipelines != c.pipelines
  {
    ListsNothing(p.receivers, now.receivers, c.receivers);
    ListsNothing(p.selectors, now.selectors, c.selectors);
    ListsNothing(p.taskSets, now.taskSets, c.taskSets);
    ListsNothing(p.senders, now.senders, c.senders);
    ListsNothing(p.pipelines, now.pipelines, c.pipelines);
  }

  lemma NamesUnique<V>(d: Names, e: Names, before: map<string, V>, after: map<string, V>)
    requires ListsChanges(d, before, after) && ListsChanges(e, before, after)
    ensures d == e
  {
    ListingUnique(d.added, e.added);
    ListingUnique(d.removed, e.removed);
  }

  /** The plan does not depend on the order in which maps are walked. */
  lemma PlanUnique(p: Plan, q: Plan, now: Running, c: Config)
    requires PlanFor(p, now, c) && PlanFor(q, now, c)
    ensures p == q
  {
    NamesUnique(p.receivers, q.receivers, now.receivers, c.receivers);
    NamesUnique(p.selectors, q.selectors, now.selectors, c.selectors);
    NamesUnique(p.taskSets, q.taskSets, now.taskSets, c.taskSets);
    NamesUnique(p.senders, q.senders, now.senders, c.senders);
    NamesUnique(p.pipelines, q.pipelines, now.pipelines, c.pipelines);
    ListingUnique(p.tasks.added, q.tasks.added);
    ListingUnique(p.tasks.removed, q.tasks.removed);
  }

  // The loops

  ghost predicate Collects(xs: seq<string>, s: set<string>) {
    NoDuplicates(xs) && Elements(xs) == s
  }

  lemma CollectOne(xs: seq<string>, s: set<string>, x: string)
    requires Collects(xs, s) && x !in s
    ensures Collects(xs + [x], s + {x})
  {
    assert x in xs <==> x in Elements(xs);
    assert forall y :: y in xs + [x] <==> y in xs || y == x;
  }

  method SplitDelta<V(==)>(before: map<string, V>, after: map<string, V>)
    returns (added: seq<string>, removed: seq<string>)
    ensures Lists(added, AddedNames(before, after)) && Lists(removed, RemovedNames(before, after))
  {
    added, removed := [], [];
    var left := before.Keys;
    while left != {}
      invariant left <= before.Keys
      invariant Collects(removed, RemovedNames(before, after) - left)
      invariant Collects(added, AddedNames(before, after) * (before.Keys - left))
      decreases left
    {
      var name :| name in left;
      if name !in after {
        CollectOne(removed, RemovedNames(before, after) - left, name);
        removed := removed + [name];
      } else if before[name] != after[name] {
        CollectOne(removed, RemovedNames(before, after) - left, name);
        CollectOne(added, AddedNames(before, after) * (before.Keys - left), name);
        removed := removed + [name];
        added := added + [name];
      }
      assert RemovedNames(before, after) - (left - {name}) ==
             RemovedNames(before, after) - left + (if name in RemovedNames(before, after) then {name} else {});
      assert AddedNames(before, after) * (before.Keys - (left - {name})) ==
             AddedNames(before, after) * (before.Keys - left) + (if name in AddedNames(before, after) then {name} else {});
      left := left - {name};
    }
    added := SplitNew(before, after, added);
    SortStringsLists(added);
    SortStringsLists(removed);
    assert RemovedNames(before, after) - left == RemovedNames(before, after);
    added, removed := SortStrings(added), SortStrings(removed);
  }

  /** The second loop: names only the new map has. */
  method SplitNew<V(==)>(before: map<string, V>, after: map<string, V>, changed: seq<string>)
    returns (added: seq<string>)
    requires Collects(changed, AddedNames(before, after) * before.Keys)
    ensures Collects(added, AddedNames(before, after))
  {
    added := changed;
    var left := after.Keys;
    while left != {}
      invariant left <= after.Keys
      invariant Collects(added, AddedNames(before, after) - (left - before.Keys))
      decreases left
    {
      var name :| name in left;
      if name !in before {
        CollectOne(added, AddedNames(before, after) - (left - before.Keys), name);
        added := added + [name];
      }
      assert AddedNames(before, after) - ((left - {name}) - before.Keys) ==
             AddedNames(before, after) - (left - before.Keys) + (if name in before then {} else {name});
      left := left - {name};
    }
    assert AddedNames(before, after) - ({} - before.Keys) == AddedNames(before, after);
  }

  method TaskUsesChanged(names: seq<string>, changed: set<string>) returns (uses: bool)
    ensures uses <==> Touches(names, changed)
  {
    var i := 0;
    while i < |names|
      invariant 0 <= i <= |names| && !Touches(names[..i], changed)
    {
      if names[i] in changed {
        return true;
      }
      i := i + 1;
    }
    assert names[..i] == names;
    uses := false;
  }

  /** Widening the task plan by the tasks that use a changed sender or pipeline. */
  method ExpandTaskDelta(before: map<string, TaskConfig>, after: map<string, TaskConfig>,
                         uses: TaskConfig -> seq<string>, added0: seq<string>, removed0: seq<string>,
                         changed: set<string>, ghost addedSet: set<string>, ghost removedSet: set<string>)
    returns (added: seq<string>, removed: seq<string>)
    requires Lists(added0, addedSet) && Lists(removed0, removedSet)
    ensures Lists(added, addedSet + Affected(before, after, uses, changed))
    ensures Lists(removed, removedSet + Affected(before, after, uses, changed))
  {
    added, removed := added0, removed0;
    if changed == {} {
      assert Affected(before, after, uses, changed) == {};
      assert addedSet + {} == addedSet && removedSet + {} == removedSet;
      return;
    }
    AscendingNoDuplicates(added0);
    AscendingNoDuplicates(removed0);
    var left := before.Keys;
    while left != {}
      invariant left <= before.Keys
      invariant Collects(added, addedSet + (Affected(before, after, uses, changed) - left))
      invariant Collects(removed, removedSet + (Affected(before, after, uses, changed) - left))
      decreases left
    {
      var name :| name in left;
      var hit := false;
      if name in after {
        hit := TaskUsesChanged(uses(before[name]), changed);
        if !hit {
          hit := TaskUsesChanged(uses(after[name]), changed);
        }
      }
      assert hit <==> name in Affected(before, after, uses, changed);
      if hit {
        removed := AppendMissing(removed, name, removedSet + (Affected(before, after, uses, changed) - left));
        added := AppendMissing(added, name, addedSet + (Affected(before, after, uses, changed) - left));
      }
      assert Affected(before, after, uses, changed) - (left - {name}) ==
             Affected(before, after, uses, changed) - left + (if hit then {name} else {});
      assert removedSet + (Affected(before, after, uses, changed) - (left - {name})) ==
             removedSet + (Affected(before, after, uses, changed) - left) + (if hit then {name} else {});
      assert addedSet + (Affected(before, after, uses, changed) - (left - {name})) ==
             addedSet + (Affected(before, after, uses, changed) - left) + (if hit then {name} else {});
      left := left - {name};
    }
    assert Affected(before, after, uses, changed) - {} == Affected(before, after, uses, changed);
    SortStringsLists(added);
    SortStringsLists(removed);
    added, removed := SortStrings(added), SortStrings(removed);
  }

  method AppendMissing(xs: seq<string>, x: string, ghost s: set<string>) returns (ys: seq<string>)
    requires Collects(xs, s)
    ensures Collects(ys, s + {x})
  {
    assert x in xs <==> x in Elements(xs);
    if x in xs {
      assert s + {x} == s;
      return xs;
    }
    CollectOne(xs, s, x);
    ys := xs + [x];
  }

  lemma AscendingNoDuplicates(xs: seq<string>)
    requires Ascending(xs)
    ensures NoDuplicates(xs)
  {
    forall i, j | 0 <= i < j < |xs|
      ensures xs[i] != xs[j]
    {
      LessIrreflexive(xs[i]);
    }
  }

  lemma RestartSets(now: Running, c: Config)
    ensures AddedNames(now.tasks, c.tasks)
            + Affected(now.tasks, c.tasks, SendersOf, ChangedNames(now.senders, c.senders))
            + Affected(now.tasks, c.tasks, PipelinesOf, ChangedNames(now.pipelines, c.pipelines)) == TasksToAdd(now, c)
    ensures RemovedNames(now.tasks, c.tasks)
            + Affected(now.tasks, c.tasks, SendersOf, ChangedNames(now.senders, c.senders))
            + Affected(now.tasks, c.tasks, PipelinesOf, ChangedNames(now.pipelines, c.pipelines)) == TasksToRemove(now, c)
  {
  }

  lemma EmptyLists(added: seq<string>, removed: seq<string>, a: set<string>, r: set<string>)
    requires Lists(added, a) && Lists(removed, r)
    ensures added == [] && removed == [] <==> a + r == {}
    ensures Elements(added) + Elements(removed) == a + r
  {
    NoElements(added);
    NoElements(removed);
  }

  method Differences<V(==)>(before: map<string, V>, after: map<string, V>) returns (names: Names)
    ensures ListsChanges(names, before, after)
  {
    var added, removed := SplitDelta(before, after);
    names := Names(added, removed);
  }

  method Changes<V(==)>(names: Names, ghost before: map<string, V>, ghost after: map<string, V>) returns (changed: set<string>)
    requires ListsChanges(names, before, after)
    ensures changed == ChangedNames(before, after)
  {
    ListsNothing(names, before, after);
    changed := (set n | n in names.added) + (set n | n in names.removed);
  }

  /** The whole plan; the task lists are widened first by senders, then by pipelines. */
  method PlanBusinessDelta(now: Running, c: Config) returns (plan: Plan)
    ensures PlanFor(plan, now, c)
  {
    var receivers := Differences(now.receivers, c.receivers);
    var selectors := Differences(now.selectors, c.selectors);
    var taskSets := Differences(now.taskSets, c.taskSets);
    var senders := Differences(now.senders, c.senders);
    var pipelines := Differences(now.pipelines, c.pipelines);
    var tasks := PlanTasks(now, c, senders, pipelines);
    plan := Plan(receivers, selectors, taskSets, senders, pipelines, tasks);
  }

  method PlanTasks(now: Running, c: Config, senders: Names, pipelines: Names) returns (tasks: Names)
    requires ListsChanges(senders, now.senders, c.senders) && ListsChanges(pipelines, now.pipelines, c.pipelines)
    ensures Lists(tasks.added, TasksToAdd(now, c)) && Lists(tasks.removed, TasksToRemove(now, c))
  {
    var added, removed := SplitDelta(now.tasks, c.tasks);
    var changedSenders := Changes(senders, now.senders, c.senders);
    added, removed := ExpandTaskDelta(now.tasks, c.tasks, SendersOf, added, removed, changedSenders,
                                      AddedNames(now.tasks, c.tasks), RemovedNames(now.tasks, c.tasks));
    var changedPipelines := Changes(pipelines, now.pipelines, c.pipelines);
    added, removed := ExpandTaskDelta(now.tasks, c.tasks, PipelinesOf, added, removed, changedPipelines,
      AddedNames(now.tasks, c.tasks) + Affected(now.tasks, c.tasks, SendersOf, changedSenders),
      RemovedNames(now.tasks, c.tasks) + Affected(now.tasks, c.tasks, SendersOf, changedSenders));
    RestartSets(now, c);
    tasks := Names(added, removed);
  }

  /** What each plan says of one task, spelled out. */
  lemma PlanSaysOfTask(p: Plan, now: Running, c: Config, n: string)
    requires PlanFor(p, now, c)
    ensures n in p.tasks.removed <==> n in now.tasks && (n !in c.tasks || MustRestart(now, c, n))
    ensures n in p.tasks.added <==> n in c.tasks && (n !in now.tasks || MustRestart(now, c, n))
  {
    assert n in p.tasks.removed <==> n in Elements(p.tasks.removed);
    assert n in p.tasks.added <==> n in Elements(p.tasks.added);
  }
}
