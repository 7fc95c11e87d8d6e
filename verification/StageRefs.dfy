/**
 * Which tasks use which cached stage: retaining, releasing, recounting and collecting entries.
 *
 * The functions say what each of the four does to the whole cache at once; the methods below are the
 * loops over pipelines, signatures and entries that do it one entry at a time, in whatever order a
 * map yields them.
 */
module StageRefs {
  import opened Config
  import opened Stages
  import opened StageCache

  type Sigs = map<string, seq<StageConfig>>

  /** Signatures of the stages behind a list of pipeline names; unknown pipelines have none. */
  function Uses(sigs: Sigs, pipelines: seq<string>): set<StageConfig> {
    set pn, sig | pn in pipelines && pn in sigs && sig in sigs[pn] :: sig
  }

  function Joined(e: Entry, task: string): Entry {
    if task in e.tasks then e else e.(tasks := e.tasks + {task}, refs := e.refs + 1)
  }

  function Left(e: Entry, task: string): Entry {
    if task in e.tasks then e.(tasks := e.tasks - {task}, refs := if e.refs - 1 <= 0 then 0 else e.refs - 1) else e
  }

  function Retained(cache: Cache, used: set<StageConfig>, task: string): Cache {
    map sig | sig in cache :: if sig in used then Joined(cache[sig], task) else cache[sig]
  }

  function Released(cache: Cache, used: set<StageConfig>, task: string): Cache {
    map sig | sig in cache :: if sig in used then Left(cache[sig], task) else cache[sig]
  }

  /** Names in `users`, a map from task to its pipelines, that use the stage. */
  function UsersOf(sigs: Sigs, users: map<string, seq<string>>, sig: StageConfig): set<string> {
    set n | n in users && sig in Uses(sigs, users[n])
  }

  function Recounted(cache: Cache, sigs: Sigs, users: map<string, seq<string>>): Cache {
    map sig | sig in cache ::
      Entry(cache[sig].fn, |UsersOf(sigs, users, sig)|, UsersOf(sigs, users, sig))
  }

  function Collected(cache: Cache): Cache {
    map sig | sig in cache && cache[sig].refs > 0 :: cache[sig]
  }

  /** After recounting and collecting, an entry is there exactly when it was there and some task
      uses it, and it lists exactly the tasks that do. */
  lemma CollectedIsExact(cache: Cache, sigs: Sigs, users: map<string, seq<string>>, sig: StageConfig)
    ensures var c := Collected(Recounted(cache, sigs, users));
            && (sig in c <==> sig in cache && UsersOf(sigs, users, sig) != {})
            && (sig in c ==> c[sig].tasks == UsersOf(sigs, users, sig) && c[sig].refs == |c[sig].tasks|
                             && c[sig].fn == cache[sig].fn)
  {
    var u := UsersOf(sigs, users, sig);
    if u != {} {
      var n :| n in u;
      assert |u| > 0;
    }
  }

  // The loops

  lemma UsesSnoc(sigs: Sigs, pipelines: seq<string>, i: nat)
    requires i < |pipelines|
    ensures Uses(sigs, pipelines[..i + 1]) ==
            Uses(sigs, pipelines[..i]) + (if pipelines[i] in sigs then Members(sigs[pipelines[i]]) else {})
  {
    assert forall pn :: pn in pipelines[..i + 1] <==> pn in pipelines[..i] || pn == pipelines[i];
  }

  lemma RetainedOne(cache: Cache, used: set<StageConfig>, task: string, sig: StageConfig)
    ensures Retained(cache, used + {sig}, task) ==
            (if sig in cache then Retained(cache, used, task)[sig := Joined(Retained(cache, used, task)[sig], task)]
             else Retained(cache, used, task))
  {
  }

  method RetainList(ghost cache0: Cache, ghost used: set<StageConfig>, cache: Cache, list: seq<StageConfig>, task: string)
    returns (cache': Cache)
    requires cache == Retained(cache0, used, task)
    ensures cache' == Retained(cache0, used + Members(list), task)
  {
    cache' := cache;
    var i := 0;
    while i < |list|
      invariant 0 <= i <= |list| && cache' == Retained(cache0, used + Members(list[..i]), task)
    {
      var sig := list[i];
      MembersSnoc(list, i);
      RetainedOne(cache0, used + Members(list[..i]), task, sig);
      assert used + Members(list[..i + 1]) == used + Members(list[..i]) + {sig};
      if sig in cache' && task !in cache'[sig].tasks {
        cache' := cache'[sig := Entry(cache'[sig].fn, cache'[sig].refs + 1, cache'[sig].tasks + {task})];
      }
      i := i + 1;
    }
    assert list[..i] == list;
  }

  method RetainTaskStageRefs(cache: Cache, sigs: Sigs, task: string, pipelines: seq<string>) returns (cache': Cache)
    ensures cache' == Retained(cache, Uses(sigs, pipelines), task)
  {
    cache' := cache;
    var i := 0;
    while i < |pipelines|
      invariant 0 <= i <= |pipelines| && cache' == Retained(cache, Uses(sigs, pipelines[..i]), task)
    {
      UsesSnoc(sigs, pipelines, i);
      if pipelines[i] in sigs {
        cache' := RetainList(cache, Uses(sigs, pipelines[..i]), cache', sigs[pipelines[i]], task);
      }
      i := i + 1;
    }
    assert pipelines[..i] == pipelines;
  }

  lemma ReleasedOne(cache: Cache, used: set<StageConfig>, task: string, sig: StageConfig)
    ensures Released(cache, used + {sig}, task) ==
            (if sig in cache then Released(cache, used, task)[sig := Left(Released(cache, used, task)[sig], task)]
             else Released(cache, used, task))
  {
  }

  method ReleaseList(ghost cache0: Cache, ghost used: set<StageConfig>, cache: Cache, list: seq<StageConfig>, task: string)
    returns (cache': Cache)
    requires cache == Released(cache0, used, task)
    ensures cache' == Released(cache0, used + Members(list), task)
  {
    cache' := cache;
    var i := 0;
    while i < |list|
      invariant 0 <= i <= |list| && cache' == Released(cache0, used + Members(list[..i]), task)
    {
      var sig := list[i];
      MembersSnoc(list, i);
      ReleasedOne(cache0, used + Members(list[..i]), task, sig);
      assert used + Members(list[..i + 1]) == used + Members(list[..i]) + {sig};
      if sig in cache' && task in cache'[sig].tasks {
        var refs := cache'[sig].refs - 1;
        cache' := cache'[sig := Entry(cache'[sig].fn, if refs <= 0 then 0 else refs, cache'[sig].tasks - {task})];
      }
      i := i + 1;
    }
    assert list[..i] == list;
  }

  method ReleaseTaskStageRefs(cache: Cache, sigs: Sigs, task: string, pipelines: seq<string>) returns (cache': Cache)
    ensures cache' == Released(cache, Uses(sigs, pipelines), task)
  {
    cache' := cache;
    var i := 0;
    while i < |pipelines|
      invariant 0 <= i <= |pipelines| && cache' == Released(cache, Uses(sigs, pipelines[..i]), task)
    {
      UsesSnoc(sigs, pipelines, i);
      if pipelines[i] in sigs {
        cache' := ReleaseList(cache, Uses(sigs, pipelines[..i]), cache', sigs[pipelines[i]], task);
      }
      i := i + 1;
    }
    assert pipelines[..i] == pipelines;
  }

  lemma UsersOfOne(sigs: Sigs, users: map<string, seq<string>>, n: string, pipelines: seq<string>, sig: StageConfig)
    requires n !in users
    ensures UsersOf(sigs, users[n := pipelines], sig) ==
            UsersOf(sigs, users, sig) + (if sig in Uses(sigs, pipelines) then {n} else {})
    ensures n !in UsersOf(sigs, users, sig)
  {
  }

  lemma RecountEntry(e: Entry, sigs: Sigs, users: map<string, seq<string>>, n: string, pipelines: seq<string>, sig: StageConfig)
    requires n !in users && e == Entry(e.fn, |UsersOf(sigs, users, sig)|, UsersOf(sigs, users, sig))
    ensures var u := UsersOf(sigs, users[n := pipelines], sig);
            Entry(e.fn, |u|, u) == if sig in Uses(sigs, pipelines) then Joined(e, n) else e
  {
    UsersOfOne(sigs, users, n, pipelines, sig);
    assert UsersOf(sigs, users, sig) + {} == UsersOf(sigs, users, sig);
  }

  lemma RecountOne(cache: Cache, sigs: Sigs, users: map<string, seq<string>>, n: string, pipelines: seq<string>)
    requires n !in users
    ensures Retained(Recounted(cache, sigs, users), Uses(sigs, pipelines), n) ==
            Recounted(cache, sigs, users[n := pipelines])
  {
    var before := Recounted(cache, sigs, users);
    var retained := Retained(before, Uses(sigs, pipelines), n);
    var after := Recounted(cache, sigs, users[n := pipelines]);
    forall sig | sig in cache
      ensures retained[sig] == after[sig]
    {
      RecountEntry(before[sig], sigs, users, n, pipelines, sig);
    }
    assert retained.Keys == after.Keys;
  }

  /** Recounting from scratch: clear every entry, then retain task by task. */
  method RebuildStageTaskRefs(cache: Cache, sigs: Sigs, users: map<string, seq<string>>) returns (cache': Cache)
    ensures cache' == Recounted(cache, sigs, users)
  {
    cache' := ClearRefs(cache, sigs);
    ghost var done: map<string, seq<string>> := map[];
    var left := users.Keys;
    while left != {}
      invariant left <= users.Keys && done == map n | n in users && n !in left :: users[n]
      invariant cache' == Recounted(cache, sigs, done)
      decreases left
    {
      var n :| n in left;
      RecountOne(cache, sigs, done, n, users[n]);
      cache' := RetainTaskStageRefs(cache', sigs, n, users[n]);
      left := left - {n};
      done := done[n := users[n]];
    }
    assert done == users;
  }

  method ClearRefs(cache: Cache, ghost sigs: Sigs) returns (cache': Cache)
    ensures cache' == Recounted(cache, sigs, map[])
  {
    cache' := cache;
    var left := cache.Keys;
    while left != {}
      invariant left <= cache.Keys && cache'.Keys == cache.Keys
      invariant forall sig :: sig in cache ==>
        cache'[sig] == if sig in left then cache[sig] else Entry(cache[sig].fn, 0, {})
      decreases left
    {
      var sig :| sig in left;
      cache' := cache'[sig := Entry(cache'[sig].fn, 0, {})];
      left := left - {sig};
    }
    forall sig | sig in cache
      ensures UsersOf(sigs, map[], sig) == {}
    {
    }
  }

  method GcUnusedStageCache(cache: Cache) returns (cache': Cache)
    ensures cache' == Collected(cache)
  {
    cache' := cache;
    var left := cache.Keys;
    while left != {}
      invariant left <= cache.Keys
      invariant cache' == map sig | sig in cache && (sig in left || cache[sig].refs > 0) :: cache[sig]
      decreases left
    {
      var sig :| sig in left;
      if cache[sig].refs <= 0 {
        cache' := cache' - {sig};
      }
      left := left - {sig};
    }
  }
}
