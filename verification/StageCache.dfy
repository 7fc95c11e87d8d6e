/**
 * Compiling pipelines, with and without the cache of compiled stages, and the cache's bookkeeping
 * of which tasks use which stage.  A stage's signature is its configuration.
 */
module StageCache {
  import opened Config
  import opened Options
  import opened Text
  import opened Stages

  datatype Entry = Entry(fn: Stage, refs: int, tasks: set<string>)

  type Cache = map<StageConfig, Entry>

  type Compiler = StageConfig -> Option<Stage>

  predicate ListCompiles(list: seq<StageConfig>, compile: Compiler) {
    forall i :: 0 <= i < |list| ==> compile(list[i]).Some?
  }

  predicate AllCompile(pipelines: map<string, StageList>, compile: Compiler) {
    forall pn :: pn in pipelines ==> ListCompiles(StagesOf(pipelines[pn]), compile)
  }

  function CompiledList(list: seq<StageConfig>, compile: Compiler): seq<Stage>
    requires ListCompiles(list, compile)
  {
    seq(|list|, i requires 0 <= i < |list| => compile(list[i]).value)
  }

  function CompiledAll(pipelines: map<string, StageList>, compile: Compiler): map<string, seq<Stage>>
    requires AllCompile(pipelines, compile)
  {
    map pn | pn in pipelines :: CompiledList(StagesOf(pipelines[pn]), compile)
  }

  function SigsOf(pipelines: map<string, StageList>): map<string, seq<StageConfig>> {
    map pn | pn in pipelines :: StagesOf(pipelines[pn])
  }

  function Members(list: seq<StageConfig>): set<StageConfig> {
    set sig | sig in list
  }

  function StagesIn(pipelines: map<string, StageList>): set<StageConfig> {
    set pn, sig | pn in pipelines && sig in StagesOf(pipelines[pn]) :: sig
  }

  /** Every entry holds what compiling its configuration gives. */
  predicate Honest(cache: Cache, compile: Compiler) {
    forall sig :: sig in cache ==> compile(sig) == Some(cache[sig].fn)
  }

  /** `cache` with unreferenced entries for the signatures it lacks. */
  function Grown(cache: Cache, sigs: set<StageConfig>, compile: Compiler): Cache
    requires forall sig :: sig in sigs ==> compile(sig).Some?
  {
    map sig | sig in cache.Keys + sigs ::
      if sig in cache then cache[sig] else Entry(compile(sig).value, 0, {})
  }

  lemma MembersSnoc(list: seq<StageConfig>, i: nat)
    requires i < |list|
    ensures Members(list[..i + 1]) == Members(list[..i]) + {list[i]}
  {
    assert list[..i + 1] == list[..i] + [list[i]];
  }

  /** The cache after compiling `sigs` from `cache0`, and the entries made on the way. */
  ghost predicate Cached(cache0: Cache, sigs: set<StageConfig>, cache: Cache, created: set<StageConfig>, compile: Compiler) {
    && (forall s :: s in sigs ==> compile(s).Some?)
    && cache == Grown(cache0, sigs, compile)
    && created == sigs - cache0.Keys
  }

  lemma Hit(cache0: Cache, sigs: set<StageConfig>, cache: Cache, created: set<StageConfig>, compile: Compiler, sig: StageConfig)
    requires Honest(cache0, compile) && Cached(cache0, sigs, cache, created, compile) && sig in cache
    ensures compile(sig) == Some(cache[sig].fn)
    ensures Cached(cache0, sigs + {sig}, cache, created, compile)
  {
    assert cache0.Keys + (sigs + {sig}) == cache0.Keys + sigs;
    assert sigs + {sig} - cache0.Keys == created;
  }

  lemma Miss(cache0: Cache, sigs: set<StageConfig>, cache: Cache, created: set<StageConfig>, compile: Compiler, sig: StageConfig)
    requires Cached(cache0, sigs, cache, created, compile) && sig !in cache && compile(sig).Some?
    ensures Cached(cache0, sigs + {sig}, cache[sig := Entry(compile(sig).value, 0, {})], created + {sig}, compile)
  {
  }

  /** One pipeline: cached stages are reused, others compiled and cached. */
  method CompileList(ghost cache0: Cache, ghost sigs: set<StageConfig>, cache: Cache, created: set<StageConfig>,
                     list: seq<StageConfig>, compile: Compiler)
    returns (ok: bool, stages: seq<Stage>, cache': Cache, created': set<StageConfig>, ghost sigs': set<StageConfig>)
    requires Honest(cache0, compile) && Cached(cache0, sigs, cache, created, compile)
    ensures ok <==> ListCompiles(list, compile)
    ensures ok ==> stages == CompiledList(list, compile) && sigs' == sigs + Members(list)
    ensures Cached(cache0, sigs', cache', created', compile)
  {
    stages, cache', created', sigs' := [], cache, created, sigs;
    var i := 0;
    while i < |list|
      invariant 0 <= i <= |list| && ListCompiles(list[..i], compile)
      invariant stages == CompiledList(list[..i], compile)
      invariant sigs' == sigs + Members(list[..i])
      invariant Cached(cache0, sigs', cache', created', compile)
    {
      var sig := list[i];
      MembersSnoc(list, i);
      if sig in cache' {
        Hit(cache0, sigs', cache', created', compile, sig);
        stages := stages + [cache'[sig].fn];
      } else {
        var fn := compile(sig);
        if fn.None? {
          return false, [], cache', created', sigs';
        }
        Miss(cache0, sigs', cache', created', compile, sig);
        cache' := cache'[sig := Entry(fn.value, 0, {})];
        created' := created' + {sig};
        stages := stages + [fn.value];
      }
      sigs' := sigs' + {sig};
      i := i + 1;
    }
    assert list[..i] == list;
    ok := true;
  }

  /** Dropping the unreferenced entries a failed compilation made. */
  method CleanupCreated(ghost cache0: Cache, ghost sigs: set<StageConfig>, cache: Cache, created: set<StageConfig>,
                        ghost compile: Compiler) returns (cache': Cache)
    requires Cached(cache0, sigs, cache, created, compile)
    ensures cache' == cache0
  {
    cache' := cache;
    var left := created;
    while left != {}
      invariant left <= created && cache' == cache - (created - left)
      decreases left
    {
      var sig :| sig in left;
      assert cache'[sig].refs == 0;
      if sig in cache' && cache'[sig].refs == 0 {
        cache' := cache' - {sig};
      }
      assert cache - (created - (left - {sig})) == cache - (created - left) - {sig};
      left := left - {sig};
    }
    assert cache - (created - {}) == cache0;
  }

  /** One pipeline; when it does not compile, what this compilation has cached is dropped again. */
  method CompileListOrCleanUp(ghost cache0: Cache, ghost sigs: set<StageConfig>, cache: Cache, created: set<StageConfig>,
                              list: seq<StageConfig>, compile: Compiler)
    returns (ok: bool, stages: seq<Stage>, cache': Cache, created': set<StageConfig>)
    requires Honest(cache0, compile) && Cached(cache0, sigs, cache, created, compile)
    ensures ok <==> ListCompiles(list, compile)
    ensures ok ==> stages == CompiledList(list, compile)
    ensures ok ==> Cached(cache0, sigs + Members(list), cache', created', compile)
    ensures !ok ==> cache' == cache0
  {
    ghost var sigs';
    ok, stages, cache', created', sigs' := CompileList(cache0, sigs, cache, created, list, compile);
    if !ok {
      cache' := CleanupCreated(cache0, sigs', cache', created', compile);
    }
  }

  function Except(pipelines: map<string, StageList>, left: set<string>): map<string, StageList> {
    map pn | pn in pipelines && pn !in left :: pipelines[pn]
  }

  /** All pipelines but those in `left` are compiled. */
  ghost predicate CompiledUpTo(pipelines: map<string, StageList>, left: set<string>, out: map<string, seq<Stage>>,
                               sigs: map<string, seq<StageConfig>>, compile: Compiler)
  {
    var done := Except(pipelines, left);
    AllCompile(done, compile) && out == CompiledAll(done, compile) && sigs == SigsOf(done)
  }

  lemma CompiledOne(pipelines: map<string, StageList>, left: set<string>, pn: string, out: map<string, seq<Stage>>,
                    sigs: map<string, seq<StageConfig>>, compile: Compiler)
    requires CompiledUpTo(pipelines, left, out, sigs, compile) && pn in left && pn in pipelines
    requires ListCompiles(StagesOf(pipelines[pn]), compile)
    ensures var list := StagesOf(pipelines[pn]);
            && CompiledUpTo(pipelines, left - {pn}, out[pn := CompiledList(list, compile)], sigs[pn := list], compile)
            && StagesIn(Except(pipelines, left - {pn})) == StagesIn(Except(pipelines, left)) + Members(list)
  {
    assert Except(pipelines, left - {pn}) == Except(pipelines, left)[pn := pipelines[pn]];
    OneMorePipeline(Except(pipelines, left), pn, pipelines[pn], compile);
  }

  /** All pipelines, in whatever order the map yields them. */
  method CompilePipelinesWithStageCache(cache0: Cache, pipelines: map<string, StageList>, compile: Compiler)
    returns (ok: bool, out: map<string, seq<Stage>>, sigs: map<string, seq<StageConfig>>, cache: Cache)
    requires Honest(cache0, compile)
    ensures ok <==> AllCompile(pipelines, compile)
    ensures ok ==> out == CompiledAll(pipelines, compile) && sigs == SigsOf(pipelines)
    ensures ok ==> (forall s :: s in StagesIn(pipelines) ==> compile(s).Some?)
                   && cache == Grown(cache0, StagesIn(pipelines), compile)
    ensures !ok ==> cache == cache0
  {
    out, sigs, cache := map[], map[], cache0;
    var created: set<StageConfig> := {};
    assert Grown(cache0, {}, compile) == cache0;
    var left := pipelines.Keys;
    assert StagesIn(Except(pipelines, left)) == {};
    while left != {}
      invariant left <= pipelines.Keys && CompiledUpTo(pipelines, left, out, sigs, compile)
      invariant Cached(cache0, StagesIn(Except(pipelines, left)), cache, created, compile)
      decreases left
    {
      var pn :| pn in left;
      var stages: seq<Stage>;
      ok, stages, cache, created :=
        CompileListOrCleanUp(cache0, StagesIn(Except(pipelines, left)), cache, created, StagesOf(pipelines[pn]), compile);
      if !ok {
        assert pn in pipelines;
        return;
      }
      CompiledOne(pipelines, left, pn, out, sigs, compile);
      out := out[pn := stages];
      sigs := sigs[pn := StagesOf(pipelines[pn])];
      left := left - {pn};
    }
    assert Except(pipelines, left) == pipelines;
    ok := true;
  }

  lemma OneMorePipeline(done: map<string, StageList>, pn: string, list: StageList, compile: Compiler)
    requires AllCompile(done, compile) && ListCompiles(StagesOf(list), compile) && pn !in done
    ensures AllCompile(done[pn := list], compile)
    ensures CompiledAll(done[pn := list], compile) == CompiledAll(done, compile)[pn := CompiledList(StagesOf(list), compile)]
    ensures SigsOf(done[pn := list]) == SigsOf(done)[pn := StagesOf(list)]
    ensures StagesIn(done[pn := list]) == StagesIn(done) + Members(StagesOf(list))
  {
    StagesInMore(done, pn, list);
  }

  lemma StagesInMore(done: map<string, StageList>, pn: string, list: StageList)
    requires pn !in done
    ensures StagesIn(done[pn := list]) == StagesIn(done) + Members(StagesOf(list))
  {
    var more := done[pn := list];
    forall sig | sig in StagesIn(done)
      ensures sig in StagesIn(more)
    {
      var q :| q in done && sig in StagesOf(done[q]);
      assert q in more && more[q] == done[q];
    }
    forall sig | sig in Members(StagesOf(list))
      ensures sig in StagesIn(more)
    {
      assert pn in more && sig in StagesOf(more[pn]);
    }
    forall sig | sig in StagesIn(more)
      ensures sig in StagesIn(done) + Members(StagesOf(list))
    {
      var q :| q in more && sig in StagesOf(more[q]);
      if q != pn {
        assert q in done && sig in StagesOf(done[q]);
      }
    }
  }

  /** Compiling without a cache. */
  method CompilePipelines(pipelines: map<string, StageList>, compile: Compiler)
    returns (ok: bool, out: map<string, seq<Stage>>)
    ensures ok <==> AllCompile(pipelines, compile)
    ensures ok ==> out == CompiledAll(pipelines, compile)
  {
    out := map[];
    ghost var done: map<string, StageList> := map[];
    var left := pipelines.Keys;
    while left != {}
      invariant left <= pipelines.Keys && done == map pn | pn in pipelines && pn !in left :: pipelines[pn]
      invariant AllCompile(done, compile) && out == CompiledAll(done, compile)
      decreases left
    {
      var pn :| pn in left;
      var list := StagesOf(pipelines[pn]);
      var stages: seq<Stage> := [];
      var i := 0;
      while i < |list|
        invariant 0 <= i <= |list| && ListCompiles(list[..i], compile) && stages == CompiledList(list[..i], compile)
      {
        var fn := compile(list[i]);
        if fn.None? {
          assert pn in pipelines;
          return false, out;
        }
        stages := stages + [fn.value];
        i := i + 1;
      }
      assert list[..i] == list;
      OneMorePipeline(done, pn, pipelines[pn], compile);
      out := out[pn := stages];
      left := left - {pn};
      done := done[pn := pipelines[pn]];
    }
    assert done == pipelines;
    ok := true;
  }
}
