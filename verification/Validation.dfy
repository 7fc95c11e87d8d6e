/**
 * The reference checks of `Validate`, as loops over maps that stop at the first fault, and what
 * passing them guarantees to the runtime: every stage compiles, every name resolves, and no
 * packet is ever routed to a sender its task does not have.
 */
module Validation {
  import opened Bytes
  import opened Config
  import opened Options
  import opened Text
  import opened Stages
  import opened Pipelines
  import opened TaskRun

  // What each check accepts

  ghost predicate CasesValid(cases: map<string, string>) {
    && cases != map[]
    && (forall k :: k in cases ==> Width(k) > 0 && !Blank(cases[k]))
    && (forall j, k :: j in cases && k in cases ==> Width(j) == Width(k))
  }

  ghost predicate StageValid(sc: StageConfig, regexOk: string -> bool) {
    match sc.kind
    case "match_offset_bytes" => sc.offset >= 0 && DecodeHex(sc.hex).Some?
    case "replace_offset_bytes" => sc.offset >= 0 && DecodeHex(sc.hex).Some?
    case "route_offset_bytes_sender" => sc.offset >= 0 && CasesValid(sc.cases)
    case "set_kafka_record_key_from_offset_bytes" =>
      sc.offset >= 0 && sc.length > 0 && TrimSpace(sc.encoding) in ["text", "hex"]
    case "set_target_file_path" => !Blank(sc.value)
    case "rewrite_target_path_strip_prefix" => !Blank(sc.prefix)
    case "rewrite_target_path_add_prefix" => !Blank(sc.prefix)
    case "rewrite_target_filename_replace" => sc.oldText != ""
    case "rewrite_target_path_regex" => regexOk(sc.pattern)
    case "rewrite_target_filename_regex" => regexOk(sc.pattern)
    case _ => false
  }

  function Targets(sc: StageConfig): set<string> {
    (set k | k in sc.cases && sc.cases[k] != "" :: sc.cases[k]) +
    (if sc.defaultSender != "" then {sc.defaultSender} else {})
  }

  ghost predicate RoutesStay(stages: seq<StageConfig>, senders: seq<string>) {
    forall i :: 0 <= i < |stages| && stages[i].kind == "route_offset_bytes_sender" ==>
      Targets(stages[i]) <= Elements(senders)
  }

  ghost predicate StagesValid(stages: seq<StageConfig>, regexOk: string -> bool) {
    forall i :: 0 <= i < |stages| ==> StageValid(stages[i], regexOk)
  }

  ghost predicate PipelinesValid(pipelines: map<string, StageList>, regexOk: string -> bool) {
    forall pn :: pn in pipelines ==> !Blank(pn) && StagesValid(StagesOf(pipelines[pn]), regexOk)
  }

  ghost predicate TaskValid(tn: string, t: TaskConfig, c: Config) {
    && tn != "" && t.senders != []
    && t.executionModel in ["", "fastpath", "pool", "channel"]
    && t.channelQueueSize >= 0
    && (forall pn :: pn in t.pipelines ==> pn in c.pipelines)
    && (forall sn :: sn in t.senders ==> sn in c.senders)
    && (forall pn :: pn in t.pipelines ==> pn in c.pipelines && RoutesStay(StagesOf(c.pipelines[pn]), t.senders))
  }

  ghost predicate TaskSetValid(tsn: string, tasks: seq<string>, c: Config) {
    tsn != "" && tasks != [] && (forall tn :: tn in tasks ==> tn != "" && tn in c.tasks)
  }

  ghost predicate SelectorValid(sn: string, s: SelectorConfig, c: Config) {
    && sn != ""
    && (forall key :: key in s.matches ==> !Blank(key) && !Blank(s.matches[key]) && s.matches[key] in c.taskSets)
    && (s.defaultTaskSet != "" ==> s.defaultTaskSet in c.taskSets)
  }

  ghost predicate ReceiverValid(r: ReceiverConfig, c: Config) {
    !Blank(r.selector) && r.selector in c.selectors
  }

  ghost predicate Valid(c: Config, regexOk: string -> bool) {
    && c.tasks != map[]
    && PipelinesValid(c.pipelines, regexOk)
    && (forall tn :: tn in c.tasks ==> TaskValid(tn, c.tasks[tn], c))
    && (forall tsn :: tsn in c.taskSets ==> TaskSetValid(tsn, c.taskSets[tsn], c))
    && (forall sn :: sn in c.selectors ==> SelectorValid(sn, c.selectors[sn], c))
    && (forall rn :: rn in c.receivers ==> ReceiverValid(c.receivers[rn], c))
  }

  // The checks

  method ContainsString(items: seq<string>, want: string) returns (found: bool)
    ensures found <==> want in items
  {
    var i := 0;
    while i < |items|
      invariant 0 <= i <= |items| && want !in items[..i]
    {
      if items[i] == want {
        return true;
      }
      i := i + 1;
    }
    assert items[..i] == items;
    found := false;
  }

  method RouteStageTargets(sc: StageConfig) returns (targets: seq<string>)
    ensures Elements(targets) == Targets(sc) && NoDuplicates(targets)
  {
    targets := [];
    var left := sc.cases.Keys;
    while left != {}
      invariant left <= sc.cases.Keys && NoDuplicates(targets)
      invariant Elements(targets) == set k | k in sc.cases && k !in left && sc.cases[k] != "" :: sc.cases[k]
      decreases left
    {
      var k :| k in left;
      left := left - {k};
      var sn := sc.cases[k];
      var seen := ContainsString(targets, sn);
      if sn != "" && !seen {
        targets := Appended(targets, sn);
      } else if sn != "" {
        assert sn in Elements(targets);
      }
    }
    var seen := ContainsString(targets, sc.defaultSender);
    if sc.defaultSender != "" && !seen {
      targets := Appended(targets, sc.defaultSender);
    } else if sc.defaultSender != "" {
      assert sc.defaultSender in Elements(targets);
    }
  }

  method Appended(xs: seq<string>, x: string) returns (ys: seq<string>)
    requires NoDuplicates(xs) && x !in xs
    ensures NoDuplicates(ys) && Elements(ys) == Elements(xs) + {x}
  {
    ys := xs + [x];
    assert forall y :: y in ys <==> y in xs || y == x;
  }

  /** The loop over route cases, in whatever order the map yields them. */
  method ValidateCases(cases: map<string, string>) returns (ok: bool)
    ensures ok <==> CasesValid(cases)
  {
    if cases == map[] {
      return false;
    }
    var keyLen := -1;
    var left := cases.Keys;
    while left != {}
      invariant left <= cases.Keys
      invariant forall k :: k in cases && k !in left ==> Width(k) > 0 && !Blank(cases[k]) && Width(k) == keyLen
      invariant keyLen < 0 <==> left == cases.Keys
      decreases left
    {
      var hk :| hk in left;
      var v := DecodeHex(hk);
      if v.None? || v.value == [] {
        assert Width(hk) <= 0;
        return false;
      }
      if keyLen >= 0 && |v.value| != keyLen {
        assert exists k :: k in cases && k !in left;
        return false;
      }
      if Blank(cases[hk]) {
        return false;
      }
      keyLen := |v.value|;
      left := left - {hk};
    }
    ok := true;
  }

  method ValidateStage(sc: StageConfig, regexOk: string -> bool) returns (ok: bool)
    ensures ok <==> StageValid(sc, regexOk)
  {
    match sc.kind
    case "match_offset_bytes" => ok := sc.offset >= 0 && DecodeHex(sc.hex).Some?;
    case "replace_offset_bytes" => ok := sc.offset >= 0 && DecodeHex(sc.hex).Some?;
    case "route_offset_bytes_sender" =>
      ok := false;
      if sc.offset >= 0 {
        ok := ValidateCases(sc.cases);
      }
    case "set_kafka_record_key_from_offset_bytes" =>
      ok := sc.offset >= 0 && sc.length > 0 && TrimSpace(sc.encoding) in ["text", "hex"];
    case "set_target_file_path" => ok := !Blank(sc.value);
    case "rewrite_target_path_strip_prefix" => ok := !Blank(sc.prefix);
    case "rewrite_target_path_add_prefix" => ok := !Blank(sc.prefix);
    case "rewrite_target_filename_replace" => ok := sc.oldText != "";
    case "rewrite_target_path_regex" => ok := regexOk(sc.pattern);
    case "rewrite_target_filename_regex" => ok := regexOk(sc.pattern);
    case _ => ok := false;
  }

  method ValidateStages(stages: seq<StageConfig>, regexOk: string -> bool) returns (ok: bool)
    ensures ok <==> StagesValid(stages, regexOk)
  {
    var i := 0;
    while i < |stages|
      invariant 0 <= i <= |stages| && forall k :: 0 <= k < i ==> StageValid(stages[k], regexOk)
    {
      ok := ValidateStage(stages[i], regexOk);
      if !ok {
        return;
      }
      i := i + 1;
    }
    ok := true;
  }

  method ValidatePipelines(pipelines: map<string, StageList>, regexOk: string -> bool) returns (ok: bool)
    ensures ok <==> PipelinesValid(pipelines, regexOk)
  {
    var left := pipelines.Keys;
    while left != {}
      invariant left <= pipelines.Keys
      invariant forall pn :: pn in pipelines && pn !in left ==>
        !Blank(pn) && StagesValid(StagesOf(pipelines[pn]), regexOk)
      decreases left
    {
      var pn :| pn in left;
      if Blank(pn) {
        return false;
      }
      ok := ValidateStages(StagesOf(pipelines[pn]), regexOk);
      if !ok {
        return;
      }
      left := left - {pn};
    }
    ok := true;
  }

  method AllIn(names: seq<string>, known: set<string>) returns (ok: bool)
    ensures ok <==> forall n :: n in names ==> n in known
  {
    var i := 0;
    while i < |names|
      invariant 0 <= i <= |names| && forall n :: n in names[..i] ==> n in known
    {
      if names[i] !in known {
        return false;
      }
      i := i + 1;
    }
    assert names[..i] == names;
    ok := true;
  }

  method ValidateRoutes(stages: seq<StageConfig>, senders: seq<string>) returns (ok: bool)
    ensures ok <==> RoutesStay(stages, senders)
  {
    var i := 0;
    while i < |stages|
      invariant 0 <= i <= |stages| && RoutesStay(stages[..i], senders)
    {
      if stages[i].kind == "route_offset_bytes_sender" {
        var targets := RouteStageTargets(stages[i]);
        ok := AllIn(targets, set sn | sn in senders);
        if !ok {
          var t :| t in targets && t !in senders;
          assert t in Elements(targets);
          assert t in Targets(stages[i]) && t !in Elements(senders);
          return;
        }
        assert Targets(stages[i]) <= Elements(senders) by {
          forall t | t in Targets(stages[i])
            ensures t in Elements(senders)
          {
            assert t in Elements(targets);
          }
        }
      }
      i := i + 1;
    }
    assert stages[..i] == stages;
    ok := true;
  }

  method ValidateTask(tn: string, t: TaskConfig, c: Config) returns (ok: bool)
    ensures ok <==> TaskValid(tn, t, c)
  {
    if tn == "" || |t.senders| == 0 || t.executionModel !in ["", "fastpath", "pool", "channel"] || t.channelQueueSize < 0 {
      return false;
    }
    ok := AllIn(t.pipelines, c.pipelines.Keys);
    if !ok {
      return;
    }
    ok := AllIn(t.senders, c.senders.Keys);
    if !ok {
      return;
    }
    var i := 0;
    while i < |t.pipelines|
      invariant 0 <= i <= |t.pipelines|
      invariant forall k :: 0 <= k < i ==> RoutesStay(StagesOf(c.pipelines[t.pipelines[k]]), t.senders)
    {
      ok := ValidateRoutes(StagesOf(c.pipelines[t.pipelines[i]]), t.senders);
      if !ok {
        assert t.pipelines[i] in t.pipelines;
        return;
      }
      i := i + 1;
    }
    ok := true;
  }

  method ValidateTaskSet(tsn: string, tasks: seq<string>, c: Config) returns (ok: bool)
    ensures ok <==> TaskSetValid(tsn, tasks, c)
  {
    if tsn == "" || |tasks| == 0 {
      return false;
    }
    ok := AllIn(tasks, c.tasks.Keys - {""});
  }

  method ValidateSelector(sn: string, s: SelectorConfig, c: Config) returns (ok: bool)
    ensures ok <==> SelectorValid(sn, s, c)
  {
    if sn == "" {
      return false;
    }
    var left := s.matches.Keys;
    while left != {}
      invariant left <= s.matches.Keys
      invariant forall key :: key in s.matches && key !in left ==>
        !Blank(key) && !Blank(s.matches[key]) && s.matches[key] in c.taskSets
      decreases left
    {
      var key :| key in left;
      if Blank(key) || Blank(s.matches[key]) || s.matches[key] !in c.taskSets {
        return false;
      }
      left := left - {key};
    }
    ok := s.defaultTaskSet == "" || s.defaultTaskSet in c.taskSets;
  }

  method ValidateTasks(c: Config) returns (ok: bool)
    ensures ok <==> forall tn :: tn in c.tasks ==> TaskValid(tn, c.tasks[tn], c)
  {
    var left := c.tasks.Keys;
    while left != {}
      invariant left <= c.tasks.Keys
      invariant forall tn :: tn in c.tasks && tn !in left ==> TaskValid(tn, c.tasks[tn], c)
      decreases left
    {
      var tn :| tn in left;
      ok := ValidateTask(tn, c.tasks[tn], c);
      if !ok {
        return;
      }
      left := left - {tn};
    }
    ok := true;
  }

  method ValidateTaskSets(c: Config) returns (ok: bool)
    ensures ok <==> forall tsn :: tsn in c.taskSets ==> TaskSetValid(tsn, c.taskSets[tsn], c)
  {
    var left := c.taskSets.Keys;
    while left != {}
      invariant left <= c.taskSets.Keys
      invariant forall tsn :: tsn in c.taskSets && tsn !in left ==> TaskSetValid(tsn, c.taskSets[tsn], c)
      decreases left
    {
      var tsn :| tsn in left;
      ok := ValidateTaskSet(tsn, c.taskSets[tsn], c);
      if !ok {
        return;
      }
      left := left - {tsn};
    }
    ok := true;
  }

  method ValidateSelectors(c: Config) returns (ok: bool)
    ensures ok <==> forall sn :: sn in c.selectors ==> SelectorValid(sn, c.selectors[sn], c)
  {
    var left := c.selectors.Keys;
    while left != {}
      invariant left <= c.selectors.Keys
      invariant forall sn :: sn in c.selectors && sn !in left ==> SelectorValid(sn, c.selectors[sn], c)
      decreases left
    {
      var sn :| sn in left;
      ok := ValidateSelector(sn, c.selectors[sn], c);
      if !ok {
        return;
      }
      left := left - {sn};
    }
    ok := true;
  }

  method ValidateReceivers(c: Config) returns (ok: bool)
    ensures ok <==> forall rn :: rn in c.receivers ==> ReceiverValid(c.receivers[rn], c)
  {
    var left := c.receivers.Keys;
    while left != {}
      invariant left <= c.receivers.Keys
      invariant forall rn :: rn in c.receivers && rn !in left ==> ReceiverValid(c.receivers[rn], c)
      decreases left
    {
      var rn :| rn in left;
      if Blank(c.receivers[rn].selector) || c.receivers[rn].selector !in c.selectors {
        return false;
      }
      left := left - {rn};
    }
    ok := true;
  }

  /** The checks in the order they are made; pipelines are checked before and after the tasks. */
  method Validate(c: Config, regexOk: string -> bool) returns (ok: bool)
    ensures ok <==> Valid(c, regexOk)
  {
    if c.tasks == map[] {
      return false;
    }
    ok := ValidatePipelines(c.pipelines, regexOk);
    if !ok { return; }
    ok := ValidateTasks(c);
    if !ok { return; }
    ok := ValidatePipelines(c.pipelines, regexOk);
    if !ok { return; }
    ok := ValidateTaskSets(c);
    if !ok { return; }
    ok := ValidateSelectors(c);
    if !ok { return; }
    ok := ValidateReceivers(c);
  }

  // What a valid configuration guarantees

  lemma BlankEmpty()
    ensures Blank("")
  {
  }

  /** Every stage that passes its check compiles. */
  lemma ValidStageCompiles(sc: StageConfig, regexOk: string -> bool)
    requires StageValid(sc, regexOk)
    ensures Compiled(sc, regexOk).Some?
  {
    BlankEmpty();
  }

  /** The routes a compiled stage can write are the targets the task check looked at. */
  ghost predicate WritesOnly(stage: Stage, senders: set<string>) {
    stage.RouteBytes? ==>
      && (forall v :: v in stage.routes ==> stage.routes[v] in senders)
      && (stage.defaultSender == "" || stage.defaultSender in senders)
  }

  lemma CompiledRoutesAreTargets(sc: StageConfig, regexOk: string -> bool)
    requires Compiled(sc, regexOk).Some?
    ensures WritesOnly(Compiled(sc, regexOk).value, Targets(sc))
  {
    var stage := Compiled(sc, regexOk).value;
    if stage.RouteBytes? {
      forall v | v in stage.routes
        ensures stage.routes[v] in Targets(sc)
      {
        EntryIsTarget(sc, regexOk, v);
      }
    }
  }

  lemma EntryIsTarget(sc: StageConfig, regexOk: string -> bool, v: seq<byte>)
    requires Compiled(sc, regexOk).Some? && Compiled(sc, regexOk).value.RouteBytes?
    requires v in Compiled(sc, regexOk).value.routes
    ensures Compiled(sc, regexOk).value.routes[v] in Targets(sc)
  {
    var k := TableEntry(sc.cases, Sorted(sc.cases.Keys), v);
    assert CaseOk(k, sc.cases[k]);
  }

  ghost predicate Routed(p: Packet, senders: set<string>) {
    p.route == "" || p.route in senders
  }

  ghost predicate KeepsRoutes(one: One, senders: set<string>) {
    forall p :: Routed(p, senders) ==> Routed(one(p).0, senders)
  }

  ghost predicate AllKeepRoutes(ones: seq<One>, senders: set<string>) {
    forall i :: 0 <= i < |ones| ==> KeepsRoutes(ones[i], senders)
  }

  ghost predicate AllRouted(ps: seq<Packet>, senders: set<string>) {
    forall i :: 0 <= i < |ps| ==> Routed(ps[i], senders)
  }

  lemma {:induction false} KeptRouted(one: One, ps: seq<Packet>, senders: set<string>)
    requires KeepsRoutes(one, senders) && AllRouted(ps, senders)
    ensures AllRouted(Kept(one, ps), senders)
  {
    if ps != [] {
      KeptRouted(one, ps[..|ps| - 1], senders);
      assert Routed(one(ps[|ps| - 1]).0, senders);
    }
  }

  lemma {:induction false} StagesRouted(ones: seq<One>, ps: seq<Packet>, senders: set<string>)
    requires AllKeepRoutes(ones, senders) && AllRouted(ps, senders)
    ensures AllRouted(RunStages(ones, ps), senders)
  {
    if ones != [] {
      StagesRouted(ones[..|ones| - 1], ps, senders);
      KeptRouted(ones[|ones| - 1], RunStages(ones[..|ones| - 1], ps), senders);
    }
  }

  lemma {:induction false} RunAllRouted(ones: seq<One>, ps: seq<Packet>, senders: set<string>)
    requires AllKeepRoutes(ones, senders) && AllRouted(ps, senders)
    ensures AllRouted(RunAll(ones, ps), senders)
  {
    if ps != [] {
      RunAllRouted(ones, ps[..|ps| - 1], senders);
      StagesRouted(ones, [ps[|ps| - 1]], senders);
    }
  }

  lemma {:induction false} PipelinesRouted(pipelines: seq<seq<One>>, ps: seq<Packet>, senders: set<string>)
    requires forall k :: 0 <= k < |pipelines| ==> AllKeepRoutes(pipelines[k], senders)
    requires AllRouted(ps, senders)
    ensures AllRouted(RunPipelines(pipelines, ps), senders)
  {
    if pipelines != [] {
      PipelinesRouted(pipelines[..|pipelines| - 1], ps, senders);
      RunAllRouted(pipelines[|pipelines| - 1], RunPipelines(pipelines[..|pipelines| - 1], ps), senders);
    }
  }

  lemma {:induction false} RoutedNeverMisses(
    senders: seq<Instance>, index: map<string, Instance>, ps: seq<Packet>, names: set<string>)
    requires AllRouted(ps, names) && forall n :: n in names ==> n in index
    ensures Outcome(senders, index, ps).1 == 0
  {
    if ps != [] {
      RoutedNeverMisses(senders, index, ps[..|ps| - 1], names);
      assert Routed(ps[|ps| - 1], names);
    }
  }

  /** The running form of a stage list. */
  ghost function Running(stages: seq<StageConfig>, regexOk: string -> bool, rewrite: Rewriter): seq<One>
    requires forall i :: 0 <= i < |stages| ==> Compiled(stages[i], regexOk).Some?
  {
    seq(|stages|, i requires 0 <= i < |stages| => StageOne(Compiled(stages[i], regexOk).value, rewrite))
  }

  lemma StageKeepsRoutes(stage: Stage, rewrite: Rewriter, senders: set<string>)
    requires WritesOnly(stage, senders)
    ensures KeepsRoutes(StageOne(stage, rewrite), senders)
  {
    forall p | Routed(p, senders)
      ensures Routed(Apply(stage, rewrite, p).0, senders)
    {
    }
  }

  lemma TaskStagesKeepRoutes(stages: seq<StageConfig>, regexOk: string -> bool, rewrite: Rewriter, senders: seq<string>)
    requires StagesValid(stages, regexOk) && RoutesStay(stages, senders)
    requires forall i :: 0 <= i < |stages| ==> Compiled(stages[i], regexOk).Some?
    ensures AllKeepRoutes(Running(stages, regexOk, rewrite), Elements(senders))
  {
    forall i | 0 <= i < |stages|
      ensures KeepsRoutes(Running(stages, regexOk, rewrite)[i], Elements(senders))
    {
      CompiledRoutesAreTargets(stages[i], regexOk);
      StageKeepsRoutes(Compiled(stages[i], regexOk).value, rewrite, Elements(senders));
    }
  }

  /** Names of a task set as the runtime expands them: an unknown set expands to nothing. */
  function TaskNames(c: Config, taskSet: string): seq<string> {
    if taskSet in c.taskSets then c.taskSets[taskSet] else []
  }

  ghost predicate AllKnown(tasks: seq<string>, c: Config) {
    forall tn :: tn in tasks ==> tn in c.tasks
  }

  /** Passing the checks rules out every later reference or compile failure. */
  lemma ValidReferencesResolve(c: Config, regexOk: string -> bool)
    requires Valid(c, regexOk)
    ensures forall pn, i :: pn in c.pipelines && 0 <= i < |StagesOf(c.pipelines[pn])| ==>
              Compiled(StagesOf(c.pipelines[pn])[i], regexOk).Some?
    ensures forall tn, pn :: tn in c.tasks && pn in c.tasks[tn].pipelines ==> pn in c.pipelines
    ensures forall tn, sn :: tn in c.tasks && sn in c.tasks[tn].senders ==> sn in c.senders
    ensures forall sn, key :: sn in c.selectors && key in c.selectors[sn].matches ==>
              AllKnown(TaskNames(c, c.selectors[sn].matches[key]), c)
    ensures forall sn :: sn in c.selectors ==> AllKnown(TaskNames(c, c.selectors[sn].defaultTaskSet), c)
    ensures forall rn :: rn in c.receivers ==> c.receivers[rn].selector in c.selectors
  {
    forall pn, i | pn in c.pipelines && 0 <= i < |StagesOf(c.pipelines[pn])|
      ensures Compiled(StagesOf(c.pipelines[pn])[i], regexOk).Some?
    {
      assert StagesValid(StagesOf(c.pipelines[pn]), regexOk);
      ValidStageCompiles(StagesOf(c.pipelines[pn])[i], regexOk);
    }
    forall tn | tn in c.tasks
      ensures TaskValid(tn, c.tasks[tn], c)
    {
    }
    forall tsn
      ensures AllKnown(TaskNames(c, tsn), c)
    {
      if tsn in c.taskSets {
        assert TaskSetValid(tsn, c.taskSets[tsn], c);
      }
    }
    forall rn | rn in c.receivers
      ensures c.receivers[rn].selector in c.selectors
    {
      assert ReceiverValid(c.receivers[rn], c);
    }
  }

  ghost predicate Bound(senders: seq<Instance>, names: seq<string>) {
    |senders| == |names| && forall i :: 0 <= i < |names| ==> senders[i].name == names[i]
  }

  lemma BoundIndexed(senders: seq<Instance>, index: map<string, Instance>, names: seq<string>)
    requires Bound(senders, names) && Indexes(index, senders)
    ensures forall n :: n in Elements(names) ==> n in index
  {
    forall n | n in Elements(names)
      ensures n in index
    {
      var i :| 0 <= i < |names| && names[i] == n;
      assert senders[i].name == n;
    }
  }

  /** The task's pipelines in running form. */
  ghost function TaskPipelines(c: Config, t: TaskConfig, regexOk: string -> bool, rewrite: Rewriter): seq<seq<One>>
    requires Valid(c, regexOk) && forall pn :: pn in t.pipelines ==> pn in c.pipelines
  {
    ValidReferencesResolve(c, regexOk);
    seq(|t.pipelines|, k requires 0 <= k < |t.pipelines| =>
      Running(StagesOf(c.pipelines[t.pipelines[k]]), regexOk, rewrite))
  }

  /** For every packet, a validated task finds whatever sender its stages route to. */
  lemma RoutesNeverMiss(c: Config, regexOk: string -> bool, rewrite: Rewriter, tn: string,
                        senders: seq<Instance>, index: map<string, Instance>, p: Packet)
    requires Valid(c, regexOk) && tn in c.tasks && p.route == ""
    requires Bound(senders, c.tasks[tn].senders) && Indexes(index, senders)
    ensures forall pn :: pn in c.tasks[tn].pipelines ==> pn in c.pipelines
    ensures Outcome(senders, index, RunPipelines(TaskPipelines(c, c.tasks[tn], regexOk, rewrite), [p])).1 == 0
  {
    var t := c.tasks[tn];
    assert TaskValid(tn, t, c);
    ValidReferencesResolve(c, regexOk);
    var pipelines := TaskPipelines(c, t, regexOk, rewrite);
    forall k | 0 <= k < |pipelines|
      ensures AllKeepRoutes(pipelines[k], Elements(t.senders))
    {
      var pn := t.pipelines[k];
      assert pn in t.pipelines;
      assert StagesValid(StagesOf(c.pipelines[pn]), regexOk);
      TaskStagesKeepRoutes(StagesOf(c.pipelines[pn]), regexOk, rewrite, t.senders);
    }
    PipelinesRouted(pipelines, [p], Elements(t.senders));
    BoundIndexed(senders, index, t.senders);
    RoutedNeverMisses(senders, index, RunPipelines(pipelines, [p]), Elements(t.senders));
  }

  /** A validated task passes on the packet object it was given or none, and releases no other. */
  lemma TaskReleasesNothing(c: Config, regexOk: string -> bool, rewrite: Rewriter, tn: string, p: Packet)
    requires Valid(c, regexOk) && tn in c.tasks
    ensures forall pn :: pn in c.tasks[tn].pipelines ==> pn in c.pipelines
    ensures var out := RunPipelines(TaskPipelines(c, c.tasks[tn], regexOk, rewrite), [p]);
      |out| <= 1 && AllSame(out, p.id) && Extra(p, out) == {}
  {
    ValidReferencesResolve(c, regexOk);
    var t := c.tasks[tn];
    var pipelines := TaskPipelines(c, t, regexOk, rewrite);
    forall k, i | 0 <= k < |pipelines| && 0 <= i < |pipelines[k]|
      ensures KeepsPacket(pipelines[k][i])
    {
      assert t.pipelines[k] in t.pipelines;
      StageKeepsPacket(Compiled(StagesOf(c.pipelines[t.pipelines[k]])[i], regexOk).value, rewrite);
    }
    OneOrNone(pipelines, p);
    NothingExtra(pipelines, p);
  }

  lemma OutcomeOne(senders: seq<Instance>, index: map<string, Instance>, q: Packet)
    ensures Outcome(senders, index, [q]).0 == SendsOf(senders, index, q)
  {
    assert [q][..0] == [];
    assert Outcome(senders, index, []) == ([], 0);
  }

  /** What a task sends for a packet: nothing if a stage dropped it, else the one packet that came
      out, either to every bound sender or to the sender its route names. */
  lemma SendsExactly(pipelines: seq<seq<One>>, senders: seq<Instance>, index: map<string, Instance>, p: Packet)
    returns (out: Option<Packet>)
    requires Indexes(index, senders) && Outcome(senders, index, RunPipelines(pipelines, [p])).1 == 0
    ensures var sends := Outcome(senders, index, RunPipelines(pipelines, [p])).0;
            match out
            case None => sends == []
            case Some(q) =>
              if q.route == "" then sends == ToEach(senders, q)
              else exists s :: LastNamed(senders, q.route, s) && sends == [(s, q)]
  {
    OneOrNone(pipelines, p);
    var ps := RunPipelines(pipelines, [p]);
    if ps == [] {
      out := None;
    } else {
      var q := ps[0];
      assert ps == [q];
      OutcomeOne(senders, index, q);
      assert q.route != "" ==> !Misses(index, q);
      out := Some(q);
    }
  }
}
