/** What a running task does with one packet: run its pipelines, then send to one or all senders. */
module TaskRun {
  import opened Stages
  import opened Pipelines

  /** A live sender; `id` tells apart instances built for the same configured name. */
  datatype Instance = Instance(name: string, id: nat)

  /** Of several senders with one name the last one is indexed. */
  ghost predicate LastNamed(senders: seq<Instance>, name: string, s: Instance) {
    exists i :: 0 <= i < |senders| && senders[i] == s && s.name == name
                && (forall j :: i < j < |senders| ==> senders[j].name != name)
  }

  predicate Named(senders: seq<Instance>, name: string) {
    exists i :: 0 <= i < |senders| && senders[i].name == name
  }

  ghost predicate Indexes(index: map<string, Instance>, senders: seq<Instance>) {
    && (forall name :: name in index <==> Named(senders, name))
    && (forall name :: name in index ==> LastNamed(senders, name, index[name]))
  }

  lemma IndexOneMore(index: map<string, Instance>, senders: seq<Instance>, s: Instance)
    requires Indexes(index, senders)
    ensures Indexes(index[s.name := s], senders + [s])
  {
    var more := senders + [s];
    forall name
      ensures Named(more, name) <==> name == s.name || Named(senders, name)
    {
      if Named(senders, name) {
        var i :| 0 <= i < |senders| && senders[i].name == name;
        assert more[i].name == name;
      }
      assert more[|senders|] == s;
    }
    forall name | name in index && name != s.name
      ensures LastNamed(more, name, index[name])
    {
      var i :| 0 <= i < |senders| && senders[i] == index[name] && index[name].name == name
               && (forall j :: i < j < |senders| ==> senders[j].name != name);
      assert more[i] == index[name];
    }
    assert more[|senders|] == s;
    assert LastNamed(more, s.name, s);
  }

  method RebuildSenderIndex(senders: seq<Instance>) returns (index: map<string, Instance>)
    ensures Indexes(index, senders)
  {
    index := map[];
    var i := 0;
    while i < |senders|
      invariant 0 <= i <= |senders| && Indexes(index, senders[..i])
    {
      IndexOneMore(index, senders[..i], senders[i]);
      assert senders[..i + 1] == senders[..i] + [senders[i]];
      index := index[senders[i].name := senders[i]];
      i := i + 1;
    }
    assert senders[..i] == senders;
  }

  // Pipelines in sequence

  function RunAll(ones: seq<One>, ps: seq<Packet>): seq<Packet> {
    if ps == [] then [] else RunAll(ones, ps[..|ps| - 1]) + RunStages(ones, [ps[|ps| - 1]])
  }

  function RunPipelines(pipelines: seq<seq<One>>, ps: seq<Packet>): seq<Packet> {
    if pipelines == [] then ps else RunAll(pipelines[|pipelines| - 1], RunPipelines(pipelines[..|pipelines| - 1], ps))
  }

  lemma {:induction false} EmptyStaysEmpty(pipelines: seq<seq<One>>, k: nat, ps: seq<Packet>)
    requires k <= |pipelines| && RunPipelines(pipelines[..k], ps) == []
    ensures RunPipelines(pipelines, ps) == []
    decreases |pipelines|
  {
    if k < |pipelines| {
      assert pipelines[..|pipelines| - 1][..k] == pipelines[..k];
      EmptyStaysEmpty(pipelines[..|pipelines| - 1], k, ps);
    } else {
      assert pipelines[..k] == pipelines;
    }
  }

  lemma RunAllOne(ones: seq<One>, p: Packet)
    ensures RunAll(ones, [p]) == RunStages(ones, [p])
  {
    assert [p][..0] == [];
    assert RunAll(ones, []) == [];
  }

  ghost predicate AllPipelinesKeep(pipelines: seq<seq<One>>) {
    forall k :: 0 <= k < |pipelines| ==> AllKeepPacket(pipelines[k])
  }

  /** A task's pipelines together yield the packet object they were given, rewritten, or nothing. */
  lemma {:induction false} OneOrNone(pipelines: seq<seq<One>>, p: Packet)
    ensures |RunPipelines(pipelines, [p])| <= 1
    ensures AllPipelinesKeep(pipelines) ==> AllSame(RunPipelines(pipelines, [p]), p.id)
  {
    if pipelines != [] {
      var before, ones := RunPipelines(pipelines[..|pipelines| - 1], [p]), pipelines[|pipelines| - 1];
      OneOrNone(pipelines[..|pipelines| - 1], p);
      if before != [] {
        RunAllOne(ones, before[0]);
        AtMostOne(ones, before[0]);
        assert before == [before[0]];
        if AllPipelinesKeep(pipelines) {
          assert before[0] in before;
          StagesSame(ones, before, p.id);
        }
      }
    }
  }

  // Sending

  type Send = (Instance, Packet)

  function ToEach(senders: seq<Instance>, p: Packet): seq<Send> {
    seq(|senders|, i requires 0 <= i < |senders| => (senders[i], p))
  }

  /** A routed packet goes to the one sender of that name, an unrouted one to every sender. */
  function SendsOf(senders: seq<Instance>, index: map<string, Instance>, p: Packet): seq<Send> {
    if p.route == "" then ToEach(senders, p)
    else if p.route in index then [(index[p.route], p)]
    else []
  }

  predicate Misses(index: map<string, Instance>, p: Packet) {
    p.route != "" && p.route !in index
  }

  function Outcome(senders: seq<Instance>, index: map<string, Instance>, ps: seq<Packet>): (seq<Send>, nat) {
    if ps == [] then ([], 0)
    else
      var (sends, misses) := Outcome(senders, index, ps[..|ps| - 1]);
      var p := ps[|ps| - 1];
      (sends + SendsOf(senders, index, p), misses + if Misses(index, p) then 1 else 0)
  }

  method RunPackets(ones: seq<One>, ps: seq<Packet>) returns (next: seq<Packet>)
    ensures next == RunAll(ones, ps)
  {
    next := [];
    var i := 0;
    while i < |ps|
      invariant 0 <= i <= |ps| && next == RunAll(ones, ps[..i])
    {
      assert ps[..i + 1][..i] == ps[..i];
      var out := Process(ones, ps[i]);
      if |out| > 0 {
        next := next + out;
      }
      i := i + 1;
    }
    assert ps[..i] == ps;
  }

  /** The packets that are not the one the task was given, which it must release itself. */
  function Extra(p: Packet, ps: seq<Packet>): set<nat> {
    set q | q in ps && q.id != p.id :: q.id
  }

  /** With stages that rewrite in place there is nothing else to release. */
  lemma NothingExtra(pipelines: seq<seq<One>>, p: Packet)
    requires AllPipelinesKeep(pipelines)
    ensures Extra(p, RunPipelines(pipelines, [p])) == {}
  {
    OneOrNone(pipelines, p);
  }

  method ProcessAndSend(pipelines: seq<seq<One>>, senders: seq<Instance>, index: map<string, Instance>, p: Packet)
    returns (sends: seq<Send>, misses: nat, released: set<nat>)
    ensures (sends, misses) == Outcome(senders, index, RunPipelines(pipelines, [p]))
    ensures released == Extra(p, RunPipelines(pipelines, [p]))
  {
    var packets := [p];
    var k := 0;
    while k < |pipelines|
      invariant 0 <= k <= |pipelines| && packets == RunPipelines(pipelines[..k], [p])
    {
      assert pipelines[..k + 1][..k] == pipelines[..k];
      packets := RunPackets(pipelines[k], packets);
      k := k + 1;
      if packets == [] {
        EmptyStaysEmpty(pipelines, k, [p]);
        return [], 0, {};
      }
    }
    assert pipelines[..k] == pipelines;
    sends, misses, released := SendPackets(p, senders, index, packets);
  }

  method SendPackets(given: Packet, senders: seq<Instance>, index: map<string, Instance>, packets: seq<Packet>)
    returns (sends: seq<Send>, misses: nat, released: set<nat>)
    ensures (sends, misses) == Outcome(senders, index, packets)
    ensures released == Extra(given, packets)
  {
    sends, misses, released := [], 0, {};
    var i := 0;
    while i < |packets|
      invariant 0 <= i <= |packets| && (sends, misses) == Outcome(senders, index, packets[..i])
      invariant released == Extra(given, packets[..i])
    {
      assert packets[..i + 1][..i] == packets[..i];
      var p := packets[i];
      if p.id != given.id {
        released := released + {p.id};
      }
      if p.route != "" {
        if p.route in index {
          sends := sends + [(index[p.route], p)];
        } else {
          misses := misses + 1;
          assert sends + [] == sends;
        }
      } else {
        sends := SendAll(senders, p, sends);
      }
      i := i + 1;
    }
    assert packets[..i] == packets;
  }

  method SendAll(senders: seq<Instance>, p: Packet, before: seq<Send>) returns (sends: seq<Send>)
    ensures sends == before + ToEach(senders, p)
  {
    sends := before;
    var i := 0;
    while i < |senders|
      invariant 0 <= i <= |senders| && sends == before + ToEach(senders[..i], p)
    {
      assert ToEach(senders[..i + 1], p) == ToEach(senders[..i], p) + [(senders[i], p)];
      sends := sends + [(senders[i], p)];
      i := i + 1;
    }
    assert senders[..i] == senders;
  }
}
