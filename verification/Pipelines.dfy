/** Running compiled stages over a packet, and handing the outcome to a task's senders. */
module Pipelines {
  import opened Bytes
  import opened Config
  import opened Options
  import opened Text
  import opened Stages

  const MAX_INT: int := 0x7FFF_FFFF_FFFF_FFFF

  /** 64-bit signed addition. */
  function Wrap(x: int): int {
    (x + MAX_INT + 1) % (2 * (MAX_INT + 1)) - MAX_INT - 1
  }

  /** The bounds test as written: the end is computed in machine arithmetic and may wrap. */
  predicate Guard(offset: int, n: nat, payload: seq<byte>) {
    offset >= 0 && Wrap(offset + n) >= offset && Wrap(offset + n) <= |payload|
  }

  /** The `n` bytes at `offset` lie inside the payload. */
  predicate Readable(offset: int, n: nat, payload: seq<byte>) {
    0 <= offset && offset + n <= |payload|
  }

  /** For machine integers the written test says just that: a wrapped end is always rejected. */
  lemma GuardIsExact(offset: int, n: nat, payload: seq<byte>)
    requires n <= MAX_INT && offset <= MAX_INT && |payload| <= MAX_INT
    ensures Guard(offset, n, payload) <==> Readable(offset, n, payload)
  {
    if 0 <= offset && offset + n <= MAX_INT {
      assert Wrap(offset + n) == offset + n;
    } else if 0 <= offset {
      assert Wrap(offset + n) == offset + n - 2 * (MAX_INT + 1);
    }
  }

  function Field(payload: seq<byte>, offset: int, n: nat): seq<byte>
    requires Readable(offset, n, payload)
  {
    payload[offset..offset + n]
  }

  /** File stages rewrite target path and name with library path functions; `rewrite` stands for
      them and always keeps the packet. */
  type Rewriter = (Stage, Meta) -> Meta

  type One = Packet -> (Packet, bool)

  /** The per-packet function of a stage: the packet as it leaves it, and whether it is kept. */
  function Apply(stage: Stage, rewrite: Rewriter, p: Packet): (Packet, bool) {
    match stage
    case MatchBytes(offset, want) =>
      (p, Readable(offset, |want|, p.payload) && Field(p.payload, offset, |want|) == want)
    case ReplaceBytes(offset, with) =>
      if Readable(offset, |with|, p.payload)
      then (p.(payload := p.payload[..offset] + with + p.payload[offset + |with|..]), true)
      else (p, false)
    case RouteBytes(offset, keyLen, routes, defaultSender) =>
      if keyLen <= 0 || !Readable(offset, keyLen, p.payload) then (p, false)
      else if Field(p.payload, offset, keyLen) in routes then
        (p.(route := routes[Field(p.payload, offset, keyLen)]), true)
      else if defaultSender != "" then (p.(route := defaultSender), true)
      else (p, false)
    case RecordKey(offset, length, encoding) =>
      if length <= 0 || !Readable(offset, length, p.payload) then (p, false)
      else
        var field := Field(p.payload, offset, length);
        (p.(meta := p.meta.(recordKey := if encoding == "text" then field else Ascii(EncodeHex(field)))), true)
    case TargetPath(value) => (p.(meta := p.meta.(path := value)), true)
    case _ => (p.(meta := rewrite(stage, p.meta)), true)
  }

  ghost function StageOne(stage: Stage, rewrite: Rewriter): One {
    p => Apply(stage, rewrite, p)
  }

  /** The stage passes on the packet it was given, rewritten in place, and makes no other. */
  ghost predicate KeepsPacket(one: One) {
    forall p: Packet :: one(p).0.id == p.id
  }

  ghost predicate AllKeepPacket(ones: seq<One>) {
    forall i :: 0 <= i < |ones| ==> KeepsPacket(ones[i])
  }

  lemma StageKeepsPacket(stage: Stage, rewrite: Rewriter)
    ensures KeepsPacket(StageOne(stage, rewrite))
  {
    forall p: Packet
      ensures Apply(stage, rewrite, p).0.id == p.id
    {
    }
  }

  function Ascii(s: string): seq<byte> {
    seq(|s|, i requires 0 <= i < |s| => (s[i] as int % 256) as byte)
  }

  /** A kept replacement changes exactly the bytes it covers, to what a match of them then accepts. */
  lemma ReplaceThenMatch(offset: int, bytes: seq<byte>, rewrite: Rewriter, p: Packet)
    requires Apply(ReplaceBytes(offset, bytes), rewrite, p).1
    ensures var q := Apply(ReplaceBytes(offset, bytes), rewrite, p).0;
            && Apply(MatchBytes(offset, bytes), rewrite, q) == (q, true)
            && |q.payload| == |p.payload| && q.route == p.route && q.meta == p.meta
            && (forall i :: 0 <= i < |p.payload| && !(offset <= i < offset + |bytes|) ==> q.payload[i] == p.payload[i])
  {
    var q := Apply(ReplaceBytes(offset, bytes), rewrite, p).0;
    assert Field(q.payload, offset, |bytes|) == bytes;
  }

  /** A hexadecimal record key stands for the bytes of the field it was taken from. */
  lemma HexKeyIsTheField(offset: int, length: int, rewrite: Rewriter, p: Packet) returns (text: string)
    requires Apply(RecordKey(offset, length, "hex"), rewrite, p).1
    ensures Apply(RecordKey(offset, length, "hex"), rewrite, p).0.meta.recordKey == Ascii(text)
    ensures DecodeHex(text) == Some(p.payload[offset..offset + length])
  {
    text := EncodeHex(Field(p.payload, offset, length));
    DecodeEncodeHex(Field(p.payload, offset, length));
  }

  /** A compiled route stage, case by case: a payload too short for the field is dropped; a field some
      case decodes to goes to the last such case's sender; any other goes to the default sender, and
      is dropped without one.  Payload and metadata are untouched. */
  lemma RouteByCases(sc: StageConfig, regexOk: string -> bool, rewrite: Rewriter, p: Packet) returns (k: Option<string>)
    requires sc.kind == "route_offset_bytes_sender" && Compiled(sc, regexOk).Some?
    ensures var stage := Compiled(sc, regexOk).value;
            var n := KeyLength(sc.cases);
            var (q, kept) := Apply(stage, rewrite, p);
            && n > 0 && q == p.(route := q.route)
            && (!Readable(sc.offset, n, p.payload) ==> !kept)
            && (Readable(sc.offset, n, p.payload) ==>
                  match k
                  case Some(key) =>
                    && kept && key in sc.cases && q.route == sc.cases[key]
                    && DecodeHex(key) == Some(Field(p.payload, sc.offset, n))
                    && (forall j :: j in sc.cases && DecodeHex(j) == DecodeHex(key) && j != key ==> Less(j, key))
                  case None =>
                    && (forall j :: j in sc.cases ==> DecodeHex(j) != Some(Field(p.payload, sc.offset, n)))
                    && (kept <==> sc.defaultSender != "") && (kept ==> q.route == sc.defaultSender))
  {
    var n := KeyLength(sc.cases);
    var keys := Sorted(sc.cases.Keys);
    assert forall j :: j in keys <==> j in Elements(keys);
    k := None;
    if Readable(sc.offset, n, p.payload) {
      var field := Field(p.payload, sc.offset, n);
      TableHas(sc.cases, keys, field);
      if field in Table(sc.cases, keys) {
        var key := TableEntry(sc.cases, keys, field);
        k := Some(key);
      }
    }
  }

  // A stage over a list of packets

  function Visited(one: One, ps: seq<Packet>): seq<Packet> {
    seq(|ps|, i requires 0 <= i < |ps| => one(ps[i]).0)
  }

  function Kept(one: One, ps: seq<Packet>): seq<Packet> {
    if ps == [] then []
    else Kept(one, ps[..|ps| - 1]) + (if one(ps[|ps| - 1]).1 then [one(ps[|ps| - 1]).0] else [])
  }

  ghost predicate AllKept(one: One, ps: seq<Packet>) {
    forall i :: 0 <= i < |ps| ==> one(ps[i]).1
  }

  lemma {:induction false} AllKeptIsVisited(one: One, ps: seq<Packet>)
    requires AllKept(one, ps)
    ensures Kept(one, ps) == Visited(one, ps)
  {
    if ps != [] {
      AllKeptIsVisited(one, ps[..|ps| - 1]);
      assert Visited(one, ps) == Visited(one, ps[..|ps| - 1]) + [one(ps[|ps| - 1]).0];
    }
  }

  lemma {:induction false} KeptLength(one: One, ps: seq<Packet>)
    ensures |Kept(one, ps)| <= |ps|
  {
    if ps != [] {
      KeptLength(one, ps[..|ps| - 1]);
    }
  }

  lemma KeptSnoc(one: One, ps: seq<Packet>, i: nat)
    requires i < |ps|
    ensures Kept(one, ps[..i + 1]) == Kept(one, ps[..i]) + (if one(ps[i]).1 then [one(ps[i]).0] else [])
  {
    assert ps[..i + 1][..i] == ps[..i];
  }

  /** One stage over the packets of `input`, each visited once and rewritten in place.  The input
      array itself is the result when every packet is kept. */
  method MapStage(one: One, input: array<Packet>) returns (out: array<Packet>)
    modifies input
    ensures input[..] == Visited(one, old(input[..]))
    ensures out[..] == Kept(one, old(input[..]))
    ensures out == input || fresh(out)
    ensures AllKept(one, old(input[..])) ==> out == input
  {
    ghost var ps := input[..];
    var i := 0;
    while i < input.Length
      invariant 0 <= i <= input.Length
      invariant input[..i] == Visited(one, ps)[..i] && input[i..] == ps[i..]
      invariant forall k :: 0 <= k < i ==> one(ps[k]).1
    {
      assert input[i] == input[i..][0] == ps[i];
      var (p, keep) := one(input[i]);
      input[i] := p;
      if !keep {
        AllKeptIsVisited(one, ps[..i]);
        assert Visited(one, ps[..i]) == Visited(one, ps)[..i];
        KeptSnoc(one, ps, i);
        out := MapRest(one, input, i, ps);
        return;
      }
      i := i + 1;
    }
    assert input[..] == Visited(one, ps);
    AllKeptIsVisited(one, ps);
    out := input;
  }

  /** The slow path: packet `first` was dropped, so the kept ones go to a list of their own. */
  method MapRest(one: One, input: array<Packet>, first: nat, ghost ps: seq<Packet>) returns (out: array<Packet>)
    requires first < input.Length == |ps|
    requires input[..first + 1] == Visited(one, ps)[..first + 1] && input[first + 1..] == ps[first + 1..]
    requires input[..first] == Kept(one, ps[..first + 1])
    modifies input
    ensures input[..] == Visited(one, ps) && out[..] == Kept(one, ps) && fresh(out)
  {
    var kept := input[..first];
    var i := first + 1;
    while i < input.Length
      invariant first < i <= input.Length
      invariant input[..i] == Visited(one, ps)[..i] && input[i..] == ps[i..]
      invariant kept == Kept(one, ps[..i])
    {
      assert input[i] == input[i..][0] == ps[i];
      var (p, keep) := one(input[i]);
      KeptSnoc(one, ps, i);
      input[i] := p;
      if keep {
        kept := kept + [p];
      }
      i := i + 1;
    }
    assert ps[..i] == ps && input[..] == input[..i];
    out := ToArray(kept);
  }

  method ToArray(s: seq<Packet>) returns (a: array<Packet>)
    ensures a[..] == s && fresh(a)
  {
    a := new Packet[|s|](i requires 0 <= i < |s| => s[i]);
  }

  // A pipeline

  function RunStages(ones: seq<One>, ps: seq<Packet>): seq<Packet> {
    if ones == [] then ps else Kept(ones[|ones| - 1], RunStages(ones[..|ones| - 1], ps))
  }

  lemma {:induction false} NothingStaysNothing(ones: seq<One>, k: nat, ps: seq<Packet>)
    requires k <= |ones| && RunStages(ones[..k], ps) == []
    ensures RunStages(ones, ps) == []
    decreases |ones|
  {
    if k < |ones| {
      assert ones[..|ones| - 1][..k] == ones[..k];
      NothingStaysNothing(ones[..|ones| - 1], k, ps);
    } else {
      assert ones[..k] == ones;
    }
  }

  method Process(ones: seq<One>, p: Packet) returns (out: seq<Packet>)
    ensures out == RunStages(ones, [p])
  {
    var packets := ToArray([p]);
    var i := 0;
    while i < |ones|
      invariant 0 <= i <= |ones| && fresh(packets)
      invariant packets[..] == RunStages(ones[..i], [p])
    {
      assert ones[..i + 1][..i] == ones[..i];
      packets := MapStage(ones[i], packets);
      i := i + 1;
      if packets.Length == 0 {
        NothingStaysNothing(ones, i, [p]);
        return [];
      }
    }
    assert ones[..i] == ones;
    out := packets[..];
  }

  ghost predicate AllSame(ps: seq<Packet>, id: nat) {
    forall q :: q in ps ==> q.id == id
  }

  lemma {:induction false} KeptSame(one: One, ps: seq<Packet>, id: nat)
    requires KeepsPacket(one) && AllSame(ps, id)
    ensures AllSame(Kept(one, ps), id)
  {
    if ps != [] {
      KeptSame(one, ps[..|ps| - 1], id);
      assert ps[|ps| - 1] in ps;
    }
  }

  lemma {:induction false} StagesSame(ones: seq<One>, ps: seq<Packet>, id: nat)
    requires AllKeepPacket(ones) && AllSame(ps, id)
    ensures AllSame(RunStages(ones, ps), id)
  {
    if ones != [] {
      StagesSame(ones[..|ones| - 1], ps, id);
      KeptSame(ones[|ones| - 1], RunStages(ones[..|ones| - 1], ps), id);
    }
  }

  /** Stages only rewrite or drop, so a pipeline yields at most one packet. */
  lemma {:induction false} AtMostOne(ones: seq<One>, p: Packet)
    ensures |RunStages(ones, [p])| <= 1
  {
    if ones != [] {
      AtMostOne(ones[..|ones| - 1], p);
      KeptLength(ones[|ones| - 1], RunStages(ones[..|ones| - 1], [p]));
    }
  }
}
