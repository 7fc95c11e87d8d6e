/**
 * What a stage configuration compiles to.
 *
 * `Compiled` is the meaning of compilation, branch by branch; `CompileStage` and the routing loop
 * `CompileRoutes` compute it.  Regular expressions are checked by a predicate given from outside.
 * What a compiled stage does to a packet is the subject of `Pipelines`.
 */
module Stages {
  import opened Bytes
  import opened Config
  import opened Options
  import opened Text

  /** Packet metadata other than the route; `path` and `name` are the target path and file name. */
  datatype Meta = Meta(recordKey: seq<byte>, path: string, name: string, origin: string)

  /** `id` tells packet objects apart; rewriting a packet in place keeps it. */
  datatype Packet = Packet(id: nat, payload: seq<byte>, route: string, meta: Meta)

  datatype Stage =
    | MatchBytes(offset: int, want: seq<byte>)
    | ReplaceBytes(offset: int, with: seq<byte>)
    | RouteBytes(offset: int, keyLen: int, routes: map<seq<byte>, string>, defaultSender: string)
    | RecordKey(offset: int, length: int, encoding: string)
    | TargetPath(value: string)
    | StripPrefix(prefix: string)
    | AddPrefix(prefix: string)
    | ReplaceName(oldText: string, newText: string)
    | PathRegex(pattern: string, replacement: string)
    | NameRegex(pattern: string, replacement: string)

  // Compiling

  predicate CaseOk(key: string, sender: string) {
    Width(key) > 0 && sender != ""
  }

  /** Bytes a hexadecimal key stands for, or -1 when it is not hexadecimal. */
  function Width(key: string): int {
    if DecodeHex(key).Some? then |DecodeHex(key).value| else -1
  }

  /** The cases a route stage compiles. */
  predicate CasesOk(cases: map<string, string>) {
    && cases != map[]
    && (forall k :: k in cases ==> CaseOk(k, cases[k]))
    && (forall j, k :: j in cases && k in cases ==> Width(j) == Width(k))
  }

  /** The routing table built from `keys` in order: a later key overwrites an equal earlier value. */
  ghost function Table(cases: map<string, string>, keys: seq<string>): map<seq<byte>, string>
    requires forall k :: k in keys ==> k in cases && DecodeHex(k).Some?
  {
    if keys == [] then map[]
    else
      var last := keys[|keys| - 1];
      Table(cases, keys[..|keys| - 1])[DecodeHex(last).value := cases[last]]
  }

  ghost function KeyLength(cases: map<string, string>): int
    requires CasesOk(cases)
  {
    var k :| k in cases;
    Width(k)
  }

  ghost function Compiled(sc: StageConfig, regexOk: string -> bool): Option<Stage> {
    match sc.kind
    case "match_offset_bytes" =>
      if DecodeHex(sc.hex).Some? then Some(MatchBytes(sc.offset, DecodeHex(sc.hex).value)) else None
    case "replace_offset_bytes" =>
      if DecodeHex(sc.hex).Some? then Some(ReplaceBytes(sc.offset, DecodeHex(sc.hex).value)) else None
    case "route_offset_bytes_sender" =>
      if CasesOk(sc.cases)
      then Some(RouteBytes(sc.offset, KeyLength(sc.cases), Table(sc.cases, Sorted(sc.cases.Keys)), sc.defaultSender))
      else None
    case "set_kafka_record_key_from_offset_bytes" =>
      var encoding := TrimSpace(sc.encoding);
      if encoding == "text" || encoding == "hex" then Some(RecordKey(sc.offset, sc.length, encoding)) else None
    case "set_target_file_path" => if sc.value == "" then None else Some(TargetPath(sc.value))
    case "rewrite_target_path_strip_prefix" => if sc.prefix == "" then None else Some(StripPrefix(sc.prefix))
    case "rewrite_target_path_add_prefix" => if sc.prefix == "" then None else Some(AddPrefix(sc.prefix))
    case "rewrite_target_filename_replace" => if sc.oldText == "" then None else Some(ReplaceName(sc.oldText, sc.newText))
    case "rewrite_target_path_regex" =>
      if regexOk(sc.pattern) then Some(PathRegex(sc.pattern, sc.replacement)) else None
    case "rewrite_target_filename_regex" =>
      if regexOk(sc.pattern) then Some(NameRegex(sc.pattern, sc.replacement)) else None
    case _ => None
  }

  lemma TableSnoc(cases: map<string, string>, keys: seq<string>, k: string)
    requires forall j :: j in keys + [k] ==> j in cases && DecodeHex(j).Some?
    ensures (forall j :: j in keys ==> j in keys + [k]) && k in keys + [k]
    ensures Table(cases, keys + [k]) == Table(cases, keys)[DecodeHex(k).value := cases[k]]
  {
    assert (keys + [k])[..|keys|] == keys;
  }

  ghost predicate Scanned(cases: map<string, string>, done: seq<string>, keyLen: int, table: map<seq<byte>, string>) {
    && (forall k :: k in done ==> k in cases && CaseOk(k, cases[k]) && Width(k) == keyLen)
    && (keyLen < 0 <==> done == [])
    && table == Table(cases, done)
  }

  lemma ScanOne(cases: map<string, string>, done: seq<string>, keyLen: int, table: map<seq<byte>, string>, k: string)
    requires Scanned(cases, done, keyLen, table)
    requires k in cases && CaseOk(k, cases[k]) && (keyLen < 0 || Width(k) == keyLen)
    ensures Scanned(cases, done + [k], Width(k), table[DecodeHex(k).value := cases[k]])
  {
    TableSnoc(cases, done, k);
  }

  lemma ScanFails(cases: map<string, string>, done: seq<string>, keyLen: int, table: map<seq<byte>, string>, k: string)
    requires Scanned(cases, done, keyLen, table)
    requires k in cases && (!CaseOk(k, cases[k]) || (keyLen >= 0 && Width(k) != keyLen))
    ensures !CasesOk(cases)
  {
    if keyLen >= 0 {
      assert done[0] in done;
      assert Width(done[0]) == keyLen;
    }
  }

  lemma ScanEnds(cases: map<string, string>, keys: seq<string>, keyLen: int, table: map<seq<byte>, string>)
    requires Scanned(cases, keys, keyLen, table) && Elements(keys) == cases.Keys && cases != map[]
    ensures CasesOk(cases) && KeyLength(cases) == keyLen
  {
    assert forall k :: k in cases ==> k in Elements(keys);
  }

  /** The loop that builds a routing table: keys in sorted order, the first bad case ends it. */
  method CompileRoutes(cases: map<string, string>) returns (routes: Option<map<seq<byte>, string>>, keyLen: int)
    requires cases != map[]
    ensures routes.Some? <==> CasesOk(cases)
    ensures routes.Some? ==> routes.value == Table(cases, Sorted(cases.Keys)) && keyLen == KeyLength(cases)
  {
    var keys := SortedKeys(cases);
    var table: map<seq<byte>, string> := map[];
    keyLen := -1;
    var i := 0;
    while i < |keys|
      invariant 0 <= i <= |keys| && Scanned(cases, keys[..i], keyLen, table)
    {
      var k := keys[i];
      assert k in Elements(keys);
      var v := DecodeHex(k);
      if v.None? || v.value == [] {
        ScanFails(cases, keys[..i], keyLen, table, k);
        return None, keyLen;
      }
      if keyLen >= 0 && |v.value| != keyLen {
        ScanFails(cases, keys[..i], keyLen, table, k);
        return None, keyLen;
      }
      if cases[k] == "" {
        ScanFails(cases, keys[..i], keyLen, table, k);
        return None, keyLen;
      }
      ScanOne(cases, keys[..i], keyLen, table, k);
      assert keys[..i + 1] == keys[..i] + [k];
      keyLen := |v.value|;
      table := table[v.value := cases[k]];
      i := i + 1;
    }
    assert keys[..i] == keys;
    ScanEnds(cases, keys, keyLen, table);
    routes := Some(table);
  }

  method CompileStage(sc: StageConfig, regexOk: string -> bool) returns (stage: Option<Stage>)
    ensures stage == Compiled(sc, regexOk)
  {
    match sc.kind
    case "match_offset_bytes" =>
      var b := DecodeHex(sc.hex);
      stage := if b.None? then None else Some(MatchBytes(sc.offset, b.value));
    case "replace_offset_bytes" =>
      var b := DecodeHex(sc.hex);
      stage := if b.None? then None else Some(ReplaceBytes(sc.offset, b.value));
    case "route_offset_bytes_sender" =>
      if sc.cases == map[] {
        return None;
      }
      var routes, keyLen := CompileRoutes(sc.cases);
      if routes.None? {
        return None;
      }
      stage := Some(RouteBytes(sc.offset, keyLen, routes.value, sc.defaultSender));
    case "set_kafka_record_key_from_offset_bytes" =>
      var encoding := TrimSpace(sc.encoding);
      stage := if encoding in ["text", "hex"] then Some(RecordKey(sc.offset, sc.length, encoding)) else None;
    case "set_target_file_path" => stage := if sc.value == "" then None else Some(TargetPath(sc.value));
    case "rewrite_target_path_strip_prefix" =>
      stage := if sc.prefix == "" then None else Some(StripPrefix(sc.prefix));
    case "rewrite_target_path_add_prefix" =>
      stage := if sc.prefix == "" then None else Some(AddPrefix(sc.prefix));
    case "rewrite_target_filename_replace" =>
      stage := if sc.oldText == "" then None else Some(ReplaceName(sc.oldText, sc.newText));
    case "rewrite_target_path_regex" =>
      stage := if regexOk(sc.pattern) then Some(PathRegex(sc.pattern, sc.replacement)) else None;
    case "rewrite_target_filename_regex" =>
      stage := if regexOk(sc.pattern) then Some(NameRegex(sc.pattern, sc.replacement)) else None;
    case _ => stage := None;
  }

  /** Which case decides a routed value: of the keys that decode to it, the last in sorted order. */
  lemma {:induction false} TableEntry(cases: map<string, string>, keys: seq<string>, v: seq<byte>)
    returns (k: string)
    requires forall j :: j in keys ==> j in cases && DecodeHex(j).Some?
    requires Ascending(keys) && v in Table(cases, keys)
    ensures k in keys && DecodeHex(k) == Some(v) && Table(cases, keys)[v] == cases[k]
    ensures forall j :: j in keys && DecodeHex(j) == Some(v) && j != k ==> Less(j, k)
  {
    var n := |keys| - 1;
    if DecodeHex(keys[n]).value == v {
      k := keys[n];
    } else {
      k := TableEntry(cases, keys[..n], v);
      assert forall j :: j in keys <==> j in keys[..n] || j == keys[n];
    }
  }

  /** The table knows exactly the values its keys decode to. */
  lemma {:induction false} TableHas(cases: map<string, string>, keys: seq<string>, v: seq<byte>)
    requires forall j :: j in keys ==> j in cases && DecodeHex(j).Some?
    ensures v in Table(cases, keys) <==> exists j :: j in keys && DecodeHex(j) == Some(v)
  {
    if keys != [] {
      var n := |keys| - 1;
      TableHas(cases, keys[..n], v);
      assert forall j :: j in keys <==> j in keys[..n] || j == keys[n];
    }
  }
}
