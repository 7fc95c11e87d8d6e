/** Octets, and concatenation of a list of octet strings. */
module Bytes {

  newtype byte = x: int | 0 <= x < 256

  function Concat<T>(ss: seq<seq<T>>): seq<T> {
    if ss == [] then [] else Concat(ss[..|ss| - 1]) + ss[|ss| - 1]
  }

  lemma ConcatSnoc<T>(ss: seq<seq<T>>, s: seq<T>)
    ensures Concat(ss + [s]) == Concat(ss) + s
  {
    assert (ss + [s])[..|ss|] == ss;
  }

  /** The chunk of `file` that starts at `offset`. */
  ghost predicate PieceOf(file: seq<byte>, offset: int, piece: seq<byte>) {
    0 <= offset && offset + |piece| <= |file| && piece == file[offset..offset + |piece|]
  }

  /** Sum of the lengths of the values held in a map of octet strings. */
  ghost function SumLengths<T>(m: map<int, seq<T>>): nat
    decreases |m|
  {
    if exists k :: k in m then
      var k :| k in m;
      MapShrinks(m, k);
      |m[k]| + SumLengths(m - {k})
    else 0
  }

  lemma MapShrinks<V>(m: map<int, V>, k: int)
    requires k in m
    ensures |m - {k}| < |m|
  {
    assert (m - {k}).Keys == m.Keys - {k};
    assert |m - {k}| == |(m - {k}).Keys|;
  }

  lemma {:induction false} SumLengthsRemove<T>(m: map<int, seq<T>>, k: int)
    requires k in m
    ensures SumLengths(m) == |m[k]| + SumLengths(m - {k})
    decreases |m|
  {
    var j :| j in m && SumLengths(m) == |m[j]| + SumLengths(m - {j});
    if j != k {
      MapShrinks(m, j);
      MapShrinks(m, k);
      SumLengthsRemove(m - {j}, k);
      SumLengthsRemove(m - {k}, j);
      assert m - {j} - {k} == m - {k} - {j};
    }
  }

  lemma SumLengthsInsert<T>(m: map<int, seq<T>>, k: int, v: seq<T>)
    requires k !in m
    ensures SumLengths(m[k := v]) == SumLengths(m) + |v|
  {
    SumLengthsRemove(m[k := v], k);
    assert m[k := v] - {k} == m;
  }
}
