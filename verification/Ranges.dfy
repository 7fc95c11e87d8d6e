/** Received byte ranges of one file transfer, kept by the SFTP sender and reused by the OSS sender. */
module Ranges {

  // `Insert` is the simple recursive form; `AddRange` is the sender's loop, proved equal to it.  A
  // list is canonical when it is sorted, disjoint and non-touching, and a canonical list is
  // determined by the offsets it covers, so neither order nor repetition of additions matters.

  datatype FileRange = FileRange(start: int, end: int)

  ghost predicate In(r: FileRange, x: int) {
    r.start <= x < r.end
  }

  ghost predicate Covers(rs: seq<FileRange>, x: int) {
    exists i :: 0 <= i < |rs| && In(rs[i], x)
  }

  ghost predicate Canonical(rs: seq<FileRange>) {
    && (forall i :: 0 <= i < |rs| ==> rs[i].start < rs[i].end)
    && (forall i, j :: 0 <= i < j < |rs| ==> rs[i].end < rs[j].start)
  }

  function TotalBytes(rs: seq<FileRange>): int {
    if rs == [] then 0 else TotalBytes(rs[..|rs| - 1]) + rs[|rs| - 1].end - rs[|rs| - 1].start
  }

  function Hull(a: FileRange, b: FileRange): FileRange {
    FileRange(if a.start < b.start then a.start else b.start, if a.end > b.end then a.end else b.end)
  }

  ghost function Insert(rs: seq<FileRange>, r: FileRange): (out: seq<FileRange>)
    requires Canonical(rs) && r.start < r.end
    ensures Canonical(out)
    ensures out != [] && (out[0].start == r.start || (rs != [] && out[0].start == rs[0].start))
  {
    if rs == [] then [r]
    else if rs[0].end < r.start then [rs[0]] + Insert(rs[1..], r)
    else if r.end < rs[0].start then [r] + rs
    else Insert(rs[1..], Hull(rs[0], r))
  }

  lemma {:induction false} InsertCovers(rs: seq<FileRange>, r: FileRange)
    requires Canonical(rs) && r.start < r.end
    ensures forall x :: Covers(Insert(rs, r), x) <==> Covers(rs, x) || In(r, x)
  {
    if rs == [] {
      CoversCons(r, []);
      assert [r] + [] == [r];
    } else {
      assert rs == [rs[0]] + rs[1..];
      CoversCons(rs[0], rs[1..]);
      if rs[0].end < r.start {
        InsertCovers(rs[1..], r);
        CoversCons(rs[0], Insert(rs[1..], r));
      } else if r.end < rs[0].start {
        CoversCons(r, rs);
      } else {
        InsertCovers(rs[1..], Hull(rs[0], r));
      }
    }
  }

  lemma CoversCons(r: FileRange, rs: seq<FileRange>)
    ensures forall x :: Covers([r] + rs, x) <==> In(r, x) || Covers(rs, x)
  {
    forall x
      ensures Covers([r] + rs, x) <==> In(r, x) || Covers(rs, x)
    {
      if In(r, x) {
        assert In(([r] + rs)[0], x);
      }
      if Covers(rs, x) {
        var i :| 0 <= i < |rs| && In(rs[i], x);
        assert In(([r] + rs)[i + 1], x);
      }
    }
  }

  /** Adding an empty range changes nothing; otherwise the range is merged in. */
  ghost function Add(rs: seq<FileRange>, start: int, end: int): (out: seq<FileRange>)
    requires Canonical(rs)
    ensures Canonical(out)
  {
    if end <= start then rs else Insert(rs, FileRange(start, end))
  }

  lemma AddCovers(rs: seq<FileRange>, start: int, end: int)
    requires Canonical(rs)
    ensures forall x :: Covers(Add(rs, start, end), x) <==> Covers(rs, x) || start <= x < end
  {
    if start < end {
      InsertCovers(rs, FileRange(start, end));
    }
  }

  lemma SuffixCanonical(rs: seq<FileRange>, i: nat)
    requires Canonical(rs) && i <= |rs|
    ensures Canonical(rs[i..])
  {
  }

  /** What the merge loop still has to append when it has visited the first `i` ranges. */
  ghost function Rest(rs: seq<FileRange>, i: nat, r: FileRange, inserted: bool): seq<FileRange>
    requires Canonical(rs) && i <= |rs| && r.start < r.end
  {
    SuffixCanonical(rs, i);
    if inserted then rs[i..] else Insert(rs[i..], r)
  }

  ghost predicate Beyond(rs: seq<FileRange>, i: nat, r: FileRange) {
    forall k :: i <= k < |rs| ==> r.end < rs[k].start
  }

  /** The merge loop's invariant. */
  ghost predicate Merging(rs: seq<FileRange>, goal: seq<FileRange>, i: nat, r: FileRange, inserted: bool, merged: seq<FileRange>) {
    && Canonical(rs) && i <= |rs| && r.start < r.end
    && (inserted ==> Beyond(rs, i, r))
    && merged + Rest(rs, i, r, inserted) == goal
  }

  lemma MergeStarts(rs: seq<FileRange>, r: FileRange)
    requires Canonical(rs) && r.start < r.end
    ensures Merging(rs, Insert(rs, r), 0, r, false, [])
  {
    assert rs[0..] == rs;
  }

  lemma MergePass(rs: seq<FileRange>, goal: seq<FileRange>, i: nat, r: FileRange, inserted: bool, merged: seq<FileRange>)
    requires Merging(rs, goal, i, r, inserted, merged) && i < |rs| && rs[i].end < r.start
    ensures !inserted && Merging(rs, goal, i + 1, r, false, merged + [rs[i]])
  {
    assert rs[i..][1..] == rs[i + 1..];
  }

  lemma MergeInsert(rs: seq<FileRange>, goal: seq<FileRange>, i: nat, r: FileRange, merged: seq<FileRange>)
    requires Merging(rs, goal, i, r, false, merged) && i < |rs| && r.end < rs[i].start
    ensures Merging(rs, goal, i, r, true, merged + [r])
  {
  }

  lemma MergeCopy(rs: seq<FileRange>, goal: seq<FileRange>, i: nat, r: FileRange, merged: seq<FileRange>)
    requires Merging(rs, goal, i, r, true, merged) && i < |rs|
    ensures Merging(rs, goal, i + 1, r, true, merged + [rs[i]])
  {
  }

  lemma MergeWiden(rs: seq<FileRange>, goal: seq<FileRange>, i: nat, r: FileRange, inserted: bool, merged: seq<FileRange>)
    requires Merging(rs, goal, i, r, inserted, merged) && i < |rs|
    requires !(rs[i].end < r.start) && !(r.end < rs[i].start)
    ensures !inserted && Merging(rs, goal, i + 1, Hull(rs[i], r), false, merged)
  {
    assert rs[i..][1..] == rs[i + 1..];
  }

  lemma MergeEnds(rs: seq<FileRange>, goal: seq<FileRange>, r: FileRange, inserted: bool, merged: seq<FileRange>)
    requires Merging(rs, goal, |rs|, r, inserted, merged)
    ensures (if inserted then merged else merged + [r]) == goal
  {
  }

  /** The merge loop: one pass over the old list, widening the new range while it touches. */
  method AddRange(ranges: seq<FileRange>, coveredBytes: int, start: int, end: int)
    returns (merged: seq<FileRange>, covered: int)
    requires Canonical(ranges) && coveredBytes == TotalBytes(ranges)
    ensures merged == Add(ranges, start, end)
    ensures covered == TotalBytes(merged)
  {
    if end <= start {
      return ranges, coveredBytes;
    }
    var newRange := FileRange(start, end);
    if |ranges| == 0 {
      assert [newRange][..0] == [];
      return [newRange], coveredBytes + end - start;
    }
    merged := Merge(ranges, newRange);
    covered := SumRanges(merged);
  }

  method Merge(ranges: seq<FileRange>, r: FileRange) returns (merged: seq<FileRange>)
    requires Canonical(ranges) && r.start < r.end
    ensures merged == Insert(ranges, r)
  {
    var newRange, inserted := r, false;
    ghost var goal := Insert(ranges, r);
    merged := [];
    MergeStarts(ranges, r);
    for i := 0 to |ranges|
      invariant Merging(ranges, goal, i, newRange, inserted, merged)
    {
      newRange, inserted, merged := Visit(ranges, goal, i, newRange, inserted, merged);
    }
    MergeEnds(ranges, goal, newRange, inserted, merged);
    if !inserted {
      merged := merged + [newRange];
    }
  }

  /** One turn of the merge loop, on the range `ranges[i]`. */
  method Visit(ranges: seq<FileRange>, ghost goal: seq<FileRange>, i: nat, r: FileRange, wasInserted: bool, before: seq<FileRange>)
    returns (newRange: FileRange, inserted: bool, merged: seq<FileRange>)
    requires Merging(ranges, goal, i, r, wasInserted, before) && i < |ranges|
    ensures Merging(ranges, goal, i + 1, newRange, inserted, merged)
  {
    newRange, inserted, merged := r, wasInserted, before;
    var cur := ranges[i];
    if cur.end < newRange.start {
      MergePass(ranges, goal, i, newRange, inserted, merged);
      merged := merged + [cur];
    } else if newRange.end < cur.start {
      if !inserted {
        MergeInsert(ranges, goal, i, newRange, merged);
        merged := merged + [newRange];
        inserted := true;
      }
      MergeCopy(ranges, goal, i, newRange, merged);
      merged := merged + [cur];
    } else {
      MergeWiden(ranges, goal, i, newRange, inserted, merged);
      newRange := Hull(cur, newRange);
    }
  }

  method SumRanges(ranges: seq<FileRange>) returns (covered: int)
    ensures covered == TotalBytes(ranges)
  {
    covered := 0;
    for i := 0 to |ranges|
      invariant covered == TotalBytes(ranges[..i])
    {
      assert ranges[..i + 1][..i] == ranges[..i];
      covered := covered + ranges[i].end - ranges[i].start;
    }
    assert ranges[..|ranges|] == ranges;
  }

  /** A canonical list is determined by the offsets it covers. */
  lemma {:induction false} CanonicalUnique(a: seq<FileRange>, b: seq<FileRange>)
    requires Canonical(a) && Canonical(b)
    requires forall x :: Covers(a, x) <==> Covers(b, x)
    ensures a == b
  {
    if a == [] || b == [] {
      if a != [] { assert In(a[0], a[0].start); assert Covers(a, a[0].start); }
      if b != [] { assert In(b[0], b[0].start); assert Covers(b, b[0].start); }
    } else {
      HeadBounded(a, b);
      HeadBounded(b, a);
      assert a[0] == b[0];
      forall x
        ensures Covers(a[1..], x) <==> Covers(b[1..], x)
      {
        CoversTail(a, x);
        CoversTail(b, x);
      }
      CanonicalUnique(a[1..], b[1..]);
      assert a == [a[0]] + a[1..] && b == [b[0]] + b[1..];
    }
  }

  lemma HeadBounded(a: seq<FileRange>, b: seq<FileRange>)
    requires a != [] && b != [] && Canonical(a) && Canonical(b)
    requires forall x :: Covers(a, x) <==> Covers(b, x)
    ensures b[0].start <= a[0].start
    ensures b[0].start == a[0].start ==> b[0].end <= a[0].end
  {
    assert In(a[0], a[0].start);
    assert Covers(a, a[0].start);
    assert !Covers(a, a[0].end);
    assert !Covers(b, a[0].end);
    assert !In(b[0], a[0].end);
  }

  lemma CoversTail(a: seq<FileRange>, x: int)
    requires a != [] && Canonical(a)
    ensures Covers(a[1..], x) <==> Covers(a, x) && a[0].end <= x
  {
    assert a == [a[0]] + a[1..];
    CoversCons(a[0], a[1..]);
  }

  /** The list held after a sequence of additions to an empty transfer. */
  ghost function AddAll(adds: seq<FileRange>): (out: seq<FileRange>)
    ensures Canonical(out)
  {
    if adds == [] then []
    else
      var last := adds[|adds| - 1];
      Add(AddAll(adds[..|adds| - 1]), last.start, last.end)
  }

  lemma {:induction false} AddAllCovers(adds: seq<FileRange>)
    ensures forall x :: Covers(AddAll(adds), x) <==> Covers(adds, x)
  {
    if adds != [] {
      var front, last := adds[..|adds| - 1], adds[|adds| - 1];
      AddAllCovers(front);
      CoversSnoc(front, last);
      assert adds == front + [last];
      AddCovers(AddAll(front), last.start, last.end);
    }
  }

  lemma CoversSnoc(rs: seq<FileRange>, r: FileRange)
    ensures forall x :: Covers(rs + [r], x) <==> Covers(rs, x) || In(r, x)
  {
    forall x
      ensures Covers(rs + [r], x) <==> Covers(rs, x) || In(r, x)
    {
      if In(r, x) {
        assert In((rs + [r])[|rs|], x);
      }
      if Covers(rs, x) {
        var i :| 0 <= i < |rs| && In(rs[i], x);
        assert In((rs + [r])[i], x);
      }
    }
  }

  /** Reordering or repeating the same additions gives the identical list. */
  lemma AdditionOrderIrrelevant(a: seq<FileRange>, b: seq<FileRange>)
    requires forall r :: r in a <==> r in b
    ensures AddAll(a) == AddAll(b)
  {
    forall x
      ensures Covers(a, x) <==> Covers(b, x)
    {
      if Covers(a, x) {
        var i :| 0 <= i < |a| && In(a[i], x);
        assert a[i] in b;
      }
      if Covers(b, x) {
        var i :| 0 <= i < |b| && In(b[i], x);
        assert b[i] in a;
      }
    }
    AddAllCovers(a);
    AddAllCovers(b);
    CanonicalUnique(AddAll(a), AddAll(b));
  }

  ghost function Offsets(rs: seq<FileRange>): set<int>
    requires Canonical(rs)
  {
    if rs == [] then {} else Offsets(rs[..|rs| - 1]) + Interval(rs[|rs| - 1].start, rs[|rs| - 1].end)
  }

  ghost function Interval(lo: int, hi: int): (s: set<int>)
    requires lo <= hi
    ensures |s| == hi - lo
    ensures forall x :: x in s <==> lo <= x < hi
    decreases hi - lo
  {
    if lo == hi then {} else Interval(lo, hi - 1) + {hi - 1}
  }

  lemma {:induction false} OffsetsCovered(rs: seq<FileRange>)
    requires Canonical(rs)
    ensures forall x :: x in Offsets(rs) <==> Covers(rs, x)
  {
    if rs != [] {
      var front, last := rs[..|rs| - 1], rs[|rs| - 1];
      OffsetsCovered(front);
      CoversSnoc(front, last);
      assert rs == front + [last];
    }
  }

  /** On a canonical list the byte total is the number of covered offsets. */
  lemma {:induction false} TotalCountsOffsets(rs: seq<FileRange>)
    requires Canonical(rs)
    ensures TotalBytes(rs) == |Offsets(rs)|
  {
    if rs != [] {
      var front, last := rs[..|rs| - 1], rs[|rs| - 1];
      TotalCountsOffsets(front);
      OffsetsCovered(front);
      assert forall x :: In(last, x) ==> !Covers(front, x);
      assert Offsets(front) !! Interval(last.start, last.end);
    }
  }

  /** Covering exactly [0, n) means the list is that single range, and holds n bytes. */
  lemma CoversPrefix(rs: seq<FileRange>, n: int)
    requires Canonical(rs) && 0 < n
    requires forall x :: Covers(rs, x) <==> 0 <= x < n
    ensures rs == [FileRange(0, n)] && TotalBytes(rs) == n
  {
    var one := [FileRange(0, n)];
    CoversCons(one[0], []);
    assert one == one + [];
    CanonicalUnique(rs, one);
    assert one[..0] == [];
  }
}
