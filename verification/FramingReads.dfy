/** What the handler delivers over all reads of one connection. */
module FramingReads {
  import opened Bytes
  import opened Framing

  /** What read number `j` cuts: the remainder carried over and the bytes just read. */
  function Input(chunks: seq<seq<byte>>, j: nat): seq<byte>
    requires j < |chunks|
  {
    Reads(chunks[..j]).remain + chunks[j]
  }

  function SeenAll(input: seq<byte>): (seen: seq<seq<byte>>)
    ensures |seen| == |CutOf(input).frames|
  {
    seq(|CutOf(input).frames|, i requires 0 <= i < |CutOf(input).frames| => Seen(input, i))
  }

  /** The payloads reported by one `OnTraffic` call after the other. */
  function Delivered(chunks: seq<seq<byte>>): seq<seq<byte>> {
    if chunks == [] then [] else Delivered(chunks[..|chunks| - 1]) + SeenAll(Input(chunks, |chunks| - 1))
  }

  ghost predicate FrameIntact(c: Cut, i: nat)
    requires AllFit(c.frames) && i < |c.frames|
  {
    forall k: nat :: !Clobbers(c, i, k)
  }

  /** No frame of the read has a byte changed by the remainder moved over it. */
  ghost predicate Clean(input: seq<byte>) {
    forall i: nat :: i < |CutOf(input).frames| ==> FrameIntact(CutOf(input), i)
  }

  lemma SeenExactly(input: seq<byte>, i: nat)
    requires i < |CutOf(input).frames|
    ensures SeenAll(input)[i] == CutOf(input).frames[i] <==> FrameIntact(CutOf(input), i)
  {
    IntactExactly(input, i);
  }

  lemma SeenAllExactly(input: seq<byte>)
    ensures SeenAll(input) == CutOf(input).frames <==> Clean(input)
  {
    forall i: nat | i < |CutOf(input).frames|
      ensures SeenAll(input)[i] == CutOf(input).frames[i] <==> FrameIntact(CutOf(input), i)
    {
      SeenExactly(input, i);
    }
  }

  lemma SameParts<T>(a: seq<T>, b: seq<T>, c: seq<T>, d: seq<T>)
    requires |a| == |c|
    ensures a + b == c + d <==> a == c && b == d
  {
    if a + b == c + d {
      assert a == (a + b)[..|a|] && c == (c + d)[..|c|];
      assert b == (a + b)[|a|..] && d == (c + d)[|c|..];
    }
  }

  lemma EarlierInput(chunks: seq<seq<byte>>, j: nat)
    requires j < |chunks| - 1
    ensures Input(chunks, j) == Input(chunks[..|chunks| - 1], j)
  {
    assert chunks[..|chunks| - 1][..j] == chunks[..j];
  }

  ghost predicate CleanRead(chunks: seq<seq<byte>>, j: nat)
    requires j < |chunks|
  {
    Clean(Input(chunks, j))
  }

  ghost predicate AllClean(chunks: seq<seq<byte>>) {
    forall j: nat :: j < |chunks| ==> CleanRead(chunks, j)
  }

  lemma AllCleanSnoc(chunks: seq<seq<byte>>)
    requires chunks != []
    ensures AllClean(chunks) <==> AllClean(chunks[..|chunks| - 1]) && CleanRead(chunks, |chunks| - 1)
  {
    var front := chunks[..|chunks| - 1];
    forall j: nat | j < |front|
      ensures CleanRead(chunks, j) <==> CleanRead(front, j)
    {
      EarlierInput(chunks, j);
    }
  }

  lemma {:induction false} DeliveredIsCut(chunks: seq<seq<byte>>)
    ensures |Delivered(chunks)| == |Reads(chunks).frames|
    ensures Delivered(chunks) == Reads(chunks).frames <==> AllClean(chunks)
  {
    if chunks != [] {
      var front, input := chunks[..|chunks| - 1], Input(chunks, |chunks| - 1);
      DeliveredIsCut(front);
      SeenAllExactly(input);
      AllCleanSnoc(chunks);
      SameParts(Delivered(front), SeenAll(input), Reads(front).frames, CutOf(input).frames);
    }
  }

  /** However the encoded stream is split into reads, the handler reports exactly the payloads, in
      order, if and only if no read moves a remainder over a different byte of one of its frames. */
  lemma DeliveredExactly(payloads: seq<seq<byte>>, chunks: seq<seq<byte>>)
    requires AllFit(payloads) && Concat(chunks) == EncodeAll(payloads)
    ensures |Delivered(chunks)| == |payloads|
    ensures Delivered(chunks) == payloads <==> AllClean(chunks)
  {
    RoundTrip(payloads, chunks);
    DeliveredIsCut(chunks);
  }
}
