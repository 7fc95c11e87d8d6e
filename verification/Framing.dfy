/**
 * Length-prefixed framing of a byte stream: two big-endian length octets, then the payload.
 * The TCP sender encodes, the receiver cuts frames off the front of what has arrived and carries
 * the incomplete tail over to the next read.
 */
module Framing {
  import opened Bytes

  const MAX_PAYLOAD: nat := 65535

  predicate Fits(payload: seq<byte>) {
    |payload| <= MAX_PAYLOAD
  }

  predicate AllFit(payloads: seq<seq<byte>>) {
    forall i :: 0 <= i < |payloads| ==> Fits(payloads[i])
  }

  function Encode(payload: seq<byte>): seq<byte>
    requires Fits(payload)
  {
    [(|payload| / 256) as byte, (|payload| % 256) as byte] + payload
  }

  function EncodeAll(payloads: seq<seq<byte>>): seq<byte>
    requires AllFit(payloads)
  {
    if payloads == [] then [] else Encode(payloads[0]) + EncodeAll(payloads[1..])
  }

  datatype Sent = Written(frame: seq<byte>) | TooLarge

  /** The bytes one `Send` hands to the connection.  The pooled buffer is reused when it is large
      enough, so the frame must not depend on what the buffer held before. */
  method Send(pooled: array<byte>, payload: seq<byte>) returns (out: Sent, buffer: array<byte>)
    modifies pooled
    ensures out == if Fits(payload) then Written(Encode(payload)) else TooLarge
    ensures buffer == pooled || fresh(buffer)
    ensures out.Written? ==> |payload| + 2 <= buffer.Length && buffer[..|payload| + 2] == out.frame
    ensures out.TooLarge? ==> buffer == pooled && pooled[..] == old(pooled[..])
  {
    var n := |payload|;
    buffer := pooled;
    if n > MAX_PAYLOAD {
      return TooLarge, buffer;
    }
    if pooled.Length < 2 + n {
      buffer := new byte[2 + n];
    }
    buffer[0], buffer[1] := (n / 256) as byte, (n % 256) as byte;
    forall i | 0 <= i < n {
      buffer[2 + i] := payload[i];
    }
    assert buffer[..2 + n] == Encode(payload);
    out := Written(buffer[..2 + n]);
  }

  // Cutting frames

  function Length(buf: seq<byte>): nat
    requires |buf| >= 2
  {
    buf[0] as int * 256 + buf[1] as int
  }

  /** No whole frame is left at the front. */
  predicate Incomplete(buf: seq<byte>) {
    |buf| < 2 || |buf| < 2 + Length(buf)
  }

  datatype Cut = Cut(frames: seq<seq<byte>>, remain: seq<byte>)

  /** What a cut of `input` must be, independently of how it is found. */
  predicate IsCut(input: seq<byte>, c: Cut) {
    AllFit(c.frames) && Incomplete(c.remain) && input == EncodeAll(c.frames) + c.remain
  }

  lemma EncodeHeader(payload: seq<byte>, rest: seq<byte>)
    requires Fits(payload)
    ensures |Encode(payload) + rest| >= 2 && Length(Encode(payload) + rest) == |payload|
    ensures (Encode(payload) + rest)[2..2 + |payload|] == payload
    ensures (Encode(payload) + rest)[2 + |payload|..] == rest
  {
  }

  lemma HeaderEncodes(buf: seq<byte>)
    requires !Incomplete(buf)
    ensures Fits(buf[2..2 + Length(buf)])
    ensures Encode(buf[2..2 + Length(buf)]) == buf[..2 + Length(buf)]
  {
  }

  lemma {:induction false} EncodeAllAppend(a: seq<seq<byte>>, b: seq<seq<byte>>)
    requires AllFit(a) && AllFit(b)
    ensures AllFit(a + b) && EncodeAll(a + b) == EncodeAll(a) + EncodeAll(b)
  {
    if a == [] {
      assert a + b == b;
    } else {
      EncodeAllAppend(a[1..], b);
      assert (a + b)[1..] == a[1..] + b;
      assert EncodeAll(a + b) == Encode(a[0]) + (EncodeAll(a[1..]) + EncodeAll(b));
    }
  }

  /** The first frame of a cut that has one is at the front of the input. */
  lemma HeadOfCut(input: seq<byte>, c: Cut) returns (rest: seq<byte>)
    requires IsCut(input, c) && c.frames != []
    ensures rest == EncodeAll(c.frames[1..]) + c.remain && input == Encode(c.frames[0]) + rest
    ensures IsCut(rest, Cut(c.frames[1..], c.remain))
    ensures !Incomplete(input) && Length(input) == |c.frames[0]|
    ensures c.frames[0] == input[2..2 + Length(input)] && rest == input[2 + Length(input)..]
  {
    rest := EncodeAll(c.frames[1..]) + c.remain;
    assert input == Encode(c.frames[0]) + rest;
    EncodeHeader(c.frames[0], rest);
  }

  lemma NoHead(input: seq<byte>, c: Cut)
    requires IsCut(input, c) && c.frames == []
    ensures c.remain == input && Incomplete(input)
  {
  }

  /** A stream has at most one cut. */
  lemma {:induction false} CutUnique(input: seq<byte>, c: Cut, d: Cut)
    requires IsCut(input, c) && IsCut(input, d)
    ensures c == d
    decreases |c.frames|
  {
    if c.frames == [] {
      NoHead(input, c);
    } else {
      var p := HeadOfCut(input, c);
      if d.frames != [] {
        var q := HeadOfCut(input, d);
        CutUnique(p, Cut(c.frames[1..], c.remain), Cut(d.frames[1..], d.remain));
        SameFrames(c.frames, d.frames);
      }
    }
    if d.frames == [] {
      NoHead(input, d);
    } else {
      var q := HeadOfCut(input, d);
    }
  }

  lemma SameFrames(a: seq<seq<byte>>, b: seq<seq<byte>>)
    requires a != [] && b != [] && a[0] == b[0] && a[1..] == b[1..]
    ensures a == b
  {
    assert a == [a[0]] + a[1..] && b == [b[0]] + b[1..];
  }

  method Feed(input: seq<byte>) returns (frames: seq<seq<byte>>, remain: seq<byte>)
    ensures IsCut(input, Cut(frames, remain))
  {
    frames := [];
    var buf := input;
    while true
      invariant AllFit(frames) && input == EncodeAll(frames) + buf
      decreases |buf|
    {
      if |buf| < 2 {
        return frames, buf;
      }
      var n := Length(buf);
      if |buf| < 2 + n {
        return frames, buf;
      }
      HeaderEncodes(buf);
      EncodeAllAppend(frames, [buf[2..2 + n]]);
      assert buf == buf[..2 + n] + buf[2 + n..];
      frames := frames + [buf[2..2 + n]];
      buf := buf[2 + n..];
    }
  }

  /** A whole first frame in front of a cut gives a cut. */
  lemma CutStep(input: seq<byte>, rest: Cut)
    requires !Incomplete(input) && IsCut(input[2 + Length(input)..], rest)
    ensures IsCut(input, Cut([input[2..2 + Length(input)]] + rest.frames, rest.remain))
  {
    var n := Length(input);
    HeaderEncodes(input);
    var frames := [input[2..2 + n]] + rest.frames;
    assert frames[1..] == rest.frames;
    assert AllFit(frames);
    assert EncodeAll(frames) + rest.remain == input[..2 + n] + (EncodeAll(rest.frames) + rest.remain);
  }

  /** The cut as a function of the input. */
  function CutOf(input: seq<byte>): (c: Cut)
    ensures IsCut(input, c)
    decreases |input|
  {
    if Incomplete(input) then Cut([], input)
    else
      var rest := CutOf(input[2 + Length(input)..]);
      CutStep(input, rest);
      Cut([input[2..2 + Length(input)]] + rest.frames, rest.remain)
  }

  lemma CutThenCut(a: seq<byte>, b: seq<byte>, first: Cut, second: Cut)
    requires IsCut(a, first) && IsCut(first.remain + b, second)
    ensures IsCut(a + b, Cut(first.frames + second.frames, second.remain))
  {
    EncodeAllAppend(first.frames, second.frames);
    var whole, tail := EncodeAll(first.frames), EncodeAll(second.frames);
    assert a + b == whole + (first.remain + b);
    assert whole + (tail + second.remain) == whole + tail + second.remain;
  }

  /** Cutting a stream in two reads, the first remainder carried over, is cutting it in one. */
  lemma FeedSplit(a: seq<byte>, b: seq<byte>)
    ensures var first := CutOf(a);
            var second := CutOf(first.remain + b);
            CutOf(a + b) == Cut(first.frames + second.frames, second.remain)
  {
    var first := CutOf(a);
    var second := CutOf(first.remain + b);
    CutThenCut(a, b, first, second);
    CutUnique(a + b, CutOf(a + b), Cut(first.frames + second.frames, second.remain));
  }

  /** All reads of one connection: frames emitted so far, and the carried remainder. */
  function Reads(chunks: seq<seq<byte>>): Cut {
    if chunks == [] then Cut([], [])
    else
      var before := Reads(chunks[..|chunks| - 1]);
      var now := CutOf(before.remain + chunks[|chunks| - 1]);
      Cut(before.frames + now.frames, now.remain)
  }

  lemma {:induction false} ReadsAreOneCut(chunks: seq<seq<byte>>)
    ensures Reads(chunks) == CutOf(Concat(chunks))
  {
    if chunks != [] {
      var m := |chunks| - 1;
      ReadsAreOneCut(chunks[..m]);
      FeedSplit(Concat(chunks[..m]), chunks[m]);
    }
  }

  /** Round trip: however the encoded stream is split into reads, exactly the payloads come out. */
  lemma RoundTrip(payloads: seq<seq<byte>>, chunks: seq<seq<byte>>)
    requires AllFit(payloads) && Concat(chunks) == EncodeAll(payloads)
    ensures Reads(chunks) == Cut(payloads, [])
  {
    ReadsAreOneCut(chunks);
    assert IsCut(Concat(chunks), Cut(payloads, []));
    CutUnique(Concat(chunks), CutOf(Concat(chunks)), Cut(payloads, []));
  }

  /** While the stream is still arriving, only whole payloads come out, in order and none twice. */
  lemma {:induction false} EmittedSoFar(payloads: seq<seq<byte>>, chunks: seq<seq<byte>>, later: seq<byte>)
    requires AllFit(payloads) && Concat(chunks) + later == EncodeAll(payloads)
    ensures Reads(chunks).frames <= payloads
  {
    ReadsAreOneCut(chunks);
    FeedSplit(Concat(chunks), later);
    assert EncodeAll(payloads) + [] == EncodeAll(payloads);
    CutUnique(EncodeAll(payloads), CutOf(EncodeAll(payloads)), Cut(payloads, []));
  }

  // The handler

  /** Where frame `i` starts inside the buffer that was cut. */
  function Start(frames: seq<seq<byte>>, i: nat): nat
    requires AllFit(frames) && i < |frames|
  {
    |EncodeAll(frames[..i])| + 2
  }

  /** Frames are slices of the connection buffer, and the remainder is moved to the front of that
      same buffer before they are copied out: this is what the buffer then holds. */
  function Overwritten(input: seq<byte>, remain: seq<byte>): seq<byte>
    requires |remain| <= |input|
  {
    remain + input[|remain|..]
  }

  lemma {:induction false} FrameInPlace(input: seq<byte>, c: Cut, i: nat)
    requires IsCut(input, c) && i < |c.frames|
    ensures Start(c.frames, i) + |c.frames[i]| + |c.remain| <= |input|
    ensures input[Start(c.frames, i)..Start(c.frames, i) + |c.frames[i]|] == c.frames[i]
  {
    var before, after := c.frames[..i], c.frames[i + 1..];
    assert c.frames == before + ([c.frames[i]] + after);
    EncodeAllAppend(before, [c.frames[i]] + after);
    assert EncodeAll([c.frames[i]] + after) == Encode(c.frames[i]) + EncodeAll(after);
    assert input == EncodeAll(before) + (Encode(c.frames[i]) + (EncodeAll(after) + c.remain));
    EncodeHeader(c.frames[i], EncodeAll(after) + c.remain);
    var tail := Encode(c.frames[i]) + (EncodeAll(after) + c.remain);
    assert input[|EncodeAll(before)|..] == tail;
  }

  /** One read event: without a framer what is buffered is one payload, otherwise the frames are
      reported upwards, copied out of the overwritten buffer. */
  method OnTraffic(framed: bool, carried: seq<byte>, read: seq<byte>) returns (delivered: seq<seq<byte>>, buf: seq<byte>)
    ensures read == [] ==> delivered == [] && buf == carried
    ensures read != [] && !framed ==> delivered == [carried + read] && buf == []
    ensures read != [] && framed ==>
              var c := CutOf(carried + read);
              && buf == c.remain
              && |delivered| == |c.frames|
              && (forall i :: 0 <= i < |delivered| ==> delivered[i] == Seen(carried + read, i))
  {
    if |read| == 0 {
      return [], carried;
    }
    var input := carried + read;
    if !framed {
      return [input], [];
    }
    var frames, remain := Feed(input);
    CutUnique(input, CutOf(input), Cut(frames, remain));
    delivered := CopyFrames(input, frames, remain);
    buf := remain;
  }

  /** The loop that copies the frames out, the remainder having been moved to the front. */
  method CopyFrames(input: seq<byte>, frames: seq<seq<byte>>, remain: seq<byte>) returns (delivered: seq<seq<byte>>)
    requires CutOf(input) == Cut(frames, remain)
    ensures |delivered| == |frames|
    ensures forall i :: 0 <= i < |delivered| ==> delivered[i] == Seen(input, i)
  {
    WithinInput(input);
    var store := Overwritten(input, remain);
    delivered := [];
    var i := 0;
    while i < |frames|
      invariant i == |delivered| <= |frames|
      invariant forall j :: 0 <= j < i ==> delivered[j] == Seen(input, j)
    {
      ghost var at := SeenSlice(input, i);
      var from := Start(frames, i);
      delivered := delivered + [store[from..from + |frames[i]|]];
      i := i + 1;
    }
  }

  lemma WithinInput(input: seq<byte>)
    ensures |CutOf(input).remain| <= |input|
  {
  }

  function Seen(input: seq<byte>, i: nat): seq<byte>
    requires i < |CutOf(input).frames|
  {
    var c := CutOf(input);
    FrameInPlace(input, c, i);
    Overwritten(input, c.remain)[Start(c.frames, i)..Start(c.frames, i) + |c.frames[i]|]
  }

  /** A payload byte that the moved remainder changes. */
  predicate Clobbers(c: Cut, i: nat, k: nat)
    requires AllFit(c.frames) && i < |c.frames|
  {
    && k < |c.frames[i]|
    && Start(c.frames, i) + k < |c.remain|
    && c.remain[Start(c.frames, i) + k] != c.frames[i][k]
  }

  lemma SliceByte(s: seq<byte>, from: nat, n: nat, k: nat)
    requires k < n && from + n <= |s|
    ensures s[from..from + n][k] == s[from + k]
  {
  }

  lemma OverwrittenByte(input: seq<byte>, remain: seq<byte>, at: nat)
    requires |remain| <= |input| && at < |input|
    ensures Overwritten(input, remain)[at] == if at < |remain| then remain[at] else input[at]
  {
  }

  lemma SeenByte(input: seq<byte>, i: nat, k: nat)
    requires i < |CutOf(input).frames| && k < |CutOf(input).frames[i]|
    ensures var c := CutOf(input);
            var at := Start(c.frames, i) + k;
            |Seen(input, i)| == |c.frames[i]|
            && Seen(input, i)[k] == if at < |c.remain| then c.remain[at] else c.frames[i][k]
  {
    var c := CutOf(input);
    var from := SeenSlice(input, i);
    SliceOverwritten(input, c.remain, from, c.frames[i], k);
  }

  lemma SeenSlice(input: seq<byte>, i: nat) returns (from: nat)
    requires i < |CutOf(input).frames|
    ensures var c := CutOf(input); from == Start(c.frames, i) && from + |c.frames[i]| + |c.remain| <= |input|
    ensures input[from..from + |CutOf(input).frames[i]|] == CutOf(input).frames[i]
    ensures Seen(input, i) == Overwritten(input, CutOf(input).remain)[from..from + |CutOf(input).frames[i]|]
  {
    var c := CutOf(input);
    FrameInPlace(input, c, i);
    from := Start(c.frames, i);
  }

  lemma SliceOverwritten(input: seq<byte>, remain: seq<byte>, from: nat, frame: seq<byte>, k: nat)
    requires from + |frame| <= |input| && |remain| <= |input| && k < |frame|
    requires input[from..from + |frame|] == frame
    ensures Overwritten(input, remain)[from..from + |frame|][k] == if from + k < |remain| then remain[from + k] else frame[k]
  {
    OverwrittenByte(input, remain, from + k);
    SliceByte(input, from, |frame|, k);
    SliceByte(Overwritten(input, remain), from, |frame|, k);
  }

  /** Exactly when frame `i` of a read is delivered as it was sent: no remainder byte lands on a
      different byte of its payload. */
  lemma IntactExactly(input: seq<byte>, i: nat)
    requires i < |CutOf(input).frames|
    ensures var c := CutOf(input);
            (Seen(input, i) == c.frames[i] <==> forall k: nat :: !Clobbers(c, i, k))
  {
    var c := CutOf(input);
    SeenLength(input, i);
    forall k: nat | Clobbers(c, i, k)
      ensures Seen(input, i) != c.frames[i]
    {
      SeenByte(input, i, k);
    }
    if forall k: nat :: !Clobbers(c, i, k) {
      forall k | 0 <= k < |c.frames[i]|
        ensures Seen(input, i)[k] == c.frames[i][k]
      {
        SeenByte(input, i, k);
        assert !Clobbers(c, i, k);
      }
    }
  }

  lemma SeenLength(input: seq<byte>, i: nat)
    requires i < |CutOf(input).frames|
    ensures |Seen(input, i)| == |CutOf(input).frames[i]|
  {
    FrameInPlace(input, CutOf(input), i);
  }

  /** A remainder of at most a header is always harmless. */
  lemma ShortRemainderIsSafe(input: seq<byte>)
    requires |CutOf(input).remain| <= 2
    ensures forall i :: 0 <= i < |CutOf(input).frames| ==> Seen(input, i) == CutOf(input).frames[i]
  {
    forall i | 0 <= i < |CutOf(input).frames|
      ensures Seen(input, i) == CutOf(input).frames[i]
    {
      IntactExactly(input, i);
    }
  }

  lemma ExampleCut()
    ensures IsCut([0, 1, 65, 0, 5, 66], Cut([[65]], [0, 5, 66]))
  {
    assert EncodeAll([[65]]) == Encode([65]) + EncodeAll([]);
    assert Length([0, 5, 66]) == 5;
  }

  lemma OneByte(s: seq<byte>, b: byte)
    requires |s| == 1 && s[0] == b
    ensures s == [b]
  {
  }

  /** A one-byte frame followed by the start of the next one is delivered with the wrong byte. */
  lemma CorruptedFrame()
    ensures var input: seq<byte> := [0, 1, 65, 0, 5, 66];
            CutOf(input) == Cut([[65]], [0, 5, 66]) && Seen(input, 0) == [66]
  {
    var input: seq<byte> := [0, 1, 65, 0, 5, 66];
    ExampleCut();
    CutUnique(input, CutOf(input), Cut([[65]], [0, 5, 66]));
    SeenFirst(input, 65, [0, 5, 66]);
    OneByte(Seen(input, 0), 66);
  }

  /** The only frame, of one byte, is read back from behind its two length octets. */
  lemma SeenFirst(input: seq<byte>, b: byte, remain: seq<byte>)
    requires CutOf(input) == Cut([[b]], remain) && |remain| == 3
    ensures |Seen(input, 0)| == 1 && Seen(input, 0)[0] == remain[2]
  {
    assert [[b]][..0] == [];
    SeenByte(input, 0, 0);
  }
}
