/**
 The length-prefixed frames of the helper's pipes: encoding, the streaming decoder with its session
 cap, and why cutting the byte stream differently changes nothing.
 */
module Frames {
  import opened Wrappers
  import opened Bytes

  type Frame = seq<Byte>

  datatype FrameError = PayloadSize | Flood | Oversize

  const WORD := 0x1_0000_0000

  // ---------------------------------------------------------------- one frame

  /** Big-endian, as much of the number as four bytes hold. */
  function Be32(v: nat): (s: seq<Byte>)
    ensures |s| == 4
  {
    [v / 0x100_0000 % 0x100, v / 0x1_0000 % 0x100, v / 0x100 % 0x100, v % 0x100]
  }

  function U32Be(s: seq<Byte>): (v: nat)
    requires |s| >= 4
    ensures v < WORD
  {
    0x100_0000 * s[0] as int + 0x1_0000 * s[1] as int + 0x100 * s[2] as int + s[3] as int
  }

  lemma Be32RoundTrip(v: nat)
    ensures U32Be(Be32(v)) == v % WORD
  {
    var q1, q2, q3 := v / 0x100_0000, v / 0x1_0000, v / 0x100;
    Quotients(v);
    Digits(v, q3, q2, q1);
  }

  lemma Quotients(v: nat)
    ensures v / 0x1_0000 == v / 0x100 / 0x100 && v / 0x100_0000 == v / 0x1_0000 / 0x100
  {
  }

  lemma Digits(v: nat, q3: nat, q2: nat, q1: nat)
    requires q3 == v / 0x100 && q2 == q3 / 0x100 && q1 == q2 / 0x100
    ensures 0x100_0000 * (q1 % 0x100) + 0x1_0000 * (q2 % 0x100) + 0x100 * (q3 % 0x100) + v % 0x100 == v % WORD
  {
    var q0 := q1 / 0x100;
    assert v == q0 * WORD + 0x100_0000 * (q1 % 0x100) + 0x1_0000 * (q2 % 0x100) + 0x100 * (q3 % 0x100) + v % 0x100;
  }

  function EncodeFrame(payload: Frame, maxFrame: nat): Result<seq<Byte>, FrameError> {
    if |payload| == 0 || |payload| > maxFrame then Failure(PayloadSize)
    else Success(Be32(|payload|) + payload)
  }

  method ConcatBytes(a: seq<Byte>, b: seq<Byte>) returns (joined: seq<Byte>)
    ensures joined == a + b
  {
    var out := new Byte[|a| + |b|](_ => 0);
    for i := 0 to |a|
      invariant out[..i] == a[..i]
    {
      out[i] := a[i];
    }
    for i := 0 to |b|
      invariant out[..|a| + i] == a + b[..i]
    {
      out[|a| + i] := b[i];
    }
    assert b[..|b|] == b;
    joined := out[..];
  }

  // ---------------------------------------------------------------- what a buffer holds

  /** The complete frames at the front of a buffer, what is left, and whether what is left starts with a bad length. */
  datatype Drained = Drained(frames: seq<Frame>, rest: seq<Byte>, bad: bool)

  predicate BadLength(buffer: seq<Byte>, maxFrame: nat)
    requires |buffer| >= 4
  {
    U32Be(buffer) == 0 || U32Be(buffer) > maxFrame
  }

  predicate HasFrame(buffer: seq<Byte>, maxFrame: nat) {
    |buffer| >= 4 && !BadLength(buffer, maxFrame) && |buffer| >= 4 + U32Be(buffer)
  }

  function Drain(buffer: seq<Byte>, maxFrame: nat): Drained
    decreases |buffer|
  {
    if HasFrame(buffer, maxFrame) then
      var end := 4 + U32Be(buffer);
      var later := Drain(buffer[end..], maxFrame);
      Drained([buffer[4..end]] + later.frames, later.rest, later.bad)
    else
      Drained([], buffer, |buffer| >= 4 && BadLength(buffer, maxFrame))
  }

  function Encoded(frames: seq<Frame>): seq<Byte> {
    if frames == [] then [] else Be32(|frames[0]|) + frames[0] + Encoded(frames[1..])
  }

  function TotalSize(frames: seq<Frame>): nat {
    if frames == [] then 0 else 4 + |frames[0]| + TotalSize(frames[1..])
  }

  ghost predicate WithinCaps(frames: seq<Frame>, maxFrame: nat) {
    forall k :: 0 <= k < |frames| ==> 1 <= |frames[k]| <= maxFrame
  }

  /** One frame off the front, and what the rest drains to. */
  lemma TakeFrame(buffer: seq<Byte>, maxFrame: nat) returns (frame: Frame, tail: seq<Byte>)
    requires HasFrame(buffer, maxFrame)
    ensures 1 <= |frame| <= maxFrame && |frame| == U32Be(buffer) && |buffer| == 4 + |frame| + |tail|
    ensures frame == buffer[4..4 + U32Be(buffer)] && tail == buffer[4 + U32Be(buffer)..]
    ensures var d, later := Drain(buffer, maxFrame), Drain(tail, maxFrame);
      d == Drained([frame] + later.frames, later.rest, later.bad)
  {
    hide U32Be;
    frame, tail := buffer[4..4 + U32Be(buffer)], buffer[4 + U32Be(buffer)..];
  }

  lemma FrameBytes(buffer: seq<Byte>, frame: Frame, tail: seq<Byte>)
    requires |buffer| >= 4 + |frame| && |frame| == U32Be(buffer) && frame == buffer[4..4 + |frame|]
      && tail == buffer[4 + |frame|..]
    ensures buffer == Be32(|frame|) + frame + tail
  {
    HeaderIs(buffer);
    hide U32Be, Be32;
    assert buffer == buffer[..4] + frame + tail;
  }

  lemma Pieces(x: seq<Byte>, y: seq<Byte>, z: seq<Byte>)
    ensures (x + y + z)[|x|..|x| + |y|] == y && (x + y + z)[|x| + |y|..] == z && (x + y + z)[..|x|] == x
  {
  }

  lemma CutThenAppend(a: seq<Byte>, b: seq<Byte>, k: nat, m: nat)
    requires k <= m <= |a|
    ensures (a + b)[m..] == a[m..] + b && (a + b)[k..m] == a[k..m]
  {
  }

  lemma HasFrameExtends(a: seq<Byte>, b: seq<Byte>, maxFrame: nat)
    requires |a| >= 4
    ensures U32Be(a + b) == U32Be(a)
    ensures BadLength(a + b, maxFrame) <==> BadLength(a, maxFrame)
    ensures HasFrame(a, maxFrame) ==> HasFrame(a + b, maxFrame)
  {
  }

  /** What arrives in two parts drains like what arrives at once, unless the first part is already bad. */
  lemma {:induction false} DrainTwice(a: seq<Byte>, b: seq<Byte>, maxFrame: nat)
    ensures var first, whole := Drain(a, maxFrame), Drain(a + b, maxFrame);
      && (first.bad ==> whole.bad && whole.frames == first.frames)
      && (!first.bad ==>
        var second := Drain(first.rest + b, maxFrame);
        whole == Drained(first.frames + second.frames, second.rest, second.bad))
    decreases |a|
  {
    hide U32Be, BadLength;
    if |a| >= 4 { HasFrameExtends(a, b, maxFrame); }
    if HasFrame(a, maxFrame) {
      var frame, tail := TakeFrame(a, maxFrame);
      var frame', tail' := TakeFrame(a + b, maxFrame);
      CutThenAppend(a, b, 4, 4 + U32Be(a));
      DrainTwice(tail, b, maxFrame);
      var later := Drain(tail, maxFrame);
      var second := Drain(later.rest + b, maxFrame);
      assert [frame] + (later.frames + second.frames) == [frame] + later.frames + second.frames;
    } else {
      assert [] + Drain(a + b, maxFrame).frames == Drain(a + b, maxFrame).frames;
    }
  }

  /** Nothing is lost or invented: the frames encoded again, then the rest, are the bytes. */
  lemma {:induction false} DrainConserves(buffer: seq<Byte>, maxFrame: nat)
    ensures var d := Drain(buffer, maxFrame);
      && WithinCaps(d.frames, maxFrame)
      && buffer == Encoded(d.frames) + d.rest
      && |buffer| == TotalSize(d.frames) + |d.rest|
      && (!d.bad ==> |d.rest| < 4 + maxFrame && Drain(d.rest, maxFrame) == Drained([], d.rest, false))
    decreases |buffer|
  {
    hide U32Be, Be32;
    if HasFrame(buffer, maxFrame) {
      var frame, tail := TakeFrame(buffer, maxFrame);
      FrameBytes(buffer, frame, tail);
      DrainConserves(tail, maxFrame);
      var later := Drain(tail, maxFrame);
      EncodedCons(frame, later.frames);
      KeepsDraining(frame, tail, later);
    } else {
      assert |buffer| < 4 + maxFrame || Drain(buffer, maxFrame).bad;
    }
  }

  lemma KeepsDraining(frame: Frame, tail: seq<Byte>, later: Drained)
    requires tail == Encoded(later.frames) + later.rest
    ensures Be32(|frame|) + frame + tail == Be32(|frame|) + frame + Encoded(later.frames) + later.rest
  {
  }

  lemma EncodedCons(head: Frame, tail: seq<Frame>)
    ensures Encoded([head] + tail) == Be32(|head|) + head + Encoded(tail)
    ensures TotalSize([head] + tail) == 4 + |head| + TotalSize(tail)
  {
  }

  lemma HeaderIs(buffer: seq<Byte>)
    requires |buffer| >= 4
    ensures Be32(U32Be(buffer)) == buffer[..4]
  {
    var w := buffer[..4];
    BytesOf(w[0], w[1], w[2], w[3]);
  }

  lemma BytesOf(b0: Byte, b1: Byte, b2: Byte, b3: Byte)
    ensures var v := 0x100_0000 * b0 as int + 0x1_0000 * b1 as int + 0x100 * b2 as int + b3 as int;
      v / 0x100_0000 % 0x100 == b0 && v / 0x1_0000 % 0x100 == b1 && v / 0x100 % 0x100 == b2 && v % 0x100 == b3
  {
    var v := 0x100_0000 * b0 as int + 0x1_0000 * b1 as int + 0x100 * b2 as int + b3 as int;
    assert v / 0x100 == 0x1_0000 * b0 as int + 0x100 * b1 as int + b2 as int;
    assert v / 0x1_0000 == 0x100 * b0 as int + b1 as int;
    assert v / 0x100_0000 == b0 as int;
  }

  /** Encoded frames drain to themselves. */
  lemma {:induction false} DrainEncoded(frames: seq<Frame>, maxFrame: nat)
    requires WithinCaps(frames, maxFrame) && maxFrame < WORD
    ensures Drain(Encoded(frames), maxFrame) == Drained(frames, [], false)
  {
    hide U32Be, Be32;
    if frames != [] {
      var head, tail := frames[0], frames[1..];
      DrainEncoded(tail, maxFrame);
      Pieces(Be32(|head|), head, Encoded(tail));
      FrameAtFront(Encoded(frames), head, Encoded(tail), maxFrame);
      assert [head] + tail == frames;
    }
  }

  lemma HeaderReads(bytes: seq<Byte>, v: nat)
    requires |bytes| >= 4 && bytes[..4] == Be32(v) && v < WORD
    ensures U32Be(bytes) == v
  {
    Be32RoundTrip(v);
    hide Be32;
    assert U32Be(bytes) == U32Be(bytes[..4]);
  }

  lemma FrameAtFront(bytes: seq<Byte>, head: Frame, tail: seq<Byte>, maxFrame: nat)
    requires 1 <= |head| <= maxFrame < WORD && |bytes| == 4 + |head| + |tail|
    requires bytes[..4] == Be32(|head|) && bytes[4..4 + |head|] == head && bytes[4 + |head|..] == tail
    ensures var later := Drain(tail, maxFrame);
      Drain(bytes, maxFrame) == Drained([head] + later.frames, later.rest, later.bad)
  {
    hide U32Be, Be32;
    HeaderReads(bytes, |head|);
    var frame, rest := TakeFrame(bytes, maxFrame);
  }

  // ---------------------------------------------------------------- a session of pushes

  /** The decoder's fields, the frames handed out, and whether a push has thrown. */
  datatype Session = Session(buffer: seq<Byte>, bytes: nat, delivered: seq<Frame>, failed: bool)

  const START := Session([], 0, [], false)

  function PushOne(s: Session, chunk: seq<Byte>, maxStdout: nat, maxFrame: nat): Session {
    var bytes := s.bytes + |chunk|;
    if bytes > maxStdout then s.(bytes := bytes, failed := true)
    else
      var d := Drain(s.buffer + chunk, maxFrame);
      if d.bad then Session(d.rest, bytes, s.delivered, true) else Session(d.rest, bytes, s.delivered + d.frames, false)
  }

  /** Pushes the chunks in order and stops at the first push that throws. */
  function PushAll(chunks: seq<seq<Byte>>, maxStdout: nat, maxFrame: nat): Session {
    if chunks == [] then START
    else
      var before := PushAll(chunks[..|chunks| - 1], maxStdout, maxFrame);
      if before.failed then before else PushOne(before, chunks[|chunks| - 1], maxStdout, maxFrame)
  }

  function Flatten(chunks: seq<seq<Byte>>): seq<Byte> {
    if chunks == [] then [] else Flatten(chunks[..|chunks| - 1]) + chunks[|chunks| - 1]
  }

  predicate Throws(whole: seq<Byte>, maxStdout: nat, maxFrame: nat) {
    |whole| > maxStdout || Drain(whole, maxFrame).bad
  }

  /** What a session of pushes shows depends on the whole byte string only. */
  ghost predicate DependsOnWhole(s: Session, whole: seq<Byte>, maxStdout: nat, maxFrame: nat) {
    var ideal := Drain(whole, maxFrame);
    && (s.failed <==> Throws(whole, maxStdout, maxFrame))
    && (!s.failed ==> s == Session(ideal.rest, |whole|, ideal.frames, false))
    && (s.failed ==> s.delivered <= ideal.frames)
  }

  lemma {:induction false} ChunkingIndependence(chunks: seq<seq<Byte>>, maxStdout: nat, maxFrame: nat)
    ensures DependsOnWhole(PushAll(chunks, maxStdout, maxFrame), Flatten(chunks), maxStdout, maxFrame)
  {
    if chunks != [] {
      var last, before := chunks[|chunks| - 1], chunks[..|chunks| - 1];
      ChunkingIndependence(before, maxStdout, maxFrame);
      DrainTwice(Flatten(before), last, maxFrame);
    }
  }

  /** Two ways of cutting the same bytes: the same verdict, and the same frames and remainder when none throws. */
  lemma CutsAgree(one: seq<seq<Byte>>, other: seq<seq<Byte>>, maxStdout: nat, maxFrame: nat)
    requires Flatten(one) == Flatten(other)
    ensures PushAll(one, maxStdout, maxFrame).failed <==> PushAll(other, maxStdout, maxFrame).failed
    ensures !PushAll(one, maxStdout, maxFrame).failed ==>
      PushAll(one, maxStdout, maxFrame) == PushAll(other, maxStdout, maxFrame)
  {
    ChunkingIndependence(one, maxStdout, maxFrame);
    ChunkingIndependence(other, maxStdout, maxFrame);
  }

  /** Any cutting of encoded frames within the caps gives back the frames, with nothing pending. */
  lemma FrameRoundTrip(frames: seq<Frame>, chunks: seq<seq<Byte>>, maxStdout: nat, maxFrame: nat)
    requires maxFrame < WORD && WithinCaps(frames, maxFrame) && Flatten(chunks) == Encoded(frames)
    ensures PushAll(chunks, maxStdout, maxFrame).failed <==> TotalSize(frames) > maxStdout
    ensures TotalSize(frames) <= maxStdout ==>
      PushAll(chunks, maxStdout, maxFrame) == Session([], TotalSize(frames), frames, false)
  {
    ChunkingIndependence(chunks, maxStdout, maxFrame);
    DrainEncoded(frames, maxFrame);
    DrainConserves(Encoded(frames), maxFrame);
  }

  /** After pushes that did not throw, every byte is in a delivered frame, in its header or pending. */
  lemma SessionConserves(chunks: seq<seq<Byte>>, maxStdout: nat, maxFrame: nat)
    requires !PushAll(chunks, maxStdout, maxFrame).failed
    ensures var s := PushAll(chunks, maxStdout, maxFrame);
      && s.bytes == TotalSize(s.delivered) + |s.buffer| <= maxStdout
      && |s.buffer| < 4 + maxFrame
      && WithinCaps(s.delivered, maxFrame)
      && Flatten(chunks) == Encoded(s.delivered) + s.buffer
  {
    ChunkingIndependence(chunks, maxStdout, maxFrame);
    DrainConserves(Flatten(chunks), maxFrame);
  }

  /** Encoding refuses exactly what the decoder would refuse to deliver. */
  lemma EncodeDecode(payload: Frame, maxFrame: nat, maxStdout: nat)
    requires maxFrame < WORD
    ensures EncodeFrame(payload, maxFrame).Success? <==> 1 <= |payload| <= maxFrame
    ensures EncodeFrame(payload, maxFrame).Success? ==>
      Drain(EncodeFrame(payload, maxFrame).value, maxFrame) == Drained([payload], [], false)
    ensures EncodeFrame(payload, maxFrame).Failure? && |payload| < WORD ==>
      Drain(Be32(|payload|) + payload, maxFrame).frames == []
  {
    var bytes := Be32(|payload|) + payload;
    Be32RoundTrip(|payload|);
    HasFrameExtends(Be32(|payload|), payload, maxFrame);
    hide Be32, U32Be;
    if 1 <= |payload| <= maxFrame {
      DrainEncoded([payload], maxFrame);
      assert Encoded([payload]) == bytes + Encoded([]) == bytes;
    }
  }

  // ---------------------------------------------------------------- the decoder

  function Prepend(frames: seq<Frame>, d: Drained): Drained {
    Drained(frames + d.frames, d.rest, d.bad)
  }

  lemma PrependNothing(d: Drained)
    ensures Prepend([], d) == d
  {
  }

  lemma DrainStop(frames: seq<Frame>, buffer: seq<Byte>, maxFrame: nat)
    requires !HasFrame(buffer, maxFrame)
    ensures Prepend(frames, Drain(buffer, maxFrame))
      == Drained(frames, buffer, |buffer| >= 4 && BadLength(buffer, maxFrame))
  {
  }

  lemma DrainStep(frames: seq<Frame>, buffer: seq<Byte>, maxFrame: nat)
    requires HasFrame(buffer, maxFrame)
    ensures var end := 4 + U32Be(buffer);
      Prepend(frames, Drain(buffer, maxFrame)) == Prepend(frames + [buffer[4..end]], Drain(buffer[end..], maxFrame))
  {
  }

  class FrameDecoder {
    const maxStdout: nat
    const maxFrame: nat
    var buffer: seq<Byte>
    var stdoutBytes: nat

    constructor (maxStdout: nat, maxFrame: nat)
      ensures this.maxStdout == maxStdout && this.maxFrame == maxFrame && buffer == [] && stdoutBytes == 0
    {
      this.maxStdout, this.maxFrame := maxStdout, maxFrame;
      buffer, stdoutBytes := [], 0;
    }

    /** Adds a chunk and hands out the frames it completes; throws on too many bytes or on a bad length. */
    method Push(chunk: seq<Byte>) returns (result: Result<seq<Frame>, FrameError>)
      modifies this
      ensures stdoutBytes == old(stdoutBytes) + |chunk|
      ensures stdoutBytes > maxStdout ==> buffer == old(buffer) && result == Failure(Flood)
      ensures stdoutBytes <= maxStdout ==>
        var d := Drain(old(buffer) + chunk, maxFrame);
        buffer == d.rest && result == if d.bad then Failure(Oversize) else Success(d.frames)
    {
      hide U32Be, Drain, Prepend;
      PrependNothing(Drain(buffer + chunk, maxFrame));
      stdoutBytes := stdoutBytes + |chunk|;
      if stdoutBytes > maxStdout { return Failure(Flood); }
      ghost var all := Drain(buffer + chunk, maxFrame);
      buffer := ConcatBytes(buffer, chunk);
      var frames: seq<Frame> := [];
      while |buffer| >= 4
        invariant stdoutBytes == old(stdoutBytes) + |chunk|
        invariant all == Prepend(frames, Drain(buffer, maxFrame))
        decreases |buffer|
      {
        var len := U32Be(buffer);
        if len == 0 || len > maxFrame {
          DrainStop(frames, buffer, maxFrame);
          return Failure(Oversize);
        }
        if |buffer| < 4 + len { break; }
        DrainStep(frames, buffer, maxFrame);
        frames := frames + [buffer[4..4 + len]];
        buffer := buffer[4 + len..];
      }
      DrainStop(frames, buffer, maxFrame);
      result := Success(frames);
    }

    /** The stream reader: pushes the non-empty chunks as they come and stops at the first throw. */
    method ReadAll(chunks: seq<seq<Byte>>) returns (frames: seq<Frame>, failed: bool)
      requires buffer == [] && stdoutBytes == 0
      modifies this
      ensures Session(buffer, stdoutBytes, frames, failed) == PushAll(chunks, maxStdout, maxFrame)
      ensures failed <==> Throws(Flatten(chunks), maxStdout, maxFrame)
      ensures frames <= Drain(Flatten(chunks), maxFrame).frames
    {
      frames, failed := [], false;
      ChunkingIndependence(chunks, maxStdout, maxFrame);
      assert chunks[..|chunks|] == chunks;
      for i := 0 to |chunks|
        invariant !failed && Session(buffer, stdoutBytes, frames, failed) == PushAll(chunks[..i], maxStdout, maxFrame)
      {
        assert chunks[..i + 1][..i] == chunks[..i];
        if chunks[i] == [] {
          EmptyChunk(chunks[..i], maxStdout, maxFrame);
          continue;
        }
        var pushed := Push(chunks[i]);
        if pushed.Failure? {
          failed := true;
          StaysFailed(chunks, i + 1, maxStdout, maxFrame);
          return;
        }
        frames := frames + pushed.value;
      }
    }
  }

  /** Pushing nothing changes nothing. */
  lemma EmptyChunk(chunks: seq<seq<Byte>>, maxStdout: nat, maxFrame: nat)
    requires !PushAll(chunks, maxStdout, maxFrame).failed
    ensures PushOne(PushAll(chunks, maxStdout, maxFrame), [], maxStdout, maxFrame)
      == PushAll(chunks, maxStdout, maxFrame)
  {
    SessionConserves(chunks, maxStdout, maxFrame);
    ChunkingIndependence(chunks, maxStdout, maxFrame);
    DrainConserves(Flatten(chunks), maxFrame);
    var s := PushAll(chunks, maxStdout, maxFrame);
    assert s.buffer + [] == s.buffer && s.delivered + [] == s.delivered;
  }

  lemma {:induction false} StaysFailed(chunks: seq<seq<Byte>>, i: nat, maxStdout: nat, maxFrame: nat)
    requires i <= |chunks| && PushAll(chunks[..i], maxStdout, maxFrame).failed
    ensures PushAll(chunks, maxStdout, maxFrame) == PushAll(chunks[..i], maxStdout, maxFrame)
    decreases |chunks| - i
  {
    if i == |chunks| {
      assert chunks[..i] == chunks;
    } else {
      assert chunks[..i + 1][..i] == chunks[..i];
      StaysFailed(chunks, i + 1, maxStdout, maxFrame);
    }
  }
}
