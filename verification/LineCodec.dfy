/** The incremental decoder of CRLF-terminated frames. */
module LineCodec {
  import opened Bytes

  const MAX_MESSAGE_LEN: nat := 512
  const CR: Byte := 13
  const LF: Byte := 10
  const CRLF: Bytes := [CR, LF]

  /** What one call of `decode` yields; a frame stays opaque. */
  datatype Decoded = NeedMore | Frame(bytes: Bytes) | TooLong(length: nat)

  predicate CrlfAt(b: Bytes, i: nat) {
    i + 1 < |b| && b[i] == CR && b[i + 1] == LF
  }

  /** Where the first CRLF at or behind `i` starts, or the length of the data. */
  function NextCrlf(b: Bytes, i: nat): (p: nat)
    requires i <= |b|
    ensures i <= p <= |b|
    ensures forall j :: i <= j < p ==> !CrlfAt(b, j)
    ensures p < |b| ==> CrlfAt(b, p)
    decreases |b| - i
  {
    if i == |b| || CrlfAt(b, i) then i else NextCrlf(b, i + 1)
  }

  /** `decode`: the buffer afterwards and the outcome. */
  function Decode(src: Bytes): (r: (Bytes, Decoded)) {
    var p := NextCrlf(src, 0);
    if p == |src| then (src, if |src| > MAX_MESSAGE_LEN then TooLong(|src|) else NeedMore)
    else if p + 2 > MAX_MESSAGE_LEN then (src[p + 2..], TooLong(p + 2))
    else (src[p + 2..], Frame(src[..p + 2]))
  }

  /** `decode_eof`: what is left without a terminator is discarded. */
  function DecodeEof(src: Bytes): (r: (Bytes, Decoded)) {
    var (rest, d) := Decode(src);
    if d == NeedMore then ([], NeedMore) else (rest, d)
  }

  /** `encode` at frame level. */
  function Encode(wire: Bytes, dst: Bytes): (r: (Bytes, Decoded)) {
    if |wire| + 2 > MAX_MESSAGE_LEN then (dst, TooLong(|wire| + 2)) else (dst + wire + CRLF, NeedMore)
  }

  /** Bytes 13 and 10 at p, and nowhere before. */
  predicate FirstEnd(b: Bytes, p: nat) {
    && p + 1 < |b| && b[p] == 13 && b[p + 1] == 10
    && forall i, j :: 0 <= i < p && j == i + 1 ==> !(b[i] == 13 && b[j] == 10)
  }

  lemma FirstEndFound(b: Bytes)
    ensures NextCrlf(b, 0) < |b| ==> FirstEnd(b, NextCrlf(b, 0))
    ensures NextCrlf(b, 0) == |b| ==> forall p: nat :: !FirstEnd(b, p)
    ensures forall p: nat :: FirstEnd(b, p) ==> p == NextCrlf(b, 0)
  {
    var q := NextCrlf(b, 0);
    assert q < |b| ==> CrlfAt(b, q);
    forall i: nat | i < q && i + 1 < |b| ensures !(b[i] == 13 && b[i + 1] == 10) {
      assert !CrlfAt(b, i);
    }
    forall p: nat | FirstEnd(b, p) ensures p == q {
      assert CrlfAt(b, p);
    }
  }

  /**
   * What `decode` makes of any buffer: with a line end at p, the first p + 2 bytes are taken off, as
   * a frame if they are at most 512 and as an error if more; without one, nothing is taken off, and
   * it is an error if the buffer is longer than 512 bytes.
   */
  lemma DecodeMeaning(src: Bytes, p: nat)
    ensures FirstEnd(src, p) ==>
              Decode(src) == (src[p + 2..], if p + 2 <= 512 then Frame(src[..p + 2]) else TooLong(p + 2))
    ensures (forall q: nat :: !FirstEnd(src, q)) ==>
              Decode(src) == (src, if |src| <= 512 then NeedMore else TooLong(|src|))
  {
    hide NextCrlf, FirstEnd;
    FirstEndFound(src);
  }

  /** What `decode_eof` and `encode` do at the limits. */
  lemma EndsMeaning(src: Bytes, wire: Bytes, dst: Bytes)
    ensures (forall q: nat :: !FirstEnd(src, q)) && |src| <= 512 ==> DecodeEof(src) == ([], NeedMore)
    ensures Decode(src).1 != NeedMore ==> DecodeEof(src) == Decode(src)
    ensures |wire| <= 510 ==> Encode(wire, dst) == (dst + wire + [13, 10], NeedMore)
    ensures |wire| > 510 ==> Encode(wire, dst) == (dst, TooLong(|wire| + 2))
  {
    hide NextCrlf, FirstEnd;
    DecodeMeaning(src, 0);
  }

  // ---------------------------------------------------------------
  // The methods
  // ---------------------------------------------------------------

  /** The growable buffer that reader and decoder share. */
  class BytesMut {
    var data: Bytes

    constructor ()
      ensures data == []
    {
      data := [];
    }
  }

  method FindCrlf(b: Bytes) returns (p: nat)
    ensures p == NextCrlf(b, 0)
  {
    p := 0;
    while p < |b|
      invariant p <= |b| && NextCrlf(b, 0) == NextCrlf(b, p)
    {
      if p + 1 < |b| && b[p] == CR && b[p + 1] == LF {
        return;
      }
      p := p + 1;
    }
  }

  method DecodeFrame(src: BytesMut) returns (d: Decoded)
    modifies src
    ensures (src.data, d) == Decode(old(src.data))
  {
    var p := FindCrlf(src.data);
    if p == |src.data| {
      if |src.data| > MAX_MESSAGE_LEN {
        return TooLong(|src.data|);
      }
      return NeedMore;
    }
    var frameLen := p + 2;
    if frameLen > MAX_MESSAGE_LEN {
      src.data := src.data[frameLen..];
      return TooLong(frameLen);
    }
    d := Frame(src.data[..frameLen]);
    src.data := src.data[frameLen..];
  }

  method DecodeAtEof(src: BytesMut) returns (d: Decoded)
    modifies src
    ensures (src.data, d) == DecodeEof(old(src.data))
  {
    d := DecodeFrame(src);
    if d == NeedMore {
      src.data := [];
    }
  }

  method EncodeFrame(wire: Bytes, dst: BytesMut) returns (d: Decoded)
    modifies dst
    ensures (dst.data, d) == Encode(wire, old(dst.data))
  {
    if |wire| + 2 > MAX_MESSAGE_LEN {
      return TooLong(|wire| + 2);
    }
    dst.data := dst.data + wire;
    dst.data := dst.data + CRLF;
    d := NeedMore;
  }

  // ---------------------------------------------------------------
  // Streams
  // ---------------------------------------------------------------

  /** What a reader has got so far: frames, and either the bytes still buffered or a broken stream. */
  datatype Reading = Reading(frames: seq<Bytes>, open: bool, tail: Bytes)

  function Behind(frames: seq<Bytes>, r: Reading): (r': Reading) {
    r.(frames := frames + r.frames)
  }

  /** The frames of a whole stream, up to the first one that is too long. */
  function Frames(s: Bytes): (r: Reading)
    decreases |s|
  {
    var p := NextCrlf(s, 0);
    if p == |s| then Reading([], |s| <= MAX_MESSAGE_LEN, if |s| <= MAX_MESSAGE_LEN then s else [])
    else if p + 2 > MAX_MESSAGE_LEN then Reading([], false, [])
    else Behind([s[..p + 2]], Frames(s[p + 2..]))
  }

  /** Decode until more bytes are needed, or an error ends the stream. */
  method DrainBuffer(src: BytesMut) returns (r: Reading)
    modifies src
    ensures r == Frames(old(src.data)) && (r.open ==> src.data == r.tail)
  {
    var frames: seq<Bytes> := [];
    var more := true;
    while more
      invariant more ==> Frames(old(src.data)) == Behind(frames, Frames(src.data))
      invariant !more ==> Frames(old(src.data)) == Reading(frames, true, src.data)
      decreases more, |src.data|
    {
      ghost var before := src.data;
      var d := DecodeFrame(src);
      match d
      case NeedMore =>
        more := false;
        assert frames + [] == frames;
      case Frame(bytes) =>
        BehindTwice(frames, [bytes], Frames(src.data));
        frames := frames + [bytes];
      case TooLong(_) =>
        assert frames + [] == frames;
        return Reading(frames, false, []);
    }
    r := Reading(frames, true, src.data);
  }

  lemma BehindTwice(a: seq<Bytes>, b: seq<Bytes>, r: Reading)
    ensures Behind(a, Behind(b, r)) == Behind(a + b, r)
  {
    assert a + (b + r.frames) == a + b + r.frames;
  }

  /** A chunk arrives: it is appended to what is buffered and decoded; a broken stream stays broken. */
  function Feed(r: Reading, chunk: Bytes): (r': Reading) {
    if !r.open then r else Behind(r.frames, Frames(r.tail + chunk))
  }

  function FeedAll(r: Reading, chunks: seq<Bytes>): (r': Reading)
    decreases |chunks|
  {
    if chunks == [] then r else FeedAll(Feed(r, chunks[0]), chunks[1..])
  }

  function Concat(chunks: seq<Bytes>): (s: Bytes)
    decreases |chunks|
  {
    if chunks == [] then [] else chunks[0] + Concat(chunks[1..])
  }

  // ---------------------------------------------------------------
  // Chunking independence
  // ---------------------------------------------------------------

  /** More bytes do not move a terminator already seen. */
  lemma CrlfStays(a: Bytes, b: Bytes)
    ensures NextCrlf(a, 0) < |a| ==> NextCrlf(a + b, 0) == NextCrlf(a, 0)
    ensures NextCrlf(a, 0) == |a| ==> NextCrlf(a + b, 0) + 1 >= |a|
  {
    assert forall j :: 0 <= j && j + 1 < |a| ==> (CrlfAt(a + b, j) <==> CrlfAt(a, j));
  }

  /** A frame: one CRLF, at the end, and not too long. */
  ghost predicate IsFrame(f: Bytes) {
    2 <= |f| <= MAX_MESSAGE_LEN && NextCrlf(f, 0) == |f| - 2
  }

  ghost predicate IsTail(t: Bytes) {
    |t| <= MAX_MESSAGE_LEN && NextCrlf(t, 0) == |t|
  }

  lemma FirstOfPrefix(f: Bytes, rest: Bytes, p: nat)
    requires |f| == p + 2 && NextCrlf(f + rest, 0) == p
    ensures NextCrlf(f, 0) == p
  {
    assert forall j :: 0 <= j && j + 1 < |f| ==> (CrlfAt(f + rest, j) <==> CrlfAt(f, j));
  }

  /** The first frame, and the frames of what follows. */
  lemma FramesOfFrame(f: Bytes, rest: Bytes)
    requires IsFrame(f)
    ensures Frames(f + rest) == Behind([f], Frames(rest))
  {
    hide NextCrlf;
    CrlfStays(f, rest);
    var s := f + rest;
    assert s[..|f|] == f && s[|f|..] == rest;
  }

  /** A stream that starts with a frame. */
  lemma FrontFrame(s: Bytes)
    requires NextCrlf(s, 0) + 2 <= |s| && NextCrlf(s, 0) + 2 <= MAX_MESSAGE_LEN
    ensures var p := NextCrlf(s, 0); IsFrame(s[..p + 2]) && s == s[..p + 2] + s[p + 2..]
  {
    var p := NextCrlf(s, 0);
    assert s == s[..p + 2] + s[p + 2..];
    FirstOfPrefix(s[..p + 2], s[p + 2..], p);
  }

  /** Feeding behind a frame already delivered. */
  lemma FeedBehind(f: Bytes, r: Reading, b: Bytes)
    ensures Feed(Behind([f], r), b) == Behind([f], Feed(r, b))
  {
    if r.open {
      BehindTwice([f], r.frames, Frames(r.tail + b));
    }
  }

  lemma NothingBehind(r: Reading)
    ensures Behind([], r) == r
  {
    assert [] + r.frames == r.frames;
  }

  /** Decoding in two goes is decoding in one. */
  lemma {:induction false} FramesSplit(a: Bytes, b: Bytes)
    ensures Frames(a + b) == Feed(Frames(a), b)
    decreases |a|
  {
    hide NextCrlf, Behind, IsFrame;
    var p := NextCrlf(a, 0);
    CrlfStays(a, b);
    if p == |a| {
      NothingBehind(Frames(a + b));
    } else if p + 2 <= MAX_MESSAGE_LEN {
      FrontFrame(a);
      var f, rest := a[..p + 2], a[p + 2..];
      assert a + b == f + (rest + b);
      FramesOfFrame(f, rest);
      FramesOfFrame(f, rest + b);
      FramesSplit(rest, b);
      FeedBehind(f, Frames(rest), b);
    }
  }

  /**
   * Chunking independence, for every byte stream and every way of cutting it, also between CR and
   * LF: the frames delivered, whether the stream breaks, and the bytes left are those of the whole
   * stream decoded at once.
   */
  lemma {:induction false} Chunking(s: Bytes, chunks: seq<Bytes>)
    ensures FeedAll(Frames(s), chunks) == Frames(s + Concat(chunks))
    decreases |chunks|
  {
    hide Frames, Feed;
    if chunks == [] {
      assert s + Concat(chunks) == s;
    } else {
      FramesSplit(s, chunks[0]);
      Chunking(s + chunks[0], chunks[1..]);
      assert s + chunks[0] + Concat(chunks[1..]) == s + Concat(chunks);
    }
  }

  // ---------------------------------------------------------------
  // What the frames of a stream are
  // ---------------------------------------------------------------

  /** An open reading takes the stream apart into frames and a tail, losing nothing. */
  lemma {:induction false} FramesMeaning(s: Bytes)
    requires Frames(s).open
    ensures var r := Frames(s);
            && Concat(r.frames) + r.tail == s && IsTail(r.tail)
            && (forall i :: 0 <= i < |r.frames| ==> IsFrame(r.frames[i]))
    decreases |s|
  {
    hide NextCrlf, IsFrame;
    var p := NextCrlf(s, 0);
    if p < |s| {
      FrontFrame(s);
      var f, rest := s[..p + 2], s[p + 2..];
      FramesOfFrame(f, rest);
      FramesMeaning(rest);
      ConcatBehind(f, Frames(rest).frames, Frames(rest).tail);
    }
  }

  lemma ConcatBehind(f: Bytes, frames: seq<Bytes>, tail: Bytes)
    ensures Concat([f] + frames) + tail == f + (Concat(frames) + tail)
  {
    assert ([f] + frames)[1..] == frames;
  }

  /** And it is the only way to take the stream apart. */
  lemma {:induction false} FramesUnique(frames: seq<Bytes>, tail: Bytes)
    requires IsTail(tail) && forall i :: 0 <= i < |frames| ==> IsFrame(frames[i])
    ensures Frames(Concat(frames) + tail) == Reading(frames, true, tail)
    decreases |frames|
  {
    hide NextCrlf, IsFrame;
    if frames == [] {
      assert Concat(frames) + tail == tail;
    } else {
      FramesOfFrame(frames[0], Concat(frames[1..]) + tail);
      FramesUnique(frames[1..], tail);
      assert frames == [frames[0]] + frames[1..];
      ConcatBehind(frames[0], frames[1..], tail);
    }
  }

  /** The bytes `encode` appends for a list of messages. */
  function EncodeAll(wires: seq<Bytes>): (s: Bytes)
    decreases |wires|
  {
    if wires == [] then [] else Encode(wires[0], []).0 + EncodeAll(wires[1..])
  }

  /**
   * Sending and receiving: messages that fit and contain no CRLF arrive as exactly one frame each,
   * in order, however the network cuts the bytes.
   */
  lemma StreamRoundTrip(wires: seq<Bytes>, chunks: seq<Bytes>)
    requires forall i :: 0 <= i < |wires| ==> |wires[i]| + 2 <= MAX_MESSAGE_LEN && NextCrlf(wires[i], 0) == |wires[i]|
    requires Concat(chunks) == EncodeAll(wires)
    ensures FeedAll(Reading([], true, []), chunks) == Reading(Terminated(wires), true, [])
  {
    Chunking([], chunks);
    assert [] + Concat(chunks) == Concat(chunks);
    EncodedFrames(wires);
    forall i | 0 <= i < |wires| ensures IsFrame(Terminated(wires)[i]) {
      TerminatedIsFrame(wires[i]);
    }
    FramesUnique(Terminated(wires), []);
    assert Concat(Terminated(wires)) + [] == Concat(Terminated(wires));
  }

  function Terminated(wires: seq<Bytes>): (frames: seq<Bytes>)
    ensures |frames| == |wires|
  {
    seq(|wires|, i requires 0 <= i < |wires| => wires[i] + CRLF)
  }

  lemma {:induction false} EncodedFrames(wires: seq<Bytes>)
    requires forall i :: 0 <= i < |wires| ==> |wires[i]| + 2 <= MAX_MESSAGE_LEN
    ensures EncodeAll(wires) == Concat(Terminated(wires))
    decreases |wires|
  {
    if wires != [] {
      EncodedFrames(wires[1..]);
      assert Terminated(wires)[1..] == Terminated(wires[1..]);
      assert [] + wires[0] + CRLF == wires[0] + CRLF;
    }
  }

  lemma TerminatedIsFrame(wire: Bytes)
    requires |wire| + 2 <= MAX_MESSAGE_LEN && NextCrlf(wire, 0) == |wire|
    ensures IsFrame(wire + CRLF)
  {
    var f := wire + CRLF;
    assert CrlfAt(f, |wire|);
    assert forall j :: 0 <= j && j + 1 < |wire| ==> (CrlfAt(f, j) <==> CrlfAt(wire, j));
  }

  /** A frame at the front is decoded whatever follows it. */
  lemma DecodeFront(a: Bytes, b: Bytes)
    requires NextCrlf(a, 0) < |a| && NextCrlf(a, 0) + 2 <= MAX_MESSAGE_LEN
    ensures Decode(a + b).1 == Frame(a[..NextCrlf(a, 0) + 2])
  {
    hide NextCrlf;
    var p := NextCrlf(a, 0);
    CrlfStays(a, b);
    PrefixOfSum(a, b, p + 2);
  }

  lemma PrefixOfSum(a: Bytes, b: Bytes, n: nat)
    requires n <= |a|
    ensures (a + b)[..n] == a[..n]
  {
  }

  /** A message that contains a CRLF arrives cut there: `encode` does not look. */
  lemma UnsafeToSend(wire: Bytes)
    requires NextCrlf(wire, 0) < |wire| && |wire| + 2 <= MAX_MESSAGE_LEN
    ensures Decode(Encode(wire, []).0).1 == Frame(wire[..NextCrlf(wire, 0) + 2])
  {
    hide NextCrlf, Decode;
    DecodeFront(wire, CRLF);
    assert Encode(wire, []).0 == wire + CRLF;
  }

  // ---------------------------------------------------------------
  // Reading on past oversized frames
  // ---------------------------------------------------------------

  /** What a reader that goes on after an error has got: the frames that fit, and the bytes buffered. */
  datatype Continued = Continued(frames: seq<Bytes>, tail: Bytes)

  function After(frames: seq<Bytes>, c: Continued): (c': Continued) {
    c.(frames := frames + c.frames)
  }

  /** A frame that fits, or nothing for an oversized one. */
  function IfFits(f: Bytes): (frames: seq<Bytes>) {
    if |f| <= MAX_MESSAGE_LEN then [f] else []
  }

  /** All frames of a stream that fit; oversized ones are consumed and left out. */
  function FittingFrames(s: Bytes): (c: Continued)
    decreases |s|
  {
    var p := NextCrlf(s, 0);
    if p == |s| then Continued([], s) else After(IfFits(s[..p + 2]), FittingFrames(s[p + 2..]))
  }

  /** Decode until nothing more can be consumed, whatever errors come up. */
  method DrainPastErrors(src: BytesMut) returns (frames: seq<Bytes>)
    modifies src
    ensures Continued(frames, src.data) == FittingFrames(old(src.data))
  {
    frames := [];
    NothingAfter(FittingFrames(src.data));
    while true
      invariant FittingFrames(old(src.data)) == After(frames, FittingFrames(src.data))
      decreases |src.data|
    {
      ghost var before := src.data;
      var size := |src.data|;
      var d := DecodeFrame(src);
      if |src.data| == size {
        assert frames + [] == frames;
        return;
      }
      var p := size - |src.data|;
      AfterTwice(frames, IfFits(before[..p]), FittingFrames(src.data));
      if d.Frame? {
        frames := frames + [d.bytes];
      } else {
        assert frames + [] == frames;
      }
    }
  }

  lemma NothingAfter(c: Continued)
    ensures After([], c) == c
  {
    assert [] + c.frames == c.frames;
  }

  lemma AfterTwice(a: seq<Bytes>, b: seq<Bytes>, c: Continued)
    ensures After(a, After(b, c)) == After(a + b, c)
  {
    assert a + (b + c.frames) == a + b + c.frames;
  }

  function FeedOn(c: Continued, chunk: Bytes): (c': Continued) {
    After(c.frames, FittingFrames(c.tail + chunk))
  }

  function FeedOnAll(c: Continued, chunks: seq<Bytes>): (c': Continued)
    decreases |chunks|
  {
    if chunks == [] then c else FeedOnAll(FeedOn(c, chunks[0]), chunks[1..])
  }

  lemma FittingOfFront(f: Bytes, rest: Bytes)
    requires 2 <= |f| && NextCrlf(f, 0) == |f| - 2
    ensures FittingFrames(f + rest) == After(IfFits(f), FittingFrames(rest))
  {
    hide NextCrlf, IfFits, After;
    CrlfStays(f, rest);
    var s := f + rest;
    assert s[..|f|] == f && s[|f|..] == rest;
  }

  lemma FeedOnAfter(frames: seq<Bytes>, c: Continued, b: Bytes)
    ensures FeedOn(After(frames, c), b) == After(frames, FeedOn(c, b))
  {
    AfterTwice(frames, c.frames, FittingFrames(c.tail + b));
  }

  lemma {:induction false} FittingSplit(a: Bytes, b: Bytes)
    ensures FittingFrames(a + b) == FeedOn(FittingFrames(a), b)
    decreases |a|
  {
    hide NextCrlf, IfFits, After;
    var p := NextCrlf(a, 0);
    if p == |a| {
      NothingAfter(FittingFrames(a + b));
    } else {
      var f, rest := a[..p + 2], a[p + 2..];
      assert a == f + rest && a + b == f + (rest + b);
      FirstOfPrefix(f, rest, p);
      FittingOfFront(f, rest);
      FittingOfFront(f, rest + b);
      FittingSplit(rest, b);
      FeedOnAfter(IfFits(f), FittingFrames(rest), b);
    }
  }

  /** Also past oversized frames, the frames delivered and the bytes left do not depend on the chunks. */
  lemma {:induction false} ChunkingPastErrors(s: Bytes, chunks: seq<Bytes>)
    ensures FeedOnAll(FittingFrames(s), chunks) == FittingFrames(s + Concat(chunks))
    decreases |chunks|
  {
    hide FittingFrames, FeedOn;
    if chunks == [] {
      assert s + Concat(chunks) == s;
    } else {
      FittingSplit(s, chunks[0]);
      ChunkingPastErrors(s + chunks[0], chunks[1..]);
      assert s + chunks[0] + Concat(chunks[1..]) == s + Concat(chunks);
    }
  }

  /** On a stream without oversized frames both readers get the same. */
  lemma {:induction false} ReadersAgree(s: Bytes)
    requires Frames(s).open
    ensures FittingFrames(s) == Continued(Frames(s).frames, Frames(s).tail)
    decreases |s|
  {
    hide NextCrlf;
    var p := NextCrlf(s, 0);
    if p < |s| {
      ReadersAgree(s[p + 2..]);
    }
  }
}
