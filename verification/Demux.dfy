/**
 The multiplexed output stream of the Docker engine: frames of an 8-byte header (stream
 type, three reserved bytes, payload length in big-endian order) and a payload.
 */
module Demux {
  import opened Sequences

  type Byte = b: int | 0 <= b < 256

  /** A piece of output. `stream` is "stdout" or "stderr". */
  datatype Chunk = Chunk(stream: string, data: seq<Byte>)

  const FRAME_LIMIT: nat := 0x1_0000_0000

  // ----- The wire format -----

  datatype RawFrame = Frame(kind: Byte, reserved: seq<Byte>, payload: seq<Byte>)

  type Frame = f: RawFrame | |f.reserved| == 3 && |f.payload| < FRAME_LIMIT
    witness Frame(1, [0, 0, 0], [])

  function Power256(k: nat): (p: nat)
    ensures p > 0
  {
    if k == 0 then 1 else 256 * Power256(k - 1)
  }

  /** The number whose big-endian bytes these are. */
  function BigEndian(h: seq<Byte>): nat {
    if |h| == 0 then 0 else BigEndian(h[..|h| - 1]) * 256 + h[|h| - 1] as int
  }

  function PutBigEndian(n: nat, width: nat): (h: seq<Byte>)
    ensures |h| == width
  {
    if width == 0 then [] else PutBigEndian(n / 256, width - 1) + [n % 256]
  }

  lemma {:induction false} BigEndianRoundTrip(n: nat, width: nat)
    requires n < Power256(width)
    ensures BigEndian(PutBigEndian(n, width)) == n
  {
    if width > 0 {
      BigEndianRoundTrip(n / 256, width - 1);
      assert PutBigEndian(n, width)[..width - 1] == PutBigEndian(n / 256, width - 1);
    }
  }

  lemma {:induction false} PutBigEndianRoundTrip(h: seq<Byte>)
    ensures BigEndian(h) < Power256(|h|) && PutBigEndian(BigEndian(h), |h|) == h
  {
    if |h| > 0 {
      PutBigEndianRoundTrip(h[..|h| - 1]);
      var last: int := h[|h| - 1];
      assert (BigEndian(h[..|h| - 1]) * 256 + last) / 256 == BigEndian(h[..|h| - 1]);
    }
  }

  /** Length field of a header. */
  function U32(h: seq<Byte>): (n: nat)
    requires |h| == 4
    ensures n < FRAME_LIMIT
  {
    PutBigEndianRoundTrip(h);
    FrameLimitIsPower();
    BigEndian(h)
  }

  /** The first of its bytes is the most significant. */
  lemma U32Bytes(h: seq<Byte>)
    requires |h| == 4
    ensures U32(h) == h[0] as int * 0x100_0000 + h[1] as int * 0x1_0000 + h[2] as int * 0x100 + h[3] as int
  {
    var a, b, c := h[..3], h[..3][..2], h[..3][..2][..1];
    assert c[..0] == [] && BigEndian(c) == h[0] as int;
    assert BigEndian(b) == BigEndian(c) * 256 + h[1] as int;
    assert BigEndian(a) == BigEndian(b) * 256 + h[2] as int;
  }

  lemma FrameLimitIsPower()
    ensures Power256(4) == FRAME_LIMIT
  {
    assert Power256(1) == 256 && Power256(2) == 65536 && Power256(3) == 16777216;
  }

  function Encode(f: Frame): seq<Byte> {
    [f.kind] + f.reserved + PutBigEndian(|f.payload|, 4) + f.payload
  }

  function EncodeAll(fs: seq<Frame>): seq<Byte> {
    if |fs| == 0 then [] else Encode(fs[0]) + EncodeAll(fs[1..])
  }

  function StreamName(kind: Byte): string { if kind == 2 then "stderr" else "stdout" }

  /** What a list of frames says: one chunk for each frame with a payload. */
  function Chunks(fs: seq<Frame>): seq<Chunk> {
    if |fs| == 0 then []
    else if fs[0].payload == [] then Chunks(fs[1..])
    else [Chunk(StreamName(fs[0].kind), fs[0].payload)] + Chunks(fs[1..])
  }

  // ----- Reading it back -----

  /** Length of the frame at the front, if it is complete. */
  function FrameLength(bytes: seq<Byte>): nat
    requires |bytes| >= 8
  {
    8 + U32(bytes[4..8])
  }

  predicate HasFrame(bytes: seq<Byte>) { |bytes| >= 8 && |bytes| >= FrameLength(bytes) }

  function Decode(bytes: seq<Byte>): seq<Chunk> {
    if !HasFrame(bytes) then []
    else
      var payload := bytes[8..FrameLength(bytes)];
      var rest := Decode(bytes[FrameLength(bytes)..]);
      if payload == [] then rest else [Chunk(StreamName(bytes[0]), payload)] + rest
  }

  /** What is left over: the start of a frame that has not arrived completely. */
  function Rest(bytes: seq<Byte>): seq<Byte> {
    if !HasFrame(bytes) then bytes else Rest(bytes[FrameLength(bytes)..])
  }

  function Unframe(bytes: seq<Byte>): seq<Frame> {
    if !HasFrame(bytes) then []
    else [Frame(bytes[0], bytes[1..4], bytes[8..FrameLength(bytes)])] + Unframe(bytes[FrameLength(bytes)..])
  }

  lemma HeadOfEncoding(f: Frame, rest: seq<Byte>)
    ensures var bytes := Encode(f) + rest;
      && HasFrame(bytes) && FrameLength(bytes) == |Encode(f)| && bytes[FrameLength(bytes)..] == rest
      && bytes[0] == f.kind && bytes[1..4] == f.reserved && bytes[8..FrameLength(bytes)] == f.payload
  {
    var bytes := Encode(f) + rest;
    assert bytes[4..8] == PutBigEndian(|f.payload|, 4);
    FrameLimitIsPower();
    BigEndianRoundTrip(|f.payload|, 4);
  }

  lemma HeadIsFrame(bytes: seq<Byte>)
    requires HasFrame(bytes)
    ensures Encode(Frame(bytes[0], bytes[1..4], bytes[8..FrameLength(bytes)])) == bytes[..FrameLength(bytes)]
  {
    var h := bytes[4..8];
    PutBigEndianRoundTrip(h);
    assert bytes[..FrameLength(bytes)] == [bytes[0]] + bytes[1..4] + h + bytes[8..FrameLength(bytes)];
  }

  /** Any bytes at all are frames and an incomplete rest, and decoding says what those frames say. */
  lemma {:induction false} EveryInputIsFrames(bytes: seq<Byte>)
    ensures EncodeAll(Unframe(bytes)) + Rest(bytes) == bytes
    ensures !HasFrame(Rest(bytes)) && Decode(bytes) == Chunks(Unframe(bytes))
  {
    if HasFrame(bytes) {
      EveryInputIsFrames(bytes[FrameLength(bytes)..]);
      HeadIsFrame(bytes);
      var tail := bytes[FrameLength(bytes)..];
      assert EncodeAll(Unframe(bytes)) == bytes[..FrameLength(bytes)] + EncodeAll(Unframe(tail));
    }
  }

  lemma UnframeHead(f: Frame, rest: seq<Byte>)
    ensures Unframe(Encode(f) + rest) == [f] + Unframe(rest) && Rest(Encode(f) + rest) == Rest(rest)
  {
    HeadOfEncoding(f, rest);
  }

  lemma EncodeCons(f: Frame, fs: seq<Frame>, rest: seq<Byte>)
    ensures EncodeAll([f] + fs) + rest == Encode(f) + (EncodeAll(fs) + rest)
  {
    assert ([f] + fs)[1..] == fs;
    Assoc(Encode(f), EncodeAll(fs), rest);
  }

  lemma UnframeCons(f: Frame, fs: seq<Frame>, rest: seq<Byte>)
    requires Unframe(EncodeAll(fs) + rest) == fs + Unframe(rest) && Rest(EncodeAll(fs) + rest) == Rest(rest)
    ensures Unframe(EncodeAll([f] + fs) + rest) == [f] + fs + Unframe(rest)
        && Rest(EncodeAll([f] + fs) + rest) == Rest(rest)
  {
    EncodeCons(f, fs, rest);
    UnframeHead(f, EncodeAll(fs) + rest);
    Assoc([f], fs, Unframe(rest));
  }

  /** The frames found in encoded frames are those frames, then the ones in what follows. */
  lemma {:induction false} UnframeFramed(fs: seq<Frame>, rest: seq<Byte>)
    ensures Unframe(EncodeAll(fs) + rest) == fs + Unframe(rest) && Rest(EncodeAll(fs) + rest) == Rest(rest)
  {
    if |fs| == 0 {
      assert EncodeAll(fs) + rest == rest;
    } else {
      UnframeFramed(fs[1..], rest);
      UnframeCons(fs[0], fs[1..], rest);
      assert [fs[0]] + fs[1..] == fs;
    }
  }

  function NonEmpty(fs: seq<Frame>): seq<Frame> {
    if |fs| == 0 then [] else (if fs[0].payload == [] then [] else [fs[0]]) + NonEmpty(fs[1..])
  }

  /** The chunks are the non-empty frames: error output exactly for type 2, with the payload as it is. */
  lemma {:induction false} ChunksAreFrames(fs: seq<Frame>)
    ensures |Chunks(fs)| == |NonEmpty(fs)|
    ensures forall i :: 0 <= i < |Chunks(fs)| ==>
      Chunks(fs)[i] == Chunk(if NonEmpty(fs)[i].kind == 2 then "stderr" else "stdout", NonEmpty(fs)[i].payload)
  {
    if |fs| > 0 { ChunksAreFrames(fs[1..]); }
  }

  /** For example: the size is big-endian, and the first byte tells the streams apart. */
  lemma OneByteOfEach()
    ensures Decode([1, 0, 0, 0, 0, 0, 0, 1, 65]) == [Chunk("stdout", [65])]
    ensures Decode([2, 0, 0, 0, 0, 0, 0, 1, 65]) == [Chunk("stderr", [65])]
  {
    OneByte(1);
    OneByte(2);
  }

  lemma OneByte(kind: Byte)
    ensures Decode([kind, 0, 0, 0, 0, 0, 0, 1, 65]) == [Chunk(StreamName(kind), [65])]
  {
    var bytes: seq<Byte> := [kind, 0, 0, 0, 0, 0, 0, 1, 65];
    var size: seq<Byte> := [0, 0, 0, 1];
    assert bytes[4..8] == size;
    assert size[..3][..2][..1][..0] == [];
    assert BigEndian(size[..3][..2][..1]) == BigEndian(size[..3][..2]) == BigEndian(size[..3]) == 0;
    assert FrameLength(bytes) == 9 && bytes[8..9] == [65] && bytes[9..] == [];
  }

  lemma {:induction false} ChunksConcat(fs: seq<Frame>, gs: seq<Frame>)
    ensures Chunks(fs + gs) == Chunks(fs) + Chunks(gs)
  {
    if |fs| == 0 {
      assert fs + gs == gs;
    } else {
      assert (fs + gs)[1..] == fs[1..] + gs;
      ChunksConcat(fs[1..], gs);
    }
  }

  /** Decoding undoes framing: from encoded frames come exactly the non-empty ones, in order, then what follows. */
  lemma DecodeFramed(fs: seq<Frame>, rest: seq<Byte>)
    ensures Decode(EncodeAll(fs) + rest) == Chunks(fs) + Decode(rest)
  {
    EveryInputIsFrames(EncodeAll(fs) + rest);
    EveryInputIsFrames(rest);
    UnframeFramed(fs, rest);
    ChunksConcat(fs, Unframe(rest));
  }

  /** However the bytes are cut, decoding the first part and then what it left over with the rest is decoding all. */
  lemma {:induction false} DecodeInPieces(a: seq<Byte>, b: seq<Byte>)
    ensures Decode(a + b) == Decode(a) + Decode(Rest(a) + b)
  {
    EveryInputIsFrames(a);
    assert a + b == EncodeAll(Unframe(a)) + (Rest(a) + b);
    DecodeFramed(Unframe(a), Rest(a) + b);
  }

  /** A stream that ends early, anywhere, gives the first of the chunks it would have given. */
  lemma PrefixDecodesToPrefix(a: seq<Byte>, b: seq<Byte>)
    ensures Decode(a) <= Decode(a + b)
  {
    DecodeInPieces(a, b);
  }

  // ----- The loop -----

  /** A reader: the bytes that are still to come before end of stream, or before the first read error. */
  class Reader {
    var input: seq<Byte>

    constructor (bytes: seq<Byte>)
      ensures input == bytes
    {
      input := bytes;
    }

    /** Fills the buffer, or uses up what is left. */
    method ReadFull(buffer: array<Byte>) returns (ok: bool)
      modifies this, buffer
      ensures ok <==> |old(input)| >= buffer.Length
      ensures if ok then buffer[..] == old(input)[..buffer.Length] && input == old(input)[buffer.Length..]
          else input == []
    {
      var i := 0;
      while i < buffer.Length && |input| > 0
        invariant i <= buffer.Length && i <= |old(input)|
        invariant input == old(input)[i..] && buffer[..i] == old(input)[..i]
      {
        buffer[i] := input[0];
        i, input := i + 1, input[1..];
      }
      ok := i == buffer.Length;
    }
  }

  class ChunkChannel {
    var sent: seq<Chunk>
    var closed: bool

    constructor ()
      ensures sent == [] && !closed
    {
      sent, closed := [], false;
    }
  }

  /** One turn of the loop: what reading a header of length field `n` and then a payload does to the input. */
  lemma DecodeStep(input: seq<Byte>, header: seq<Byte>, n: nat)
    requires |input| >= 8 && header == input[..8] && n == U32(header[4..8])
    ensures n == 0 ==> Decode(input) == Decode(input[8..])
    ensures n > |input[8..]| ==> Decode(input) == []
    ensures 0 < n <= |input[8..]| ==>
      Decode(input) == [Chunk(StreamName(header[0]), input[8..][..n])] + Decode(input[8..][n..])
  {
    assert header[4..8] == input[4..8] && header[0] == input[0];
    SliceTwice(input, 8, n);
    DecodeByLength(input, n);
  }

  lemma DecodeByLength(input: seq<Byte>, n: nat)
    requires |input| >= 8 && n == U32(input[4..8])
    ensures n == 0 ==> Decode(input) == Decode(input[8..])
    ensures 8 + n > |input| ==> Decode(input) == []
    ensures 0 < n && 8 + n <= |input| ==>
      Decode(input) == [Chunk(StreamName(input[0]), input[8..8 + n])] + Decode(input[8 + n..])
  {
    if 8 + n <= |input| { DecodeWhole(input, n, input[8..8 + n], Decode(input[8 + n..])); }
  }

  lemma DecodeWhole(input: seq<Byte>, n: nat, payload: seq<Byte>, rest: seq<Chunk>)
    requires |input| >= 8 + n && n == U32(input[4..8])
    requires payload == input[8..8 + n] && rest == Decode(input[8 + n..])
    ensures Decode(input) == if n == 0 then rest else [Chunk(StreamName(input[0]), payload)] + rest
  {
    assert FrameLength(input) == 8 + n && HasFrame(input);
    assert payload == [] <==> n == 0;
  }

  lemma SliceTwice<T>(s: seq<T>, a: nat, b: nat)
    requires a <= |s|
    ensures a + b <= |s| ==> s[a..][..b] == s[a..a + b] && s[a..][b..] == s[a + b..]
  {
  }

  /**
   Turns the bytes into chunks until the end of the stream, or until one of its polls finds
   the context cancelled; `polls` says what each finds, and `stopped` that one did.
   */
  method DemuxStream(polls: nat -> bool, reader: Reader, ch: ChunkChannel) returns (stopped: bool)
    requires !ch.closed
    modifies reader, ch
    ensures ch.closed
    ensures stopped ==> exists k :: polls(k)
    ensures !stopped ==> ch.sent == old(ch.sent) + Decode(old(reader.input))
    ensures stopped ==> old(ch.sent) <= ch.sent <= old(ch.sent) + Decode(old(reader.input))
  {
    var header := new Byte[8];
    stopped := false;
    var polled := 0;
    ghost var whole := ch.sent + Decode(reader.input);
    while true
      invariant !ch.closed && !stopped
      invariant old(ch.sent) <= ch.sent && whole == ch.sent + Decode(reader.input)
      decreases |reader.input|
    {
      if polls(polled) {
        stopped := true;
        break;
      }
      polled := polled + 1;
      ghost var input := reader.input;
      var ok := reader.ReadFull(header);
      if !ok {
        break;
      }
      var streamName := match header[0] case 1 => "stdout" case 2 => "stderr" case _ => "stdout";
      assert header[..][4..8] == header[4..8];
      var payloadSize := U32(header[4..8]);
      DecodeStep(input, header[..], payloadSize);
      if payloadSize == 0 {
        continue;
      }
      var payload := new Byte[payloadSize];
      ok := reader.ReadFull(payload);
      if !ok {
        break;
      }
      if polls(polled) {
        stopped := true;
        break;
      }
      polled := polled + 1;
      Assoc(ch.sent, [Chunk(streamName, payload[..])], Decode(reader.input));
      ch.sent := ch.sent + [Chunk(streamName, payload[..])];
    }
    ch.closed := true;
  }
}
