/** Messages as bytes: the self-describing encoding, the length prefix on a
    byte stream, and the decoder that puts chunks back together. */
module Framing {
  import opened Proto

  const ENC_RAW: byte := 0
  const ENC_ZSTD: byte := 1
  const COMPRESS_MIN: nat := 64
  const MAX_FRAME: nat := 1024 * 1024
  const READ_LIMIT: nat := 64 * 1024
  const TWO_TO_THE_32: nat := 0x1_0000_0000

  // ------------------------------------------------------------------------
  // Encoding one message

  /** A serializer and a compressor; decompression refuses to produce more
      than `MAX_FRAME` bytes. */
  datatype Codec<!M(!new)> = Codec(
    ser: M -> Bytes,
    de: Bytes -> Option<M>,
    comp: Bytes -> Option<Bytes>,
    decomp: Bytes -> Option<Bytes>)
  {
    ghost predicate Lawful() {
      && (forall m :: de(ser(m)) == Some(m))
      && (forall b, z :: comp(b) == Some(z) ==> decomp(z) == (if |b| <= MAX_FRAME then Some(b) else None))
    }

    /** Whether `m` travels compressed. */
    predicate Compressed(m: M) {
      var body := ser(m);
      |body| >= COMPRESS_MIN && comp(body).Some? && |comp(body).value| < |body|
    }

    function Encode(m: M): Bytes {
      if Compressed(m) then [ENC_ZSTD] + comp(ser(m)).value else [ENC_RAW] + ser(m)
    }

    function Decode(bytes: Bytes): Decoded<M> {
      if bytes == [] then BadBody
      else if bytes[0] == ENC_RAW then FromBody(de(bytes[1..]))
      else if bytes[0] == ENC_ZSTD then
        match decomp(bytes[1..])
        case None => BadCompression
        case Some(body) => FromBody(de(body))
      else UnknownEncoding(bytes[0])
    }

    function FromBody(m: Option<M>): Decoded<M> {
      if m.Some? then Message(m.value) else BadBody
    }

    /** Decoding undoes encoding exactly when what was compressed is no larger
        than the decompressor allows. */
    lemma DecodeUndoesEncode(m: M)
      requires Lawful()
      ensures Decode(Encode(m)) == Message(m) <==> (Compressed(m) ==> |ser(m)| <= MAX_FRAME)
    {
      assert Encode(m)[1..] == if Compressed(m) then comp(ser(m)).value else ser(m);
    }

    /** Compression never makes a message longer than its plain form; a large
        message that can be compressed is no longer than that either, and a
        small one travels as it is. */
    lemma EncodeIsNoLonger(m: M)
      ensures 1 <= |Encode(m)| <= 1 + |ser(m)|
      ensures |ser(m)| >= COMPRESS_MIN && comp(ser(m)).Some? ==> |Encode(m)| <= 1 + |comp(ser(m)).value|
      ensures |ser(m)| < COMPRESS_MIN ==> Encode(m) == [ENC_RAW] + ser(m)
    {
    }
  }

  datatype Decoded<+M> = Message(m: M) | BadBody | BadCompression | UnknownEncoding(tag: byte)

  // ------------------------------------------------------------------------
  // The length prefix

  /** `n as u32` in network byte order. */
  function BigEndian(n: nat): (r: Bytes)
    ensures |r| == 4
  {
    [(n / 0x100_0000 % 256) as byte, (n / 0x1_0000 % 256) as byte, (n / 0x100 % 256) as byte, (n % 256) as byte]
  }

  function FromBigEndian(b: Bytes): nat
    requires |b| >= 4
  {
    b[0] as nat * 0x100_0000 + b[1] as nat * 0x1_0000 + b[2] as nat * 0x100 + b[3] as nat
  }

  /** The prefix keeps a length only modulo 2^32. */
  lemma DigitsSum(n: nat)
    ensures n % TWO_TO_THE_32 ==
            n / 0x100_0000 % 256 * 0x100_0000 + n / 0x1_0000 % 256 * 0x1_0000 + n / 0x100 % 256 * 0x100 + n % 256
  {
    var d0, d1, d2, d3 := n % 256, n / 0x100 % 256, n / 0x1_0000 % 256, n / 0x100_0000 % 256;
    assert n / 0x100 == n / 0x1_0000 * 256 + d1;
    assert n / 0x1_0000 == n / 0x100_0000 * 256 + d2;
    assert n / 0x100_0000 == n / TWO_TO_THE_32 * 256 + d3;
    assert n == n / TWO_TO_THE_32 * TWO_TO_THE_32 + d3 * 0x100_0000 + d2 * 0x1_0000 + d1 * 0x100 + d0;
  }

  lemma PrefixWraps(n: nat)
    ensures FromBigEndian(BigEndian(n)) == n % TWO_TO_THE_32
  {
    DigitsSum(n);
  }

  function Value(d0: nat, d1: nat, d2: nat, d3: nat): nat {
    d0 * 0x100_0000 + d1 * 0x1_0000 + d2 * 0x100 + d3
  }

  lemma LargerDigits(a0: nat, a1: nat, a2: nat, a3: nat, b0: nat, b1: nat, b2: nat, b3: nat)
    requires a1 < 256 && a2 < 256 && a3 < 256 && b1 < 256 && b2 < 256 && b3 < 256
    requires Value(a0, a1, a2, a3) < Value(b0, b1, b2, b3)
    ensures a0 < b0 || (a0 == b0 && (a1 < b1 || (a1 == b1 && (a2 < b2 || (a2 == b2 && a3 < b3)))))
  {
  }

  /** In network byte order, prefixes compare as the lengths they stand for: at
      the first byte where they differ. */
  lemma PrefixKeepsOrder(x: Bytes, y: Bytes)
    requires |x| == |y| == 4 && FromBigEndian(x) < FromBigEndian(y)
    ensures x[0] < y[0] || (x[0] == y[0] && (x[1] < y[1] || (x[1] == y[1] && (x[2] < y[2] || (x[2] == y[2] && x[3] < y[3])))))
  {
    LargerDigits(x[0] as nat, x[1] as nat, x[2] as nat, x[3] as nat, y[0] as nat, y[1] as nat, y[2] as nat, y[3] as nat);
  }

  /** One frame on the stream. */
  function Framed(body: Bytes): Bytes {
    BigEndian(|body|) + body
  }

  datatype Popped = NeedMore | Frame(body: Bytes) | Oversized(len: nat)

  /** Takes the next complete frame off a buffer. */
  function Pop(buf: Bytes): (Popped, Bytes) {
    if |buf| < 4 then (NeedMore, buf)
    else
      var len := FromBigEndian(buf);
      if len > MAX_FRAME then (Oversized(len), buf)
      else if |buf| < 4 + len then (NeedMore, buf)
      else (Frame(buf[4..4 + len]), buf[4 + len..])
  }

  class FrameDecoder {
    var buf: Bytes

    constructor ()
      ensures buf == []
    {
      buf := [];
    }

    method Push(bytes: Bytes)
      modifies this
      ensures buf == old(buf) + bytes
    {
      buf := buf + bytes;
    }

    method NextFrame() returns (r: Popped)
      modifies this
      ensures (r, buf) == Pop(old(buf))
    {
      if |buf| < 4 { return NeedMore; }
      var len := FromBigEndian(buf);
      if len > MAX_FRAME { return Oversized(len); }
      if |buf| < 4 + len { return NeedMore; }
      var rest := buf[4 + len..];
      var frame := buf[..4 + len][4..];
      assert frame == buf[4..4 + len];
      buf := rest;
      r := Frame(frame);
    }
  }

  lemma PrefixIsLength(body: Bytes, more: Bytes)
    ensures FromBigEndian(Framed(body) + more) == |body| % TWO_TO_THE_32
  {
    PrefixWraps(|body|);
    assert (Framed(body) + more)[..4] == BigEndian(|body|);
  }

  /** A body comes back from its frame exactly when it is within the limit. */
  lemma FrameComesBack(body: Bytes, more: Bytes)
    ensures Pop(Framed(body) + more) == (Frame(body), more) <==> |body| <= MAX_FRAME
  {
    PrefixIsLength(body, more);
    if |body| <= MAX_FRAME {
      var buf := Framed(body) + more;
      assert buf[4..4 + |body|] == body && buf[4 + |body|..] == more;
    }
  }

  /** Less than a whole frame gives nothing and keeps everything. */
  lemma PartialFrameWaits(body: Bytes, buf: Bytes)
    requires |body| <= MAX_FRAME && buf <= Framed(body) && |buf| < |Framed(body)|
    ensures Pop(buf) == (NeedMore, buf)
  {
    PrefixWraps(|body|);
    if |buf| >= 4 {
      assert buf[..4] == Framed(body)[..4] == BigEndian(|body|);
      assert FromBigEndian(buf) == FromBigEndian(BigEndian(|body|));
    }
  }

  /** An oversized header is reported for ever and consumes nothing, however
      many bytes follow. */
  lemma OversizedSticks(buf: Bytes, more: Bytes)
    requires Pop(buf).0.Oversized?
    ensures Pop(buf) == (Pop(buf).0, buf)
    ensures Pop(buf + more) == (Pop(buf).0, buf + more)
  {
    assert (buf + more)[..4] == buf[..4];
  }

  // ------------------------------------------------------------------------
  // Reassembly

  /** The bytes of a list of frames. */
  function Wire(bodies: seq<Bytes>): Bytes {
    if bodies == [] then [] else Framed(bodies[0]) + Wire(bodies[1..])
  }

  lemma {:induction false} WireConcat(a: seq<Bytes>, b: seq<Bytes>)
    ensures Wire(a + b) == Wire(a) + Wire(b)
  {
    if a == [] {
      assert a + b == b;
    } else {
      assert (a + b)[0] == a[0] && (a + b)[1..] == a[1..] + b;
      WireConcat(a[1..], b);
    }
  }

  /** What a reader does with its decoder; dropping a pending read does
      neither. */
  datatype Op = PushOp(chunk: Bytes) | PopOp

  datatype Reader = Reader(buf: Bytes, frames: seq<Bytes>, failed: bool)

  function Act(r: Reader, op: Op): Reader {
    match op
    case PushOp(chunk) => r.(buf := r.buf + chunk)
    case PopOp =>
      match Pop(r.buf)
      case (NeedMore, _) => r
      case (Frame(body), rest) => r.(buf := rest, frames := r.frames + [body])
      case (Oversized(_), _) => r.(failed := true)
  }

  function Acts(r: Reader, ops: seq<Op>): Reader {
    if ops == [] then r else Act(Acts(r, ops[..|ops| - 1]), ops[|ops| - 1])
  }

  function Received(ops: seq<Op>): Bytes {
    if ops == [] then []
    else Received(ops[..|ops| - 1]) + (if ops[|ops| - 1].PushOp? then ops[|ops| - 1].chunk else [])
  }

  ghost predicate WithinLimit(bodies: seq<Bytes>) {
    forall i :: 0 <= i < |bodies| ==> |bodies[i]| <= MAX_FRAME
  }

  /** The reader has the first `|frames|` bodies and, in its buffer, exactly
      the bytes after them. */
  ghost predicate InSync(r: Reader, bodies: seq<Bytes>, received: Bytes) {
    && !r.failed
    && |r.frames| <= |bodies| && r.frames == bodies[..|r.frames|]
    && Wire(r.frames) + r.buf == received
    && r.buf <= Wire(bodies[|r.frames|..])
  }

  /** Popping a buffer that holds the beginning of well-formed frames. */
  lemma PopInSync(buf: Bytes, bodies: seq<Bytes>)
    requires WithinLimit(bodies) && buf <= Wire(bodies)
    ensures if bodies != [] && |Framed(bodies[0])| <= |buf|
            then Pop(buf) == (Frame(bodies[0]), buf[|Framed(bodies[0])|..])
                 && buf == Framed(bodies[0]) + buf[|Framed(bodies[0])|..]
                 && buf[|Framed(bodies[0])|..] <= Wire(bodies[1..])
            else Pop(buf) == (NeedMore, buf)
  {
    if bodies != [] {
      var f := Framed(bodies[0]);
      if |f| <= |buf| {
        assert buf[..|f|] == f;
        assert buf == f + buf[|f|..];
        FrameComesBack(bodies[0], buf[|f|..]);
      } else {
        PartialFrameWaits(bodies[0], buf);
      }
    }
  }

  lemma WireOneMore(bodies: seq<Bytes>, body: Bytes)
    ensures Wire(bodies + [body]) == Wire(bodies) + Framed(body)
  {
    WireConcat(bodies, [body]);
    assert [body][1..] == [];
    assert Wire([body]) == Framed(body) + [];
  }

  lemma PopKeepsSync(r: Reader, bodies: seq<Bytes>, received: Bytes)
    requires WithinLimit(bodies) && InSync(r, bodies, received)
    ensures InSync(Act(r, PopOp), bodies, received)
  {
    var k := |r.frames|;
    PopInSync(r.buf, bodies[k..]);
    if k < |bodies| && |Framed(bodies[k])| <= |r.buf| {
      DeliverKeepsSync(r, bodies, received, r.buf[|Framed(bodies[k])|..]);
    }
  }

  /** Moving one whole frame from the buffer to the delivered ones. */
  lemma DeliverKeepsSync(r: Reader, bodies: seq<Bytes>, received: Bytes, rest: Bytes)
    requires InSync(r, bodies, received) && |r.frames| < |bodies|
    requires r.buf == Framed(bodies[|r.frames|]) + rest && rest <= Wire(bodies[|r.frames|..][1..])
    ensures InSync(r.(buf := rest, frames := r.frames + [bodies[|r.frames|]]), bodies, received)
  {
    var k := |r.frames|;
    assert bodies[..k] + [bodies[k]] == bodies[..k + 1];
    assert bodies[k..][1..] == bodies[k + 1..];
    WireOneMore(r.frames, bodies[k]);
    assert Wire(r.frames) + (Framed(bodies[k]) + rest) == Wire(r.frames) + Framed(bodies[k]) + rest;
  }

  lemma PartAfter(a: Bytes, b: Bytes, c: Bytes, received: Bytes)
    requires received == a + b && received <= a + c
    ensures b <= c
  {
    assert b == received[|a|..];
  }

  lemma PushKeepsSync(r: Reader, bodies: seq<Bytes>, received: Bytes, chunk: Bytes)
    requires InSync(r, bodies, received) && received + chunk <= Wire(bodies)
    ensures InSync(Act(r, PushOp(chunk)), bodies, received + chunk)
  {
    var k := |r.frames|;
    assert bodies == bodies[..k] + bodies[k..];
    WireConcat(bodies[..k], bodies[k..]);
    assert Wire(r.frames) + (r.buf + chunk) == received + chunk;
    PartAfter(Wire(r.frames), r.buf + chunk, Wire(bodies[k..]), received + chunk);
  }

  /** Under every chunking and every interleaving of reads and pops, the frames
      popped are a prefix of those sent, and the buffer is exactly what was
      received and not yet delivered. */
  lemma {:induction false} ReassemblyIsExact(bodies: seq<Bytes>, ops: seq<Op>)
    requires WithinLimit(bodies) && Received(ops) <= Wire(bodies)
    ensures InSync(Acts(Reader([], [], false), ops), bodies, Received(ops))
    decreases |ops|
  {
    if ops != [] {
      var init, last := ops[..|ops| - 1], ops[|ops| - 1];
      assert Received(init) <= Wire(bodies);
      ReassemblyIsExact(bodies, init);
      var r := Acts(Reader([], [], false), init);
      match last {
        case PushOp(chunk) => PushKeepsSync(r, bodies, Received(init), chunk);
        case PopOp => PopKeepsSync(r, bodies, Received(init));
      }
    }
  }

  /** When popping stops, every frame that arrived whole has been delivered. */
  lemma NothingIsHeldBack(r: Reader, bodies: seq<Bytes>, received: Bytes)
    requires WithinLimit(bodies) && InSync(r, bodies, received) && Pop(r.buf).0.NeedMore?
    requires |r.frames| < |bodies|
    ensures |received| < |Wire(bodies[..|r.frames| + 1])|
  {
    var k := |r.frames|;
    PopInSync(r.buf, bodies[k..]);
    assert bodies[..k] + [bodies[k]] == bodies[..k + 1];
    WireOneMore(bodies[..k], bodies[k]);
  }

  /** The messages sent on a stream. */
  function Bodies<M(!new)>(c: Codec<M>, ms: seq<M>): seq<Bytes> {
    seq(|ms|, i requires 0 <= i < |ms| => c.Encode(ms[i]))
  }

  /** A message that survives both the frame limit and the decompressor. */
  predicate Deliverable<M(!new)>(c: Codec<M>, m: M) {
    |c.Encode(m)| <= MAX_FRAME && (c.Compressed(m) ==> |c.ser(m)| <= MAX_FRAME)
  }

  /** One message through frame, stream and decoder: it arrives exactly when
      it is deliverable. */
  lemma MessageArrivesIff<M(!new)>(c: Codec<M>, m: M, more: Bytes)
    requires c.Lawful()
    ensures (&& Pop(Framed(c.Encode(m)) + more) == (Frame(c.Encode(m)), more)
             && c.Decode(c.Encode(m)) == Message(m))
       <==> Deliverable(c, m)
  {
    FrameComesBack(c.Encode(m), more);
    c.DecodeUndoesEncode(m);
  }

  // A codec that compresses, so that the two limits come apart: a message is
  // a run of zeros, sent as its length.

  datatype Zeros = Zeros(count: nat)

  function Spell(m: Zeros): (b: Bytes)
    ensures |b| == m.count
  {
    seq(m.count, _ => 0 as byte)
  }

  function Count(b: Bytes): Option<Zeros> {
    if b == Spell(Zeros(|b|)) then Some(Zeros(|b|)) else None
  }

  function Shorten(b: Bytes): Option<Bytes> {
    if Count(b).Some? && |b| < TWO_TO_THE_32 then Some(BigEndian(|b|)) else None
  }

  function Lengthen(z: Bytes): Option<Bytes> {
    if |z| == 4 && FromBigEndian(z) <= MAX_FRAME then Some(Spell(Zeros(FromBigEndian(z)))) else None
  }

  const RUN_LENGTHS: Codec<Zeros> := Codec(Spell, Count, Shorten, Lengthen)

  lemma LengthenUndoesShorten(b: Bytes)
    requires Shorten(b).Some?
    ensures Lengthen(Shorten(b).value) == if |b| <= MAX_FRAME then Some(b) else None
  {
    SmallPrefix(|b|);
    if |b| <= MAX_FRAME {
      assert Spell(Zeros(|b|)) == b;
    }
  }

  lemma SmallPrefix(n: nat)
    requires n < TWO_TO_THE_32
    ensures FromBigEndian(BigEndian(n)) == n
  {
    PrefixWraps(n);
  }

  lemma RunLengthsAreLawful()
    ensures RUN_LENGTHS.Lawful()
  {
    forall b, z | RUN_LENGTHS.comp(b) == Some(z)
      ensures RUN_LENGTHS.decomp(z) == if |b| <= MAX_FRAME then Some(b) else None
    {
      LengthenUndoesShorten(b);
    }
  }

  /** Beyond the limit a compressible message is framed, sent and received, and
      then refused by the receiver's decompressor; up to it, it arrives. */
  lemma CompressedArrivesIff(n: nat, more: Bytes)
    requires COMPRESS_MIN <= n < TWO_TO_THE_32
    ensures var (c, m) := (RUN_LENGTHS, Zeros(n));
            && c.Lawful() && c.Compressed(m)
            && Pop(Framed(c.Encode(m)) + more) == (Frame(c.Encode(m)), more)
            && c.Decode(c.Encode(m)) == if n <= MAX_FRAME then Message(m) else BadCompression
  {
    var m := Zeros(n);
    RunLengthsAreLawful();
    var body := RUN_LENGTHS.Encode(m);
    assert body == [ENC_ZSTD] + BigEndian(n);
    assert body[1..] == BigEndian(n);
    FrameComesBack(body, more);
    LengthenUndoesShorten(Spell(m));
  }

  /** Of every size: a run of zeros arrives exactly when its plain form is
      within the limit, compressed or not. */
  lemma CompressibleArrivesIff(n: nat, more: Bytes)
    ensures var (c, m) := (RUN_LENGTHS, Zeros(n));
            && c.Lawful()
            && (c.Compressed(m) <==> COMPRESS_MIN <= n < TWO_TO_THE_32)
            && ((&& Pop(Framed(c.Encode(m)) + more) == (Frame(c.Encode(m)), more)
                 && c.Decode(c.Encode(m)) == Message(m))
                <==> n <= MAX_FRAME)
  {
    var m := Zeros(n);
    RunLengthsAreLawful();
    MessageArrivesIff(RUN_LENGTHS, m, more);
    if COMPRESS_MIN <= n < TWO_TO_THE_32 {
      assert RUN_LENGTHS.Encode(m) == [ENC_ZSTD] + BigEndian(n);
    } else {
      assert RUN_LENGTHS.Encode(m) == [ENC_RAW] + Spell(m);
    }
  }

  /** The frames popped decode to a prefix of the messages sent. */
  lemma MessagesComeThrough<M(!new)>(c: Codec<M>, ms: seq<M>, ops: seq<Op>)
    requires c.Lawful()
    requires forall i :: 0 <= i < |ms| ==> Deliverable(c, ms[i])
    requires Received(ops) <= Wire(Bodies(c, ms))
    ensures var r := Acts(Reader([], [], false), ops);
            && !r.failed && |r.frames| <= |ms|
            && (forall i :: 0 <= i < |r.frames| ==> c.Decode(r.frames[i]) == Message(ms[i]))
            && Wire(Bodies(c, ms[..|r.frames|])) + r.buf == Received(ops)
  {
    var bodies := Bodies(c, ms);
    ReassemblyIsExact(bodies, ops);
    var r := Acts(Reader([], [], false), ops);
    assert r.frames == Bodies(c, ms[..|r.frames|]);
    forall i | 0 <= i < |r.frames|
      ensures c.Decode(r.frames[i]) == Message(ms[i])
    {
      c.DecodeUndoesEncode(ms[i]);
      assert r.frames[i] == bodies[i];
    }
  }

  /** Stdio messages carry at most 16 KiB, so with a serializer that adds
      little they are all deliverable. */
  lemma StdioIsDeliverable(c: Codec<ChannelMessage>, m: ChannelMessage)
    requires m.Stdin? || m.Stdout? || m.Stderr?
    requires |m.data| <= 16 * 1024 && |c.ser(m)| <= |m.data| + 1024
    ensures Deliverable(c, m)
  {
    c.EncodeIsNoLonger(m);
  }

  // ------------------------------------------------------------------------
  // Waiting for the next event

  /** What a read of the transport yields. */
  datatype Read = Chunk(bytes: Bytes) | Datagram(bytes: Bytes) | Lost

  /** What the caller gets; `Cancelled` when the pending read was dropped. */
  datatype Event = GotFrame(body: Bytes) | GotDatagram(bytes: Bytes) | Disconnected | Cancelled

  function Chunks(arrivals: seq<Read>): Bytes {
    if arrivals == [] then []
    else Chunks(arrivals[..|arrivals| - 1]) + (if arrivals[|arrivals| - 1].Chunk? then arrivals[|arrivals| - 1].bytes else [])
  }

  lemma ChunksOneMore(arrivals: seq<Read>, k: nat)
    requires k < |arrivals|
    ensures Chunks(arrivals[..k + 1])
            == Chunks(arrivals[..k]) + (if arrivals[k].Chunk? then arrivals[k].bytes else [])
  {
    assert arrivals[..k + 1][..k] == arrivals[..k];
  }

  /** Before each of the first `n` arrivals there is no whole frame in the
      buffer, nor too large a one. */
  predicate WantedAll(buf: Bytes, arrivals: seq<Read>, n: nat)
    requires n <= |arrivals|
  {
    n == 0 || (WantedAll(buf, arrivals, n - 1) && Pop(buf + Chunks(arrivals[..n - 1])).0.NeedMore?)
  }

  /** Most bytes the buffer ever holds. */
  const BUFFER_LIMIT: nat := MAX_FRAME + 3 + READ_LIMIT

  /** Waits for a frame or a datagram.  `arrivals` is what the transport yields
      until the caller drops the wait.  Every byte taken off the stream is in
      the returned frame or in the buffer, whether or not the wait was dropped,
      no more is read than it takes, and the buffer stays bounded on any input. */
  method Next(decoder: FrameDecoder, arrivals: seq<Read>) returns (ev: Event, used: nat)
    requires forall i :: 0 <= i < |arrivals| && arrivals[i].Chunk? ==> |arrivals[i].bytes| <= READ_LIMIT
    requires |decoder.buf| <= BUFFER_LIMIT
    modifies decoder
    ensures used <= |arrivals|
    ensures |decoder.buf| <= BUFFER_LIMIT
    ensures ev.GotFrame? ==> Pop(old(decoder.buf) + Chunks(arrivals[..used])) == (Frame(ev.body), decoder.buf)
    ensures !ev.GotFrame? ==> decoder.buf == old(decoder.buf) + Chunks(arrivals[..used])
    ensures ev.Cancelled? ==> used == |arrivals| && Pop(decoder.buf).0.NeedMore?
    ensures ev.GotDatagram? ==> 0 < used && arrivals[used - 1] == Datagram(ev.bytes)
    ensures ev.Disconnected? ==> Pop(decoder.buf).0.Oversized? || (0 < used && arrivals[used - 1].Lost?)
    ensures WantedAll(old(decoder.buf), arrivals, used)
  {
    used := 0;
    while true
      invariant used <= |arrivals|
      invariant decoder.buf == old(decoder.buf) + Chunks(arrivals[..used])
      invariant |decoder.buf| <= BUFFER_LIMIT
      invariant WantedAll(old(decoder.buf), arrivals, used)
      decreases |arrivals| - used
    {
      var popped := decoder.NextFrame();
      match popped {
        case Frame(body) => return GotFrame(body), used;
        case Oversized(_) => return Disconnected, used;
        case NeedMore =>
      }
      if used == |arrivals| { return Cancelled, used; }
      var read := arrivals[used];
      used := used + 1;
      ChunksOneMore(arrivals, used - 1);
      match read {
        case Chunk(bytes) => decoder.Push(bytes);
        case Datagram(bytes) => return GotDatagram(bytes), used;
        case Lost => return Disconnected, used;
      }
    }
  }
}
