/**
 CMPX wire framing: a ten-byte header (type, flags, stream id, length, big-endian)
 and the payload, with the reader's per-type caps, and the writer's batching.
 */
module MuxFrame {
  import opened Bytes
  import opened Incremental

  const FT_HELLO: Byte := 1
  const FT_OPEN: Byte := 2
  const FT_OPEN_ACK: Byte := 3
  const FT_DATA: Byte := 4
  const FT_WINDOW: Byte := 5
  const FT_CLOSE: Byte := 6
  const FT_PING: Byte := 7
  const FT_PONG: Byte := 8
  const FT_GOAWAY: Byte := 9

  const FLAG_COMPRESSED: Byte := 1
  const FLAG_FIN: Byte := 2

  const HEADER_SIZE: nat := 10
  const OUR_MAX_DATA: nat := 65536
  const MAX_BATCH_FRAMES: nat := 15

  datatype Frame = Frame(kind: Byte, flags: Byte, sid: nat, payload: Bytes)

  /** Largest payload the reader accepts for a frame type. */
  function Cap(kind: Byte): nat {
    if kind == FT_HELLO || kind == FT_OPEN then 8192
    else if kind == FT_WINDOW then 4
    else if kind == FT_CLOSE then 257
    else if kind == FT_PING || kind == FT_PONG then 64
    else if kind == FT_OPEN_ACK || kind == FT_GOAWAY then 8192
    else OUR_MAX_DATA
  }

  predicate FrameOk(f: Frame) {
    FT_HELLO <= f.kind <= FT_GOAWAY && f.sid < 0x1_0000_0000 && |f.payload| <= Cap(f.kind)
  }

  function Encode(f: Frame): Bytes {
    [f.kind, f.flags] + (ToBigEndian(f.sid, 4) + (ToBigEndian(|f.payload|, 4) + f.payload))
  }

  /** What the reader task makes of the bytes it has: an unknown type or an oversized
      frame ends the session. */
  function FrontFrame(b: Bytes): Front<Frame> {
    if |b| < HEADER_SIZE then More
    else if !(FT_HELLO <= b[0] <= FT_GOAWAY) then Reject
    else
      var len := FromBigEndian(b[6..10]);
      if len > Cap(b[0]) then Reject
      else if |b| < HEADER_SIZE + len then More
      else
        var f := Frame(b[0], b[1], FromBigEndian(b[2..6]), b[HEADER_SIZE..HEADER_SIZE + len]);
        Item(f, HEADER_SIZE + len)
  }

  function Reads(): Parser<Frame> { b => FrontFrame(b) }

  function Writes(): Frame -> Bytes { f => Encode(f) }

  function Sendable(): Frame -> bool { f => FrameOk(f) }

  lemma FrontExtends(b: Bytes, x: Bytes)
    requires !FrontFrame(b).More?
    ensures FrontFrame(b + x) == FrontFrame(b)
  {
    assert (b + x)[6..10] == b[6..10];
    assert (b + x)[2..6] == b[2..6];
    var len := FromBigEndian(b[6..10]);
    if |b| >= HEADER_SIZE + len {
      assert (b + x)[HEADER_SIZE..HEADER_SIZE + len] == b[HEADER_SIZE..HEADER_SIZE + len];
    }
  }

  lemma ReadsIsStable()
    ensures Stable(Reads()) && Reads()([]).More?
  {
    forall b: Bytes, x: Bytes | !Reads()(b).More? ensures Reads()(b + x) == Reads()(b) {
      FrontExtends(b, x);
    }
  }

  /** A frame within its cap is read back as it was written, whatever follows. */
  lemma EncodeDecodes(f: Frame, x: Bytes)
    requires FrameOk(f)
    ensures FrontFrame(Encode(f) + x) == Item(f, |Encode(f)|)
  {
    Pow256Values();
    BigEndianRoundTrip(f.sid, 4);
    BigEndianRoundTrip(|f.payload|, 4);
    var b := Encode(f) + x;
    assert b[2..6] == ToBigEndian(f.sid, 4);
    assert b[6..10] == ToBigEndian(|f.payload|, 4);
    assert b[HEADER_SIZE..HEADER_SIZE + |f.payload|] == f.payload;
  }

  /** Only encodings are read: what the reader takes off the front is the encoding of the
      frame it returns. */
  lemma ReadsOnlyEncodings(b: Bytes)
    requires FrontFrame(b).Item?
    ensures var (f, used) := (FrontFrame(b).value, FrontFrame(b).used);
            used <= |b| && b[..used] == Encode(f) && FrameOk(f)
  {
    Pow256Values();
    BytesRoundTrip(b[2..6]);
    BytesRoundTrip(b[6..10]);
    var (f, used) := (FrontFrame(b).value, FrontFrame(b).used);
    assert b[..used] == [b[0], b[1]] + (b[2..6] + (b[6..10] + b[10..used]));
  }

  /** The session ends for an unknown type or for a payload above the cap of its type, as
      soon as the header is there: 8 KiB for HELLO, OPEN, OPEN_ACK and GOAWAY, 64 KiB for
      DATA, 4 bytes for WINDOW, 257 for CLOSE, 64 for PING and PONG. */
  lemma RejectsIff(b: Bytes)
    ensures FrontFrame(b).Reject? <==>
              && |b| >= 10
              && var (kind, len) := (b[0], FromBigEndian(b[6..10]));
                 || kind < 1 || kind > 9
                 || (kind in {1, 2, 3, 9} && len > 8192)
                 || (kind == 4 && len > 65536)
                 || (kind == 5 && len > 4)
                 || (kind == 6 && len > 257)
                 || (kind in {7, 8} && len > 64)
  {
  }

  lemma WritesInvertsReads()
    ensures Inverts(Reads(), Writes(), Sendable())
  {
    forall f: Frame, x: Bytes | Sendable()(f) ensures Reads()(Writes()(f) + x) == Item(f, |Writes()(f)|) {
      EncodeDecodes(f, x);
    }
  }

  /** One batch of the writer task: the frame it woke up for plus whatever else is
      queued, at most sixteen in all, as one contiguous write. */
  method WriteBatch(queue: seq<Bytes>) returns (batch: Bytes, taken: nat)
    requires queue != []
    ensures taken == if |queue| <= 16 then |queue| else 16
    ensures batch == Concat(queue[..taken])
  {
    batch, taken := queue[0], 1;
    assert queue[..1] == [queue[0]];
    ConcatOne(queue[0]);
    if |queue| == 1 {
      return;
    }
    batch, taken := batch + queue[1], 2;
    Appended(queue, 1);
    while taken <= MAX_BATCH_FRAMES && taken < |queue|
      invariant 2 <= taken <= |queue| && taken <= MAX_BATCH_FRAMES + 1
      invariant batch == Concat(queue[..taken])
    {
      Appended(queue, taken);
      batch := batch + queue[taken];
      taken := taken + 1;
    }
  }

  lemma Appended(queue: seq<Bytes>, k: nat)
    requires k < |queue|
    ensures Concat(queue[..k + 1]) == Concat(queue[..k]) + queue[k]
  {
    assert queue[..k + 1] == queue[..k] + [queue[k]];
    ConcatAppend(queue[..k], [queue[k]]);
    ConcatOne(queue[k]);
  }
}
