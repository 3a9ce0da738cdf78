/**
 Two decisions of the transport, read off the bytes: what the first chunk is taken for,
 and which frames a stream takes.
 */
module TransportLaws {
  import opened Bytes
  import opened MuxFrame
  import opened Transport
  import opened TransportProofs

  /** A registered, live stream takes every frame in order: data and the end of the stream
      while its queue holds at most 128 items with them (the reader waits otherwise), and an
      abort if it holds fewer than 128. */
  lemma DispatchTakes(r: Receiver, f: Frame, accept: bool)
    requires r.Receiver? && r.registered && r.stage.Live?
    ensures f.kind == 4 ==>
              && (Room(r, f) <==> |r.queue| + (if f.payload == [] then 0 else 1) + (if IsFin(f) then 1 else 0) <= 128)
              && Dispatch(r, f, accept).Receiver? && r.queue <= Dispatch(r, f, accept).queue
              && QueueBytes(Dispatch(r, f, accept).queue) == QueueBytes(r.queue) + f.payload
              && (IsFin(f) ==> Eof in Dispatch(r, f, accept).queue)
    ensures f.kind == 6 ==>
              Dispatch(r, f, accept) == r.(queue := if |r.queue| < 128 then r.queue + [Abort] else r.queue)
  {
    EnqueuedBytes(r.queue, f);
    if f.kind == 4 && IsFin(f) {
      assert Eof in Enqueued(f);
    }
  }

  /** A stream that is not registered, or no longer pumped, takes nothing; unregistering
      does nothing else. */
  lemma OthersTakeNothing(par: Params, r: Receiver, f: Frame, accept: bool)
    requires r.Receiver?
    ensures !r.registered || !r.stage.Live? ==> Dispatch(r, f, accept) == r
    ensures RecvNext(par, r, Unregister) == r.(registered := false)
  {
  }

  /** What the inbound pump gives the app as long as it is there: a raw frame as it is, of a
      compressed one what it adds to the decoded bytes, and at the end what the decoder
      still holds. When a write fails the app has a part of this, and gets nothing more. */
  lemma PumpDelivers(par: Params, r: Receiver)
    requires r.Receiver? && r.stage.Live? && r.queue != [] && !PumpNext(par, r).stage.Stopped?
    requires r.queue[0].Data? ==> par.codec.plain(r.fed) <= par.codec.plain(r.fed + r.queue[0].wire)
    ensures PumpNext(par, r).Receiver?
    ensures var (d, t) := (r.queue[0], PumpNext(par, r));
            && (!r.attached ==> t.delivered == r.delivered)
            && (r.attached && d.Eof? ==>
                  t.delivered == r.delivered + if par.compression then par.codec.tail(r.fed) else [])
            && (r.attached && d.Data? && !d.compressed ==> t.delivered == r.delivered + d.wire)
            && (r.attached && d.Data? && d.compressed ==>
                  exists out :: t.delivered == r.delivered + out
                                && par.codec.plain(r.fed) + out == par.codec.plain(r.fed + d.wire))
    ensures forall k: nat :: RecvEnabled(par, r, PumpPart(k)) ==>
              var (t, u) := (PumpNext(par, r), RecvNext(par, r, PumpPart(k)));
              && u.Receiver? && !u.attached
              && u.delivered <= t.delivered && |u.delivered| == |r.delivered| + k
  {
    if r.queue[0].Data? {
      var out := Decoded(par, r, r.queue[0]);
      assert r.queue[0].compressed ==> par.codec.plain(r.fed) + out == par.codec.plain(r.fed + r.queue[0].wire);
    }
  }

  predicate SniffedAs(b: Bytes)
    requires |b| >= 4
  {
    || (b[0] == 31 && b[1] == 139)
    || (b[0] == 40 && b[1] == 181 && b[2] == 47 && b[3] == 253)
    || (b[0] == 80 && b[1] == 75 && b[2] == 3 && b[3] == 4)
    || (b[0] == 137 && b[1] == 80 && b[2] == 78 && b[3] == 71)
    || (b[0] == 255 && b[1] == 216 && b[2] == 255)
    || (b[0] == 55 && b[1] == 122 && b[2] == 188 && b[3] == 175)
    || (b[0] == 82 && b[1] == 97 && b[2] == 114 && b[3] == 33)
    || (b[0] == 37 && b[1] == 80 && b[2] == 68 && b[3] == 70)
    || (b[0] == 66 && b[1] == 90 && b[2] == 104)
    || (|b| >= 12 && b[4] == 102 && b[5] == 116 && b[6] == 121 && b[7] == 112)
  }

  lemma Prefixes(b: Bytes, p: Bytes)
    requires 2 <= |p| <= 4 <= |b|
    ensures p <= b <==> b[0] == p[0] && b[1] == p[1] && (|p| > 2 ==> b[2] == p[2]) && (|p| > 3 ==> b[3] == p[3])
  {
  }

  lemma SniffIs(b: Bytes)
    ensures LooksPrecompressed(b) <==> |b| >= 4 && SniffedAs(b)
  {
    if |b| >= 4 {
      Prefixes(b, [0x1f, 0x8b]);
      Prefixes(b, [0x28, 0xb5, 0x2f, 0xfd]);
      Prefixes(b, [0x50, 0x4b, 0x03, 0x04]);
      Prefixes(b, [0x89, 0x50, 0x4e, 0x47]);
      Prefixes(b, [0xff, 0xd8, 0xff]);
      Prefixes(b, [0x37, 0x7a, 0xbc, 0xaf]);
      Prefixes(b, [0x52, 0x61, 0x72, 0x21]);
      Prefixes(b, [0x25, 0x50, 0x44, 0x46]);
      Prefixes(b, [0x42, 0x5a, 0x68]);
      if |b| >= 12 {
        MediaMark(b);
      }
    }
  }

  lemma MediaMark(b: Bytes)
    requires |b| >= 12
    ensures b[4..8] == [0x66, 0x74, 0x79, 0x70] <==> b[4] == 102 && b[5] == 116 && b[6] == 121 && b[7] == 112
  {
    var m := b[4..8];
    assert m[0] == b[4] && m[1] == b[5] && m[2] == b[6] && m[3] == b[7];
  }

  /** The first chunk decides: content that starts like a gzip, zstd, zip, PNG, JPEG, 7z,
      RAR, PDF or bzip2 file, or has the mark of an ISO media file at offset 4, is sent raw
      and unflagged from then on; every other content of a compressing stream is
      compressed and flagged. */
  lemma SniffDecides(par: Params, s: Sender, n: nat)
    requires SendEnabled(s, ReadChunk(n)) && !s.sniffed && !s.bypassed && par.compression
    ensures var (t, b) := (SendNext(par, s, ReadChunk(n)).0, s.written[s.read..s.read + n]);
            && (t.bypassed <==> n >= 4 && SniffedAs(b))
            && (t.bypassed ==> t.left == b && !Flagged(par, t))
            && (!t.bypassed ==> Flagged(par, t))
  {
    var b := s.written[s.read..s.read + n];
    SniffIs(b);
    Bypassed(par, s, n, LooksPrecompressed(b));
  }

  lemma Bypassed(par: Params, s: Sender, n: nat, raw: bool)
    requires SendEnabled(s, ReadChunk(n)) && !s.sniffed && par.compression
    requires raw == LooksPrecompressed(s.written[s.read..s.read + n])
    ensures var t := SendNext(par, s, ReadChunk(n)).0;
            && t.bypassed == raw && Flagged(par, t) == !raw
            && (raw ==> t.left == s.written[s.read..s.read + n])
  {
  }
}
