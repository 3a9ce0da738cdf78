/**
 One direction of one stream from the writing app to the reading app: outbound pump
 (sniffing, compression, framing), the frames on their way, the reader's dispatch,
 the inbound queue and the inbound pump (decompression, delivery).

 A compression codec is a pair of functions on the whole history of its stream:
 `comp(chunks)` is everything the compressor has emitted after flushing each chunk,
 `plain(bytes)` everything the decompressor has emitted for these bytes, and
 `tail(bytes)` what it still holds back at the end.
 */
module Transport {
  import opened Bytes
  import opened MuxFrame
  import opened Windows

  const INBOUND_QUEUE: nat := 128
  const MAX_EXPANSION: nat := 32 * 1024 * 1024

  datatype Codec = Codec(comp: seq<Bytes> -> Bytes, plain: Bytes -> Bytes, tail: Bytes -> Bytes)

  /** Output only ever extends, and decoding flushed chunks returns the chunks. */
  ghost predicate Lawful(c: Codec) {
    && c.comp([]) == []
    && (forall h: seq<Bytes>, x: Bytes :: c.comp(h) <= c.comp(h + [x]))
    && (forall a: Bytes, b: Bytes :: a <= b ==> c.plain(a) <= c.plain(b))
    && (forall h: seq<Bytes> :: c.plain(c.comp(h)) == Concat(h) && c.tail(c.comp(h)) == [])
  }

  /** `compression` says whether an algorithm other than none was negotiated. */
  datatype Params = Params(sid: nat, compression: bool, maxData: nat, codec: Codec)

  ghost predicate ParamsOk(par: Params) {
    par.sid < 0x1_0000_0000 && 1024 <= par.maxData <= OUR_MAX_DATA && Lawful(par.codec)
  }

  predicate StartsWith(b: Bytes, p: Bytes) { p <= b }

  /** The first-chunk sniff for content that is compressed already. */
  predicate LooksPrecompressed(b: Bytes) {
    && |b| >= 4
    && (|| StartsWith(b, [0x1f, 0x8b])
        || StartsWith(b, [0x28, 0xb5, 0x2f, 0xfd])
        || StartsWith(b, [0x50, 0x4b, 0x03, 0x04])
        || StartsWith(b, [0x89, 0x50, 0x4e, 0x47])
        || StartsWith(b, [0xff, 0xd8, 0xff])
        || StartsWith(b, [0x37, 0x7a, 0xbc, 0xaf])
        || StartsWith(b, [0x52, 0x61, 0x72, 0x21])
        || StartsWith(b, [0x25, 0x50, 0x44, 0x46])
        || StartsWith(b, [0x42, 0x5a, 0x68])
        || (|b| >= 12 && b[4..8] == [0x66, 0x74, 0x79, 0x70]))
  }

  function Drop(b: Bytes, n: nat): Bytes { if n <= |b| then b[n..] else [] }

  datatype Over = Running | FinSent | Aborted

  /** What the app wrote and how much of it the pump has read, in which chunks;
      `left` are wire bytes of the current chunk not yet framed. */
  datatype Sender = Sender(
    written: Bytes,
    shut: bool,
    read: nat,
    chunks: seq<Bytes>,
    sniffed: bool,
    bypassed: bool,
    left: Bytes,
    over: Over)

  datatype Inbound = Data(wire: Bytes, compressed: bool) | Eof | Abort

  datatype Stage = Live | SawEof | Stopped

  /** `fed` went into the decompressor, `plain` is everything decoded, `delivered`
      what the app got; `attached` until a write to the app fails. `quit` records that
      this end has asked for an abort and is read by no step. */
  datatype Receiver =
    | Unopened
    | Refused
    | Receiver(
        registered: bool,
        queue: seq<Inbound>,
        fed: Bytes,
        plain: Bytes,
        delivered: Bytes,
        attached: bool,
        stage: Stage,
        quit: bool)

  /** `pipe` are this stream's frames between the pump and the receiving reader. */
  datatype Stream = Stream(s: Sender, pipe: seq<Frame>, r: Receiver)

  datatype SendAct = Write(data: Bytes) | Shut | ReadChunk(n: nat) | SendPiece | SendFin | SendAbort

  datatype RecvAct = Pump | PumpPart(k: nat) | Unregister | LocalAbort

  datatype Act = Send(sa: SendAct) | Arrive(accept: bool) | Recv(ra: RecvAct)

  predicate Flagged(par: Params, s: Sender) { par.compression && !s.bypassed }

  predicate IsFin(f: Frame) { f.kind == FT_DATA && (f.flags / 2) % 2 == 1 }

  function NewSender(): Sender { Sender([], false, 0, [], false, false, [], Running) }

  /** A registered stream that has received nothing yet. */
  function Listening(): Receiver { Receiver(true, [], [], [], [], true, Live, false) }

  function OpenFrame(par: Params, body: Bytes): Frame { Frame(FT_OPEN, 0, par.sid, body) }

  predicate SendEnabled(s: Sender, a: SendAct) {
    match a
    case Write(_) => !s.shut
    case Shut => true
    case ReadChunk(n) => s.over.Running? && s.left == [] && 1 <= n <= DUPLEX_BUF && s.read + n <= |s.written|
    case SendPiece => s.over.Running? && s.left != []
    case SendFin => s.over.Running? && s.left == [] && s.shut && s.read == |s.written|
    case SendAbort => s.over.Running?
  }

  /** The sender after one step, and the frames the step hands to the writer. */
  function SendNext(par: Params, s: Sender, a: SendAct): (Sender, seq<Frame>)
    requires SendEnabled(s, a)
  {
    match a
    case Write(data) => (s.(written := s.written + data), [])
    case Shut => (s.(shut := true), [])
    case ReadChunk(n) =>
      var chunk := s.written[s.read..s.read + n];
      var bypassed := if s.sniffed then s.bypassed else par.compression && LooksPrecompressed(chunk);
      var wire :=
        if par.compression && !bypassed
        then Drop(par.codec.comp(s.chunks + [chunk]), |par.codec.comp(s.chunks)|)
        else chunk;
      (s.(read := s.read + n, chunks := s.chunks + [chunk], sniffed := true, bypassed := bypassed, left := wire), [])
    case SendPiece =>
      var take := if |s.left| <= par.maxData then |s.left| else par.maxData;
      var flags := if Flagged(par, s) then FLAG_COMPRESSED else 0;
      (s.(left := s.left[take..]), [Frame(FT_DATA, flags, par.sid, s.left[..take])])
    case SendFin => (s.(over := FinSent), [Frame(FT_DATA, FLAG_FIN, par.sid, [])])
    case SendAbort => (s.(over := Aborted), [Frame(FT_CLOSE, 0, par.sid, [])])
  }

  /** What the frame adds to the inbound queue of a live stream. */
  function Enqueued(f: Frame): seq<Inbound> {
    if f.kind == FT_DATA then
      (if f.payload != [] then [Data(f.payload, f.flags % 2 == 1)] else []) +
      (if IsFin(f) then [Eof] else [])
    else []
  }

  /** The reader parks while the bounded queue of a live stream is full. */
  predicate Room(r: Receiver, f: Frame) {
    r.Receiver? && r.registered && r.stage.Live? ==> |r.queue| + |Enqueued(f)| <= INBOUND_QUEUE
  }

  /** The reader's dispatch of one frame of this stream. */
  function Dispatch(r: Receiver, f: Frame, accept: bool): Receiver {
    match r
    case Unopened =>
      if f.kind != FT_OPEN then Unopened
      else if accept then Listening()
      else Refused
    case Refused => Refused
    case Receiver(registered, queue, _, _, _, _, stage, _) =>
      if !registered || !stage.Live? then r
      else if f.kind == FT_CLOSE then
        if |queue| < INBOUND_QUEUE then r.(queue := queue + [Abort]) else r
      else r.(queue := queue + Enqueued(f))
  }

  /** What the inbound pump decodes from a queued frame. */
  function Decoded(par: Params, r: Receiver, d: Inbound): Bytes
    requires r.Receiver? && d.Data?
  {
    if d.compressed then Drop(par.codec.plain(r.fed + d.wire), |par.codec.plain(r.fed)|) else d.wire
  }

  predicate RecvEnabled(par: Params, r: Receiver, a: RecvAct) {
    && r.Receiver?
    && match a
       case Pump => r.stage.Live? && r.queue != []
       case PumpPart(k) =>
         && r.stage.Live? && r.queue != [] && r.queue[0].Data? && r.attached
         && k <= |Decoded(par, r, r.queue[0])| <= MAX_EXPANSION
       case Unregister => true
       case LocalAbort => r.stage.Live?
  }

  /** The inbound pump takes one queued item. */
  function PumpNext(par: Params, r: Receiver): Receiver
    requires r.Receiver? && r.stage.Live? && r.queue != []
  {
    var rest := r.queue[1..];
    match r.queue[0]
    case Data(wire, compressed) =>
      var out := Decoded(par, r, r.queue[0]);
      var fed := if compressed then r.fed + wire else r.fed;
      if compressed && |out| > MAX_EXPANSION then r.(queue := rest, stage := Stopped)
      else r.(queue := rest, fed := fed, plain := r.plain + out,
              delivered := if r.attached then r.delivered + out else r.delivered)
    case Eof =>
      var tail := if par.compression then par.codec.tail(r.fed) else [];
      r.(queue := rest, plain := r.plain + tail, stage := SawEof,
         delivered := if r.attached then r.delivered + tail else r.delivered)
    case Abort => r.(queue := rest, stage := Stopped)
  }

  function RecvNext(par: Params, r: Receiver, a: RecvAct): Receiver
    requires RecvEnabled(par, r, a)
  {
    match a
    case Pump => PumpNext(par, r)
    case PumpPart(k) =>
      var out := Decoded(par, r, r.queue[0]);
      var got := r.delivered + out[..k];
      PumpNext(par, r.(attached := false)).(delivered := got)
    case Unregister => r.(registered := false)
    case LocalAbort =>
      r.(queue := if |r.queue| < INBOUND_QUEUE then r.queue + [Abort] else r.queue, quit := true)
  }

  predicate Enabled(par: Params, st: Stream, a: Act) {
    match a
    case Send(sa) => SendEnabled(st.s, sa)
    case Arrive(_) => st.pipe != [] && Room(st.r, st.pipe[0])
    case Recv(ra) => RecvEnabled(par, st.r, ra)
  }

  function Next(par: Params, st: Stream, a: Act): Stream
    requires Enabled(par, st, a)
  {
    match a
    case Send(sa) =>
      var (s, out) := SendNext(par, st.s, sa);
      st.(s := s, pipe := st.pipe + out)
    case Arrive(accept) => st.(pipe := st.pipe[1..], r := Dispatch(st.r, st.pipe[0], accept))
    case Recv(ra) => st.(r := RecvNext(par, st.r, ra))
  }

  /** The direction from the end that opens the stream. */
  function Start(par: Params, body: Bytes): Stream {
    Stream(NewSender(), [OpenFrame(par, body)], Unopened)
  }

  /** The direction back to it: its receiver is registered before the OPEN leaves. */
  function StartBack(): Stream { Stream(NewSender(), [], Listening()) }
}
