/**
 Why a stream ends: the inbound pump stops only for an abort that one of the two ends
 asked for. In particular no frame of a sender ever decodes to more than one chunk, so
 the cap on decompressed output is never what stops it; and a FIN that was sent is
 always still under way or queued until it is seen.
 */
module TransportReasons {
  import opened Bytes
  import opened MuxFrame
  import opened Transport
  import opened TransportProofs

  /** The wire bytes from `off` on belong to one chunk. */
  ghost predicate OneChunk(par: Params, chunks: seq<Bytes>, off: nat, len: nat) {
    exists j :: 0 <= j < |chunks| && Within(par, chunks, j, off, len)
  }

  predicate Within(par: Params, chunks: seq<Bytes>, j: nat, off: nat, len: nat)
    requires j < |chunks|
  {
    |par.codec.comp(chunks[..j])| <= off && off + len <= |par.codec.comp(chunks[..j + 1])|
  }

  /** No item of a queue whose bytes start at `off` spans two chunks. */
  ghost predicate QueueCut(par: Params, chunks: seq<Bytes>, q: seq<Inbound>, off: nat)
    decreases |q|
  {
    q == [] ||
    if q[0].Data? then OneChunk(par, chunks, off, |q[0].wire|) && QueueCut(par, chunks, q[1..], off + |q[0].wire|)
    else QueueCut(par, chunks, q[1..], off)
  }

  function FrameBytes(f: Frame): Bytes { if f.kind == FT_DATA then f.payload else [] }

  ghost predicate FrameCut(par: Params, chunks: seq<Bytes>, f: Frame, off: nat) {
    FrameBytes(f) != [] ==> OneChunk(par, chunks, off, |FrameBytes(f)|)
  }

  /** No frame of a pipe whose bytes start at `off` spans two chunks. */
  ghost predicate PipeCut(par: Params, chunks: seq<Bytes>, p: seq<Frame>, off: nat)
    decreases |p|
  {
    p == [] || (FrameCut(par, chunks, p[0], off) && PipeCut(par, chunks, p[1..], off + |FrameBytes(p[0])|))
  }

  lemma OneChunkGrows(par: Params, chunks: seq<Bytes>, x: Bytes, off: nat, len: nat)
    requires OneChunk(par, chunks, off, len)
    ensures OneChunk(par, chunks + [x], off, len)
  {
    var j :| 0 <= j < |chunks| && Within(par, chunks, j, off, len);
    assert (chunks + [x])[..j] == chunks[..j] && (chunks + [x])[..j + 1] == chunks[..j + 1];
    assert Within(par, chunks + [x], j, off, len);
  }

  lemma {:induction false} QueueCutGrows(par: Params, chunks: seq<Bytes>, x: Bytes, q: seq<Inbound>, off: nat)
    requires QueueCut(par, chunks, q, off)
    ensures QueueCut(par, chunks + [x], q, off)
    decreases |q|
  {
    if q != [] {
      if q[0].Data? {
        OneChunkGrows(par, chunks, x, off, |q[0].wire|);
        QueueCutGrows(par, chunks, x, q[1..], off + |q[0].wire|);
      } else {
        QueueCutGrows(par, chunks, x, q[1..], off);
      }
    }
  }

  lemma {:induction false} PipeCutGrows(par: Params, chunks: seq<Bytes>, x: Bytes, p: seq<Frame>, off: nat)
    requires PipeCut(par, chunks, p, off)
    ensures PipeCut(par, chunks + [x], p, off)
    decreases |p|
  {
    if p != [] {
      if FrameBytes(p[0]) != [] {
        OneChunkGrows(par, chunks, x, off, |FrameBytes(p[0])|);
      }
      PipeCutGrows(par, chunks, x, p[1..], off + |FrameBytes(p[0])|);
    }
  }

  lemma {:induction false} PipeCutSnoc(par: Params, chunks: seq<Bytes>, p: seq<Frame>, f: Frame, off: nat)
    requires PipeCut(par, chunks, p, off) && FrameCut(par, chunks, f, off + |PipeBytes(p)|)
    ensures PipeCut(par, chunks, p + [f], off)
    decreases |p|
  {
    if p == [] {
      assert (p + [f])[1..] == [];
    } else {
      assert (p + [f])[1..] == p[1..] + [f];
      assert |PipeBytes(p)| == |FrameBytes(p[0])| + |PipeBytes(p[1..])|;
      PipeCutSnoc(par, chunks, p[1..], f, off + |FrameBytes(p[0])|);
    }
  }

  lemma {:induction false} QueueCutAppend(par: Params, chunks: seq<Bytes>, q: seq<Inbound>, e: seq<Inbound>, off: nat)
    requires QueueCut(par, chunks, q, off) && QueueCut(par, chunks, e, off + |QueueBytes(q)|)
    ensures QueueCut(par, chunks, q + e, off)
    decreases |q|
  {
    if q == [] {
      assert q + e == e;
    } else {
      assert (q + e)[1..] == q[1..] + e;
      if q[0].Data? {
        QueueCutAppend(par, chunks, q[1..], e, off + |q[0].wire|);
      } else {
        QueueCutAppend(par, chunks, q[1..], e, off);
      }
    }
  }

  lemma EnqueuedCut(par: Params, chunks: seq<Bytes>, f: Frame, off: nat)
    requires FrameCut(par, chunks, f, off)
    ensures QueueCut(par, chunks, Enqueued(f), off)
  {
    var e := Enqueued(f);
    if e != [] {
      assert e[1..] == [] || e[1..][1..] == [];
      assert QueueCut(par, chunks, e[1..], off + |FrameBytes(f)|);
    }
  }

  lemma {:induction false} CompGrows(par: Params, chunks: seq<Bytes>, j: nat)
    requires ParamsOk(par) && j <= |chunks|
    ensures par.codec.comp(chunks[..j]) <= par.codec.comp(chunks)
    decreases |chunks| - j
  {
    if j == |chunks| {
      assert chunks[..j] == chunks;
    } else {
      assert chunks[..j + 1] == chunks[..j] + [chunks[j]];
      LawsAt(par, chunks[..j], chunks[j]);
      CompGrows(par, chunks, j + 1);
    }
  }

  /** Two prefixes of one string. */
  lemma ShorterIsPrefix(x: Bytes, y: Bytes, whole: Bytes)
    requires x <= whole && y <= whole && |x| <= |y|
    ensures x <= y
  {
  }

  lemma PlainGrows(par: Params, a: Bytes, b: Bytes)
    requires ParamsOk(par) && a <= b
    ensures par.codec.plain(a) <= par.codec.plain(b)
  {
  }

  /** Bytes between two marks decode to the chunk between them, at most. */
  lemma BetweenMarks(par: Params, lo: seq<Bytes>, x: Bytes, fed: Bytes, all: Bytes)
    requires ParamsOk(par) && par.codec.comp(lo) <= fed && all <= par.codec.comp(lo + [x])
    ensures |par.codec.plain(all)| <= |par.codec.plain(fed)| + |x|
  {
    PlainGrows(par, par.codec.comp(lo), fed);
    PlainGrows(par, all, par.codec.comp(lo + [x]));
    LawsAt(par, lo, []);
    LawsAt(par, lo + [x], []);
    ConcatAppend(lo, [x]);
    ConcatOne(x);
  }

  /** What one frame decodes to is part of one chunk. */
  lemma SmallDecode(par: Params, chunks: seq<Bytes>, fed: Bytes, wire: Bytes)
    requires ParamsOk(par) && fed + wire <= par.codec.comp(chunks) && OneChunk(par, chunks, |fed|, |wire|)
    requires forall j :: 0 <= j < |chunks| ==> |chunks[j]| <= 65536
    ensures |par.codec.plain(fed + wire)| <= |par.codec.plain(fed)| + 65536
  {
    var j :| 0 <= j < |chunks| && Within(par, chunks, j, |fed|, |wire|);
    CompGrows(par, chunks, j);
    CompGrows(par, chunks, j + 1);
    var whole := par.codec.comp(chunks);
    assert fed <= whole;
    ShorterIsPrefix(par.codec.comp(chunks[..j]), fed, whole);
    ShorterIsPrefix(fed + wire, par.codec.comp(chunks[..j + 1]), whole);
    assert chunks[..j + 1] == chunks[..j] + [chunks[j]];
    BetweenMarks(par, chunks[..j], chunks[j], fed, fed + wire);
  }

  predicate HasFin(p: seq<Frame>) { exists i :: 0 <= i < |p| && IsFin(p[i]) }

  /** Chunks are reads of at most 64 KiB, and what is left to frame is of the last one. */
  predicate ChunksOk(par: Params, s: Sender) {
    && (forall j :: 0 <= j < |s.chunks| ==> |s.chunks[j]| <= 65536)
    && (Flagged(par, s) && s.left != [] ==>
          s.chunks != [] && |par.codec.comp(s.chunks[..|s.chunks| - 1])| + |s.left| <= |par.codec.comp(s.chunks)|)
  }

  predicate ClosesOk(st: Stream) {
    forall i :: 0 <= i < |st.pipe| && st.pipe[i].kind == FT_CLOSE ==> st.s.over.Aborted?
  }

  /** One of the two ends has asked for an abort. */
  predicate Asked(st: Stream)
    requires st.r.Receiver?
  {
    st.s.over.Aborted? || st.r.quit
  }

  predicate AbortsOk(st: Stream) {
    st.r.Receiver? && (st.r.stage.Stopped? || Abort in st.r.queue) ==> Asked(st)
  }

  /** The receiver takes, or will take, the frames that are on their way. */
  predicate Listens(r: Receiver) { r.Unopened? || (r.Receiver? && r.stage.Live? && r.registered) }

  /** Where the bytes on their way start. */
  function Offset(r: Receiver): nat { if r.Receiver? then |r.fed| + |QueueBytes(r.queue)| else 0 }

  ghost predicate PipeOkCut(par: Params, st: Stream) {
    Flagged(par, st.s) && Listens(st.r) ==> PipeCut(par, st.s.chunks, st.pipe, Offset(st.r))
  }

  ghost predicate QueueOkCut(par: Params, st: Stream) {
    Flagged(par, st.s) && st.r.Receiver? && st.r.stage.Live? ==> QueueCut(par, st.s.chunks, st.r.queue, |st.r.fed|)
  }

  predicate FinOk(st: Stream) {
    st.s.over.FinSent? && Listens(st.r) ==> (st.r.Receiver? && Eof in st.r.queue) || HasFin(st.pipe)
  }

  ghost predicate Why(par: Params, st: Stream) {
    ChunksOk(par, st.s) && ClosesOk(st) && AbortsOk(st) && PipeOkCut(par, st) && QueueOkCut(par, st) && FinOk(st)
  }

  lemma StartWhy(par: Params, body: Bytes)
    ensures Why(par, Start(par, body)) && Why(par, StartBack())
  {
    var st := Start(par, body);
    assert st.pipe[1..] == [];
  }

  // The sender's steps

  lemma ReadChunkFlag(par: Params, s: Sender, n: nat)
    requires SenderOk(par, s) && SendEnabled(s, ReadChunk(n))
    ensures var t := SendNext(par, s, ReadChunk(n)).0;
            && (Flagged(par, t) ==> Flagged(par, s))
            && t.chunks == s.chunks + [s.written[s.read..s.read + n]]
  {
  }

  lemma ReadChunkKeepsCuts(par: Params, st: Stream, n: nat)
    requires Inv(par, st) && Why(par, st) && SendEnabled(st.s, ReadChunk(n))
    ensures var t := st.(s := SendNext(par, st.s, ReadChunk(n)).0);
            PipeOkCut(par, t) && QueueOkCut(par, t)
  {
    var t := st.(s := SendNext(par, st.s, ReadChunk(n)).0);
    var x := st.s.written[st.s.read..st.s.read + n];
    ReadChunkFlag(par, st.s, n);
    if Flagged(par, t.s) {
      if Listens(st.r) {
        PipeCutGrows(par, st.s.chunks, x, st.pipe, Offset(st.r));
      }
      if st.r.Receiver? && st.r.stage.Live? {
        QueueCutGrows(par, st.s.chunks, x, st.r.queue, |st.r.fed|);
      }
    }
  }

  lemma ReadChunkKeepsChunks(par: Params, s: Sender, n: nat)
    requires ChunksOk(par, s) && SendEnabled(s, ReadChunk(n))
    requires par.codec.comp(s.chunks) <= par.codec.comp(s.chunks + [s.written[s.read..s.read + n]])
    ensures ChunksOk(par, SendNext(par, s, ReadChunk(n)).0)
  {
    var t := SendNext(par, s, ReadChunk(n)).0;
    assert t.chunks[..|t.chunks| - 1] == s.chunks;
  }

  lemma ReadChunkWhy(par: Params, st: Stream, n: nat)
    requires Inv(par, st) && Why(par, st) && SendEnabled(st.s, ReadChunk(n))
    requires par.codec.comp(st.s.chunks) <= par.codec.comp(st.s.chunks + [st.s.written[st.s.read..st.s.read + n]])
    ensures Why(par, st.(s := SendNext(par, st.s, ReadChunk(n)).0))
  {
    ReadChunkKeepsChunks(par, st.s, n);
    ReadChunkKeepsCuts(par, st, n);
    OnlySenderChanged(par, st, SendNext(par, st.s, ReadChunk(n)).0);
  }

  lemma ReadChunkKeepsWhy(par: Params, st: Stream, n: nat)
    requires ParamsOk(par) && Inv(par, st) && Why(par, st) && SendEnabled(st.s, ReadChunk(n))
    ensures Why(par, Next(par, st, Send(ReadChunk(n))))
  {
    LawsAt(par, st.s.chunks, st.s.written[st.s.read..st.s.read + n]);
    ReadChunkWhy(par, st, n);
    NextIsSender(par, st, n);
  }

  lemma NextIsSender(par: Params, st: Stream, n: nat)
    requires SendEnabled(st.s, ReadChunk(n))
    ensures Next(par, st, Send(ReadChunk(n))) == st.(s := SendNext(par, st.s, ReadChunk(n)).0)
  {
    assert st.pipe + [] == st.pipe;
  }

  lemma OnlySenderChanged(par: Params, st: Stream, s: Sender)
    requires Why(par, st) && s.over == st.s.over && ChunksOk(par, s)
    requires PipeOkCut(par, st.(s := s)) && QueueOkCut(par, st.(s := s))
    ensures Why(par, st.(s := s))
  {
  }

  /** The bytes taken, under way and unsent make up what was produced. */
  lemma WireLength(par: Params, st: Stream)
    requires Inv(par, st) && Flagged(par, st.s) && Listens(st.r)
    ensures Offset(st.r) + |PipeBytes(st.pipe)| + |st.s.left| == |par.codec.comp(st.s.chunks)|
  {
  }

  lemma PieceCut(par: Params, s: Sender, off: nat)
    requires ChunksOk(par, s) && SendEnabled(s, SendPiece) && Flagged(par, s) && par.maxData > 0
    requires off + |s.left| == |par.codec.comp(s.chunks)|
    ensures FrameCut(par, s.chunks, SendNext(par, s, SendPiece).1[0], off)
  {
    var n := |s.chunks|;
    assert s.chunks[..n] == s.chunks;
    assert Within(par, s.chunks, n - 1, off, |SendNext(par, s, SendPiece).1[0].payload|);
  }

  /** One more frame behind those on their way. */
  lemma SnocKeepsWhy(par: Params, st: Stream, s: Sender, f: Frame)
    requires Why(par, st) && ChunksOk(par, s) && s.chunks == st.s.chunks && Flagged(par, s) == Flagged(par, st.s)
    requires Flagged(par, st.s) && Listens(st.r) ==>
               FrameCut(par, s.chunks, f, Offset(st.r) + |PipeBytes(st.pipe)|)
    requires st.s.over.Running? && (f.kind == FT_CLOSE ==> s.over.Aborted?) && (s.over.FinSent? ==> IsFin(f))
    ensures Why(par, st.(s := s, pipe := st.pipe + [f]))
  {
    var t := st.(s := s, pipe := st.pipe + [f]);
    if Flagged(par, st.s) && Listens(st.r) {
      PipeCutSnoc(par, s.chunks, st.pipe, f, Offset(st.r));
    }
    assert t.pipe[|st.pipe|] == f;
    assert ClosesOk(t);
    assert AbortsOk(t);
  }

  lemma SendPieceKeepsWhy(par: Params, st: Stream)
    requires ParamsOk(par) && Inv(par, st) && Why(par, st) && SendEnabled(st.s, SendPiece)
    ensures Why(par, Next(par, st, Send(SendPiece)))
  {
    var (s, out) := SendNext(par, st.s, SendPiece);
    if Flagged(par, st.s) && Listens(st.r) {
      WireLength(par, st);
      PieceCut(par, st.s, Offset(st.r) + |PipeBytes(st.pipe)|);
    }
    SnocKeepsWhy(par, st, s, out[0]);
    assert Next(par, st, Send(SendPiece)) == st.(s := s, pipe := st.pipe + [out[0]]);
  }

  lemma LastFrameKeepsWhy(par: Params, st: Stream, a: SendAct)
    requires Why(par, st) && SendEnabled(st.s, a) && (a.SendFin? || a.SendAbort?)
    ensures Why(par, Next(par, st, Send(a)))
  {
    var (s, out) := SendNext(par, st.s, a);
    SnocKeepsWhy(par, st, s, out[0]);
    assert Next(par, st, Send(a)) == st.(s := s, pipe := st.pipe + [out[0]]);
  }

  // The receiver's steps

  /** Items join the queue, and frames leave the pipe. */
  lemma EnqueueKeepsCuts(par: Params, st: Stream, e: seq<Inbound>, p: seq<Frame>, r: Receiver)
    requires Why(par, st) && st.r.Receiver? && st.r.stage.Live? && r.Receiver? && r.fed == st.r.fed
    requires r.queue == st.r.queue + e
    requires Flagged(par, st.s) ==> QueueCut(par, st.s.chunks, e, Offset(st.r))
    requires Flagged(par, st.s) && Listens(r) ==> PipeCut(par, st.s.chunks, p, Offset(st.r) + |QueueBytes(e)|)
    ensures PipeOkCut(par, st.(pipe := p, r := r)) && QueueOkCut(par, st.(pipe := p, r := r))
  {
    QueueBytesAppend(st.r.queue, e);
    if Flagged(par, st.s) {
      QueueCutAppend(par, st.s.chunks, st.r.queue, e, |st.r.fed|);
    }
  }

  lemma AbortIsCut(par: Params, chunks: seq<Bytes>, off: nat)
    ensures QueueCut(par, chunks, [Abort], off) && QueueBytes([Abort]) == []
  {
    assert [Abort][1..] == [];
  }

  lemma EnqueuedLength(f: Frame)
    ensures QueueBytes(Enqueued(f)) == FrameBytes(f)
  {
    EnqueuedBytes([], f);
    assert [] + Enqueued(f) == Enqueued(f);
  }

  lemma CloseKeepsCuts(par: Params, st: Stream, r: Receiver)
    requires Why(par, st) && st.r.Receiver? && Listens(st.r) && st.pipe != [] && st.pipe[0].kind == FT_CLOSE
    requires r.Receiver? && r.fed == st.r.fed && (r.queue == st.r.queue || r.queue == st.r.queue + [Abort])
    ensures PipeOkCut(par, st.(pipe := st.pipe[1..], r := r)) && QueueOkCut(par, st.(pipe := st.pipe[1..], r := r))
  {
    AbortIsCut(par, st.s.chunks, Offset(st.r));
    assert st.r.queue + [] == st.r.queue;
    EnqueueKeepsCuts(par, st, if r.queue == st.r.queue then [] else [Abort], st.pipe[1..], r);
  }

  lemma DataKeepsCuts(par: Params, st: Stream, r: Receiver)
    requires Why(par, st) && st.r.Receiver? && Listens(st.r) && st.pipe != []
    requires r.Receiver? && r.fed == st.r.fed && r.queue == st.r.queue + Enqueued(st.pipe[0])
    ensures PipeOkCut(par, st.(pipe := st.pipe[1..], r := r)) && QueueOkCut(par, st.(pipe := st.pipe[1..], r := r))
  {
    var f := st.pipe[0];
    EnqueuedLength(f);
    if Flagged(par, st.s) {
      EnqueuedCut(par, st.s.chunks, f, Offset(st.r));
    }
    EnqueueKeepsCuts(par, st, Enqueued(f), st.pipe[1..], r);
  }

  lemma ArriveKeepsCuts(par: Params, st: Stream, accept: bool)
    requires Inv(par, st) && Why(par, st) && Enabled(par, st, Arrive(accept))
    ensures PipeOkCut(par, Next(par, st, Arrive(accept))) && QueueOkCut(par, Next(par, st, Arrive(accept)))
  {
    var r := Dispatch(st.r, st.pipe[0], accept);
    if st.r.Receiver? && Listens(st.r) {
      if st.pipe[0].kind == FT_CLOSE {
        CloseKeepsCuts(par, st, r);
      } else {
        DataKeepsCuts(par, st, r);
      }
    }
  }

  lemma ArriveKeepsFin(par: Params, st: Stream, accept: bool)
    requires Inv(par, st) && FinOk(st) && Enabled(par, st, Arrive(accept))
    ensures FinOk(Next(par, st, Arrive(accept)))
  {
    var t := Next(par, st, Arrive(accept));
    if st.s.over.FinSent? && Listens(t.r) && HasFin(st.pipe) {
      var i :| 0 <= i < |st.pipe| && IsFin(st.pipe[i]);
      if i > 0 {
        assert t.pipe[i - 1] == st.pipe[i];
      } else if st.r.Receiver? {
        assert Eof in Enqueued(st.pipe[0]);
      }
    }
  }

  lemma ArriveKeepsAborts(par: Params, st: Stream, accept: bool)
    requires ClosesOk(st) && AbortsOk(st) && Enabled(par, st, Arrive(accept))
    ensures AbortsOk(Next(par, st, Arrive(accept))) && ClosesOk(Next(par, st, Arrive(accept)))
  {
    var t := Next(par, st, Arrive(accept));
    assert forall i :: 0 <= i < |t.pipe| ==> t.pipe[i] == st.pipe[i + 1];
    assert Abort !in Enqueued(st.pipe[0]);
  }

  lemma ArriveKeepsWhy(par: Params, st: Stream, accept: bool)
    requires Inv(par, st) && Why(par, st) && Enabled(par, st, Arrive(accept))
    ensures Why(par, Next(par, st, Arrive(accept)))
  {
    ArriveKeepsCuts(par, st, accept);
    ArriveKeepsFin(par, st, accept);
    ArriveKeepsAborts(par, st, accept);
  }

  /** When the inbound pump stops, read off its queue: at an abort, or at a compressed
      frame that decodes to more than 32 MiB; at nothing else. Otherwise it takes the head
      of the queue, and what a frame decodes to goes to the app while that is there. */
  lemma PumpStopsIff(par: Params, r: Receiver)
    requires r.Receiver? && r.stage.Live? && r.queue != []
    requires r.queue[0].Data? ==> par.codec.plain(r.fed) <= par.codec.plain(r.fed + r.queue[0].wire)
    ensures PumpNext(par, r).Receiver?
    ensures PumpNext(par, r).stage.Stopped? <==>
              || r.queue[0].Abort?
              || (r.queue[0].Data? && r.queue[0].compressed
                  && |par.codec.plain(r.fed + r.queue[0].wire)| > |par.codec.plain(r.fed)| + 33554432)
    ensures PumpNext(par, r).stage.SawEof? <==> r.queue[0].Eof?
    ensures var t := PumpNext(par, r);
            t.queue == r.queue[1..] && t.attached == r.attached && t.registered == r.registered && t.quit == r.quit
  {
  }

  lemma FirstOfQueue(par: Params, st: Stream)
    requires Inv(par, st) && Flagged(par, st.s)
    requires st.r.Receiver? && st.r.stage.Live? && st.r.queue != [] && st.r.queue[0].Data?
    ensures st.r.fed + st.r.queue[0].wire <= par.codec.comp(st.s.chunks)
  {
    var q := QueueBytes(st.r.queue);
    assert q == st.r.queue[0].wire + QueueBytes(st.r.queue[1..]);
    assert st.r.fed + st.r.queue[0].wire <= st.r.fed + q;
  }

  /** A frame at the head of the queue never stops the pump. */
  lemma DataNeverStops(par: Params, st: Stream)
    requires ParamsOk(par) && Inv(par, st) && Why(par, st)
    requires st.r.Receiver? && st.r.stage.Live? && st.r.queue != [] && st.r.queue[0].Data?
    ensures PumpNext(par, st.r).stage.Live?
    ensures st.r.queue[0].compressed <==> Flagged(par, st.s)
    ensures PumpNext(par, st.r).fed == if Flagged(par, st.s) then st.r.fed + st.r.queue[0].wire else st.r.fed
  {
    var d := st.r.queue[0];
    DecoderGrows(par, st.r.fed, d.wire);
    if Flagged(par, st.s) {
      FirstOfQueue(par, st);
      SmallDecode(par, st.s.chunks, st.r.fed, d.wire);
    }
    PumpStopsIff(par, st.r);
  }

  lemma RestOfQueue(q: seq<Inbound>)
    requires q != []
    ensures |QueueBytes(q)| == (if q[0].Data? then |q[0].wire| else 0) + |QueueBytes(q[1..])|
    ensures forall x :: x in q[1..] ==> x in q
    ensures Eof in q && !q[0].Eof? ==> Eof in q[1..]
  {
    if Eof in q && !q[0].Eof? {
      var i :| 0 <= i < |q| && q[i] == Eof;
      assert q[1..][i - 1] == Eof;
    }
  }

  lemma PumpKeepsCuts(par: Params, st: Stream, r: Receiver)
    requires Why(par, st) && st.r.Receiver? && st.r.stage.Live? && st.r.queue != []
    requires r.Receiver? && r.queue == st.r.queue[1..] && r.registered == st.r.registered
    requires var d := st.r.queue[0]; r.fed == if d.Data? && Flagged(par, st.s) then st.r.fed + d.wire else st.r.fed
    ensures PipeOkCut(par, st.(r := r)) && QueueOkCut(par, st.(r := r))
  {
    RestOfQueue(st.r.queue);
  }

  /** The pump takes the head of the queue; what the app got and whether it is still
      there do not matter. */
  lemma PumpKeepsWhy(par: Params, st: Stream, r: Receiver)
    requires ParamsOk(par) && Inv(par, st) && Why(par, st) && st.r.Receiver? && st.r.stage.Live? && st.r.queue != []
    requires r.Receiver? && PumpNext(par, st.r).Receiver?
    requires r == PumpNext(par, st.r).(delivered := r.delivered, attached := r.attached)
    ensures Why(par, st.(r := r))
  {
    RestOfQueue(st.r.queue);
    if st.r.queue[0].Data? {
      DataNeverStops(par, st);
    }
    PumpKeepsCuts(par, st, r);
    PumpKeepsEnds(st, r);
  }

  lemma PumpKeepsEnds(st: Stream, r: Receiver)
    requires AbortsOk(st) && ClosesOk(st) && FinOk(st) && st.r.Receiver? && st.r.stage.Live? && st.r.queue != []
    requires r.Receiver? && r.queue == st.r.queue[1..] && r.registered == st.r.registered && r.quit == st.r.quit
    requires r.stage.Stopped? ==> st.r.queue[0].Abort?
    requires st.r.queue[0].Eof? ==> !r.stage.Live?
    ensures AbortsOk(st.(r := r)) && ClosesOk(st.(r := r)) && FinOk(st.(r := r))
  {
    RestOfQueue(st.r.queue);
    assert st.r.queue[0] in st.r.queue;
  }

  lemma PumpPartKeepsWhy(par: Params, st: Stream, k: nat)
    requires ParamsOk(par) && Inv(par, st) && Why(par, st) && RecvEnabled(par, st.r, PumpPart(k))
    ensures Why(par, Next(par, st, Recv(PumpPart(k))))
  {
    PumpKeepsWhy(par, st, RecvNext(par, st.r, PumpPart(k)));
  }

  lemma LocalAbortKeepsWhy(par: Params, st: Stream)
    requires Why(par, st) && RecvEnabled(par, st.r, LocalAbort)
    ensures Why(par, Next(par, st, Recv(LocalAbort)))
  {
    var t := Next(par, st, Recv(LocalAbort));
    var e := if |st.r.queue| < INBOUND_QUEUE then [Abort] else [];
    AbortIsCut(par, st.s.chunks, Offset(st.r));
    assert st.r.queue + [] == st.r.queue;
    EnqueueKeepsCuts(par, st, e, st.pipe, t.r);
  }

  lemma RecvKeepsWhy(par: Params, st: Stream, a: RecvAct)
    requires ParamsOk(par) && Inv(par, st) && Why(par, st) && RecvEnabled(par, st.r, a)
    ensures Why(par, Next(par, st, Recv(a)))
  {
    match a {
      case Pump => PumpKeepsWhy(par, st, PumpNext(par, st.r));
      case PumpPart(k) => PumpPartKeepsWhy(par, st, k);
      case Unregister =>
      case LocalAbort => LocalAbortKeepsWhy(par, st);
    }
  }

  lemma AppActKeepsWhy(par: Params, st: Stream, a: SendAct)
    requires Why(par, st) && SendEnabled(st.s, a) && (a.Write? || a.Shut?)
    ensures Why(par, Next(par, st, Send(a)))
  {
    assert st.pipe + [] == st.pipe;
  }

  /** Every step of either end keeps it. */
  lemma StepKeepsWhy(par: Params, st: Stream, a: Act)
    requires ParamsOk(par) && Inv(par, st) && Why(par, st) && Enabled(par, st, a)
    ensures Why(par, Next(par, st, a))
  {
    match a {
      case Send(sa) => SendKeepsWhy(par, st, sa);
      case Arrive(accept) => ArriveKeepsWhy(par, st, accept);
      case Recv(ra) => RecvKeepsWhy(par, st, ra);
    }
  }

  lemma SendKeepsWhy(par: Params, st: Stream, a: SendAct)
    requires ParamsOk(par) && Inv(par, st) && Why(par, st) && SendEnabled(st.s, a)
    ensures Why(par, Next(par, st, Send(a)))
  {
    match a {
      case ReadChunk(n) => ReadChunkKeepsWhy(par, st, n);
      case SendPiece => SendPieceKeepsWhy(par, st);
      case SendFin => LastFrameKeepsWhy(par, st, a);
      case SendAbort => LastFrameKeepsWhy(par, st, a);
      case _ => AppActKeepsWhy(par, st, a);
    }
  }
}
