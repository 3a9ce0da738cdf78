/**
 End-to-end refinement of one stream: what the reading app has is always a prefix
 of what the writing app wrote, and all of it once the FIN was processed.
 */
module TransportProofs {
  import opened Bytes
  import opened MuxFrame
  import opened Transport

  function QueueBytes(q: seq<Inbound>): Bytes {
    if q == [] then [] else (if q[0].Data? then q[0].wire else []) + QueueBytes(q[1..])
  }

  function PipeBytes(p: seq<Frame>): Bytes {
    if p == [] then [] else (if p[0].kind == FT_DATA then p[0].payload else []) + PipeBytes(p[1..])
  }

  lemma {:induction false} QueueBytesAppend(a: seq<Inbound>, b: seq<Inbound>)
    ensures QueueBytes(a + b) == QueueBytes(a) + QueueBytes(b)
  {
    if a == [] {
      assert a + b == b;
    } else {
      assert (a + b)[1..] == a[1..] + b;
      QueueBytesAppend(a[1..], b);
    }
  }

  lemma {:induction false} PipeBytesAppend(a: seq<Frame>, b: seq<Frame>)
    ensures PipeBytes(a + b) == PipeBytes(a) + PipeBytes(b)
  {
    if a == [] {
      assert a + b == b;
    } else {
      assert (a + b)[1..] == a[1..] + b;
      PipeBytesAppend(a[1..], b);
    }
  }

  /** Every wire byte the sender has produced for this stream. */
  function Wire(par: Params, s: Sender): Bytes {
    if Flagged(par, s) then par.codec.comp(s.chunks) else Concat(s.chunks)
  }

  /** Every wire byte the inbound pump has taken. */
  function Seen(par: Params, s: Sender, r: Receiver): Bytes
    requires r.Receiver?
  {
    if Flagged(par, s) then r.fed else r.plain
  }

  predicate SenderOk(par: Params, s: Sender) {
    && s.read <= |s.written|
    && Concat(s.chunks) == s.written[..s.read]
    && (s.chunks != [] ==> s.sniffed)
    && (!s.sniffed ==> s.chunks == [] && !s.bypassed && s.left == [])
    && (s.over.FinSent? ==> s.left == [] && s.shut && s.read == |s.written|)
  }

  /** Frames carry the flag the sniff decided, and a FIN is the last frame. */
  predicate PipeOk(par: Params, s: Sender, p: seq<Frame>) {
    forall i :: 0 <= i < |p| && p[i].kind == FT_DATA ==>
      && (p[i].payload != [] ==> s.sniffed && (p[i].flags % 2 == 1 <==> Flagged(par, s)))
      && (IsFin(p[i]) ==> i == |p| - 1 && s.over.FinSent? && p[i].payload == [])
  }

  predicate QueueOk(par: Params, s: Sender, q: seq<Inbound>) {
    forall i :: 0 <= i < |q| && q[i].Data? ==> s.sniffed && (q[i].compressed <==> Flagged(par, s))
  }

  /** An end-of-stream marker in the queue means everything was sent and nothing
      follows it. */
  predicate EofOk(par: Params, st: Stream) {
    && st.r.Receiver?
    && (Eof in st.r.queue ==>
          && st.s.over.FinSent?
          && Seen(par, st.s, st.r) + QueueBytes(st.r.queue) == Wire(par, st.s))
    && (forall i, j :: 0 <= i < j < |st.r.queue| && st.r.queue[i].Eof? ==> st.r.queue[j].Abort?)
    && (Eof in st.r.queue && st.r.registered ==> forall i :: 0 <= i < |st.pipe| ==> st.pipe[i].kind != FT_DATA)
  }

  predicate ReceiverOk(par: Params, st: Stream) {
    var s, r := st.s, st.r;
    && r.Receiver?
    && (!Flagged(par, s) ==> r.fed == [])
    && (Flagged(par, s) ==> r.plain == par.codec.plain(r.fed))
    && r.delivered <= r.plain
    && (r.attached ==> r.delivered == r.plain)
    && Seen(par, s, r) <= Wire(par, s)
    && (r.stage.Live? ==>
          QueueOk(par, s, r.queue) && EofOk(par, st) &&
          Seen(par, s, r) + QueueBytes(r.queue) <= Wire(par, s))
    && (r.stage.Live? && r.registered ==>
          PipeOk(par, s, st.pipe) &&
          Seen(par, s, r) + QueueBytes(r.queue) + (PipeBytes(st.pipe) + s.left) == Wire(par, s))
    && (r.stage.SawEof? ==> s.over.FinSent? && Seen(par, s, r) == Wire(par, s))
  }

  predicate Inv(par: Params, st: Stream) {
    && SenderOk(par, st.s)
    && match st.r
       case Refused => true
       case Unopened =>
         && st.pipe != [] && st.pipe[0].kind == FT_OPEN
         && PipeOk(par, st.s, st.pipe)
         && PipeBytes(st.pipe) + st.s.left == Wire(par, st.s)
       case _ => ReceiverOk(par, st)
  }

  lemma StartInv(par: Params, body: Bytes)
    requires ParamsOk(par)
    ensures Inv(par, Start(par, body))
  {
    var st := Start(par, body);
    assert st.pipe[1..] == [];
    assert PipeBytes(st.pipe) == [];
    assert Concat([]) == [] && par.codec.comp([]) == [];
  }

  lemma StartBackInv(par: Params)
    requires ParamsOk(par)
    ensures Inv(par, StartBack())
  {
    NothingIsNothing(par);
    assert Concat([]) == [] && par.codec.comp([]) == [];
    assert PipeBytes([]) == [] && QueueBytes([]) == [];
  }

  lemma NothingIsNothing(par: Params)
    requires ParamsOk(par)
    ensures par.codec.plain([]) == [] && par.codec.tail([]) == []
  {
    assert par.codec.plain(par.codec.comp([])) == Concat([]);
  }

  lemma LawsAt(par: Params, h: seq<Bytes>, x: Bytes)
    requires ParamsOk(par)
    ensures par.codec.comp([]) == [] && par.codec.comp(h) <= par.codec.comp(h + [x])
    ensures par.codec.plain(par.codec.comp(h)) == Concat(h) && par.codec.tail(par.codec.comp(h)) == []
  {
  }

  /** Reading a chunk appends its wire bytes to what was produced. */
  lemma ChunkExtendsWire(par: Params, s: Sender, n: nat, chunk: Bytes)
    requires SenderOk(par, s) && SendEnabled(s, ReadChunk(n)) && chunk == s.written[s.read..s.read + n]
    requires par.codec.comp([]) == [] && par.codec.comp(s.chunks) <= par.codec.comp(s.chunks + [chunk])
    ensures var t := SendNext(par, s, ReadChunk(n)).0;
            && SenderOk(par, t)
            && Wire(par, t) == Wire(par, s) + t.left
            && (s.sniffed ==> Flagged(par, t) == Flagged(par, s))
            && (!s.sniffed ==> Wire(par, s) == [])
  {
    var t := SendNext(par, s, ReadChunk(n)).0;
    ChunksRead(s, n, chunk);
    if Flagged(par, t) {
      DropRejoins(par.codec.comp(s.chunks), par.codec.comp(s.chunks + [chunk]));
    }
    assert !s.sniffed ==> s.chunks == [] && Concat(s.chunks) == [];
  }

  lemma ChunksRead(s: Sender, n: nat, chunk: Bytes)
    requires s.read + n <= |s.written| && chunk == s.written[s.read..s.read + n]
    ensures Concat(s.chunks + [chunk]) == Concat(s.chunks) + chunk
    ensures s.written[..s.read] + chunk == s.written[..s.read + n]
  {
    ConcatAppend(s.chunks, [chunk]);
    ConcatOne(chunk);
  }

  lemma DropRejoins(x: Bytes, y: Bytes)
    requires x <= y
    ensures x + Drop(y, |x|) == y
  {
  }

  /** The sender read a chunk: only what it produced and still holds has grown. */
  lemma GrownSenderKeepsInv(par: Params, st: Stream, s: Sender)
    requires Inv(par, st) && SenderOk(par, s) && st.s.over.Running? && s.over.Running?
    requires st.s.left == [] && Wire(par, s) == Wire(par, st.s) + s.left && s.sniffed
    requires st.s.sniffed ==> Flagged(par, s) == Flagged(par, st.s)
    requires !st.s.sniffed ==> Wire(par, st.s) == []
    requires par.codec.plain([]) == []
    ensures Inv(par, st.(s := s))
  {
    var t := st.(s := s);
    var w := Wire(par, st.s);
    assert PipeBytes(st.pipe) + st.s.left == PipeBytes(st.pipe);
    if st.r.Receiver? {
      var seen := Seen(par, st.s, st.r);
      assert Seen(par, s, st.r) == seen;
      var before := seen + QueueBytes(st.r.queue);
      assert before + (PipeBytes(st.pipe) + s.left) == (before + PipeBytes(st.pipe)) + s.left;
      assert seen <= w + s.left;
      assert before <= w ==> before <= w + s.left;
    }
  }

  lemma ReadChunkKeepsInv(par: Params, st: Stream, n: nat)
    requires ParamsOk(par) && Inv(par, st) && SendEnabled(st.s, ReadChunk(n))
    ensures Inv(par, Next(par, st, Send(ReadChunk(n))))
  {
    var chunk := st.s.written[st.s.read..st.s.read + n];
    LawsAt(par, st.s.chunks, chunk);
    ChunkExtendsWire(par, st.s, n, chunk);
    NothingIsNothing(par);
    var t := SendNext(par, st.s, ReadChunk(n)).0;
    GrownSenderKeepsInv(par, st, t);
    assert st.pipe + [] == st.pipe;
    assert Next(par, st, Send(ReadChunk(n))) == st.(s := t);
  }

  lemma PipeBytesSnoc(p: seq<Frame>, f: Frame)
    ensures PipeBytes(p + [f]) == PipeBytes(p) + if f.kind == FT_DATA then f.payload else []
  {
    PipeBytesAppend(p, [f]);
    assert [f][1..] == [];
    assert PipeBytes([f]) == (if f.kind == FT_DATA then f.payload else []) + [];
  }

  lemma CutMoves(x: Bytes, left: Bytes, take: nat)
    requires take <= |left|
    ensures x + left[..take] + left[take..] == x + left
  {
  }

  lemma PieceMovesBytes(par: Params, s: Sender, pipe: seq<Frame>)
    requires SendEnabled(s, SendPiece) && par.maxData > 0
    ensures var (t, out) := SendNext(par, s, SendPiece);
            && PipeBytes(pipe + out) + t.left == PipeBytes(pipe) + s.left
            && |out| == 1
  {
    var (t, out) := SendNext(par, s, SendPiece);
    PipeBytesSnoc(pipe, out[0]);
    CutMoves(PipeBytes(pipe), s.left, |out[0].payload|);
  }

  lemma SendPieceKeepsInv(par: Params, st: Stream)
    requires par.maxData > 0 && Inv(par, st) && SendEnabled(st.s, SendPiece)
    ensures Inv(par, Next(par, st, Send(SendPiece)))
  {
    var t := Next(par, st, Send(SendPiece));
    PieceMovesBytes(par, st.s, st.pipe);
    assert Wire(par, t.s) == Wire(par, st.s);
    if st.r.Receiver? {
      assert Seen(par, t.s, t.r) == Seen(par, st.s, st.r);
    }
  }

  lemma LastFrameAddsNothing(par: Params, st: Stream, a: SendAct)
    requires SendEnabled(st.s, a) && (a.SendFin? || a.SendAbort?)
    ensures PipeBytes(Next(par, st, Send(a)).pipe) == PipeBytes(st.pipe)
  {
    var f := SendNext(par, st.s, a).1[0];
    PipeBytesSnoc(st.pipe, f);
    assert PipeBytes(st.pipe) + [] == PipeBytes(st.pipe);
  }

  lemma FinKeepsInv(par: Params, st: Stream)
    requires ParamsOk(par) && Inv(par, st) && SendEnabled(st.s, SendFin)
    ensures Inv(par, Next(par, st, Send(SendFin)))
  {
    var t := Next(par, st, Send(SendFin));
    LastFrameAddsNothing(par, st, SendFin);
    assert PipeOk(par, st.s, st.pipe) ==> PipeOk(par, t.s, t.pipe);
  }

  lemma AbortKeepsInv(par: Params, st: Stream)
    requires ParamsOk(par) && Inv(par, st) && SendEnabled(st.s, SendAbort)
    ensures Inv(par, Next(par, st, Send(SendAbort)))
  {
    var t := Next(par, st, Send(SendAbort));
    LastFrameAddsNothing(par, st, SendAbort);
    assert PipeOk(par, st.s, st.pipe) ==> PipeOk(par, t.s, t.pipe);
  }

  lemma AppActKeepsInv(par: Params, st: Stream, a: SendAct)
    requires ParamsOk(par) && Inv(par, st) && SendEnabled(st.s, a) && (a.Write? || a.Shut?)
    ensures Inv(par, Next(par, st, Send(a)))
  {
    var t := Next(par, st, Send(a));
    assert st.pipe + [] == st.pipe;
    assert t.s.written[..t.s.read] == st.s.written[..st.s.read];
  }

  lemma OpenKeepsInv(par: Params, st: Stream, accept: bool)
    requires Inv(par, st) && st.r.Unopened? && par.codec.plain([]) == []
    ensures Inv(par, Next(par, st, Arrive(accept)))
  {
    var t := Next(par, st, Arrive(accept));
    assert PipeBytes(st.pipe) == PipeBytes(t.pipe);
    if accept {
      assert QueueBytes(t.r.queue) == [];
      assert Seen(par, t.s, t.r) == [];
      assert [] + [] + (PipeBytes(t.pipe) + t.s.left) == PipeBytes(t.pipe) + t.s.left;
    }
  }

  lemma EnqueuedBytes(q: seq<Inbound>, f: Frame)
    ensures QueueBytes(q + Enqueued(f)) == QueueBytes(q) + (if f.kind == FT_DATA then f.payload else [])
  {
    var e := Enqueued(f);
    QueueBytesAppend(q, e);
    if f.kind == FT_DATA {
      if f.payload != [] && IsFin(f) {
        assert e[1..] == [Eof] && e[1..][1..] == [];
        assert QueueBytes(e[1..]) == [];
      } else if e != [] {
        assert e[1..] == [];
      }
    }
  }

  lemma ArrivedBytes(par: Params, st: Stream, t: Stream)
    requires ReceiverOk(par, st) && st.r.registered && st.r.stage.Live? && st.pipe != []
    requires t == st.(pipe := st.pipe[1..], r := st.r.(queue := st.r.queue + Enqueued(st.pipe[0])))
    ensures Seen(par, t.s, t.r) + QueueBytes(t.r.queue) + (PipeBytes(t.pipe) + t.s.left) == Wire(par, t.s)
    ensures Seen(par, t.s, t.r) + QueueBytes(t.r.queue) <= Wire(par, t.s)
  {
    var f := st.pipe[0];
    EnqueuedBytes(st.r.queue, f);
    var d := if f.kind == FT_DATA then f.payload else [];
    var seen, q, p, left := Seen(par, st.s, st.r), QueueBytes(st.r.queue), PipeBytes(t.pipe), st.s.left;
    assert PipeBytes(st.pipe) == d + p;
    MoveIn(seen, q, d, p, left);
  }

  lemma MoveIn(seen: Bytes, q: Bytes, d: Bytes, p: Bytes, left: Bytes)
    ensures seen + q + ((d + p) + left) == (seen + (q + d)) + (p + left)
  {
  }

  /** A FIN arrives after everything else. */
  lemma FinArrivesLast(par: Params, st: Stream)
    requires ReceiverOk(par, st) && st.r.registered && st.r.stage.Live? && st.pipe != []
    requires SenderOk(par, st.s) && IsFin(st.pipe[0])
    ensures st.pipe[1..] == [] && st.s.left == [] && st.s.over.FinSent? && st.pipe[0].payload == []
  {
    assert PipeOk(par, st.s, st.pipe);
  }

  /** No data is under way behind an end-of-stream marker. */
  lemma NoDataBehindEof(par: Params, st: Stream)
    requires ReceiverOk(par, st) && st.r.registered && st.r.stage.Live? && st.pipe != [] && st.pipe[0].kind == FT_DATA
    ensures Eof !in st.r.queue
  {
    assert EofOk(par, st);
  }

  lemma NoEofIsOk(par: Params, st: Stream)
    requires st.r.Receiver? && Eof !in st.r.queue
    ensures EofOk(par, st)
  {
  }

  lemma EofLastIsOk(par: Params, st: Stream, q: seq<Inbound>)
    requires st.r.Receiver? && st.r.queue == q + [Eof] && Eof !in q && st.pipe == [] && st.s.over.FinSent?
    requires Seen(par, st.s, st.r) + QueueBytes(st.r.queue) == Wire(par, st.s)
    ensures EofOk(par, st)
  {
  }

  /** A frame that adds nothing to the queue keeps the order in it. */
  lemma EofOkBehind(par: Params, st: Stream)
    requires EofOk(par, st) && st.pipe != []
    ensures EofOk(par, st.(pipe := st.pipe[1..]))
  {
    var t := st.(pipe := st.pipe[1..]);
    assert Seen(par, t.s, t.r) == Seen(par, st.s, st.r);
    assert forall i :: 0 <= i < |t.pipe| ==> t.pipe[i] == st.pipe[i + 1];
  }

  lemma WhatIsEnqueued(f: Frame)
    ensures f.kind != FT_DATA ==> Enqueued(f) == []
    ensures f.kind == FT_DATA && !IsFin(f) ==> Eof !in Enqueued(f)
    ensures IsFin(f) && f.payload == [] ==> Enqueued(f) == [Eof]
  {
  }

  lemma ArrivedOrder(par: Params, st: Stream, t: Stream)
    requires ReceiverOk(par, st) && st.r.registered && st.r.stage.Live? && st.pipe != []
    requires SenderOk(par, st.s)
    requires t == st.(pipe := st.pipe[1..], r := st.r.(queue := st.r.queue + Enqueued(st.pipe[0])))
    requires Seen(par, t.s, t.r) + QueueBytes(t.r.queue) + (PipeBytes(t.pipe) + t.s.left) == Wire(par, t.s)
    ensures EofOk(par, t)
  {
    var f, q := st.pipe[0], st.r.queue;
    WhatIsEnqueued(f);
    if f.kind != FT_DATA {
      assert q + [] == q;
      EofOkBehind(par, st);
    } else {
      NoDataBehindEof(par, st);
      if IsFin(f) {
        FinArrivesLast(par, st);
        NothingLeft(Seen(par, t.s, t.r) + QueueBytes(t.r.queue), PipeBytes(t.pipe), t.s.left);
        EofLastIsOk(par, t, q);
      } else {
        NoEofIsOk(par, t);
      }
    }
  }

  lemma NothingLeft(x: Bytes, y: Bytes, z: Bytes)
    requires y == z == []
    ensures x + (y + z) == x
  {
  }

  lemma ArrivedFlags(par: Params, st: Stream, t: Stream)
    requires ReceiverOk(par, st) && st.r.registered && st.r.stage.Live? && st.pipe != []
    requires t == st.(pipe := st.pipe[1..], r := st.r.(queue := st.r.queue + Enqueued(st.pipe[0])))
    ensures PipeOk(par, t.s, t.pipe) && QueueOk(par, t.s, t.r.queue)
  {
    forall i | 0 <= i < |t.pipe| && t.pipe[i].kind == FT_DATA
      ensures t.pipe[i].payload != [] ==> t.s.sniffed && (t.pipe[i].flags % 2 == 1 <==> Flagged(par, t.s))
      ensures IsFin(t.pipe[i]) ==> i == |t.pipe| - 1 && t.s.over.FinSent? && t.pipe[i].payload == []
    {
      assert t.pipe[i] == st.pipe[i + 1];
    }
  }

  lemma DataArrivalKeepsInv(par: Params, st: Stream, accept: bool)
    requires Inv(par, st) && Enabled(par, st, Arrive(accept))
    requires st.r.Receiver? && st.r.registered && st.r.stage.Live? && st.pipe[0].kind != FT_CLOSE
    ensures Inv(par, Next(par, st, Arrive(accept)))
  {
    var t := Next(par, st, Arrive(accept));
    assert t == st.(pipe := st.pipe[1..], r := st.r.(queue := st.r.queue + Enqueued(st.pipe[0])));
    ArrivedBytes(par, st, t);
    ArrivedOrder(par, st, t);
    ArrivedFlags(par, st, t);
    assert ReceiverOk(par, t);
  }

  /** An abort marker may join the queue at any time. */
  lemma AbortJoins(par: Params, st: Stream)
    requires Inv(par, st) && st.r.Receiver? && st.r.stage.Live?
    ensures Inv(par, st.(r := st.r.(queue := st.r.queue + [Abort])))
  {
    var t := st.(r := st.r.(queue := st.r.queue + [Abort]));
    QueueBytesAppend(st.r.queue, [Abort]);
    assert [Abort][1..] == [];
    assert QueueBytes(t.r.queue) == QueueBytes(st.r.queue);
    assert Seen(par, t.s, t.r) == Seen(par, st.s, st.r);
    assert EofOk(par, t);
  }

  lemma DropNonData(par: Params, st: Stream)
    requires Inv(par, st) && st.r.Receiver? && st.pipe != [] && st.pipe[0].kind != FT_DATA
    ensures Inv(par, st.(pipe := st.pipe[1..]))
  {
    var t := st.(pipe := st.pipe[1..]);
    assert PipeBytes(st.pipe) == PipeBytes(t.pipe);
    assert Seen(par, t.s, t.r) == Seen(par, st.s, st.r);
  }

  lemma CloseArrivalKeepsInv(par: Params, st: Stream, accept: bool)
    requires Inv(par, st) && Enabled(par, st, Arrive(accept))
    requires st.r.Receiver? && st.r.registered && st.r.stage.Live? && st.pipe[0].kind == FT_CLOSE
    ensures Inv(par, Next(par, st, Arrive(accept)))
  {
    DropNonData(par, st);
    AbortJoins(par, st.(pipe := st.pipe[1..]));
  }

  lemma ArriveKeepsInv(par: Params, st: Stream, accept: bool)
    requires ParamsOk(par) && Inv(par, st) && Enabled(par, st, Arrive(accept))
    ensures Inv(par, Next(par, st, Arrive(accept)))
  {
    if st.r.Unopened? {
      NothingIsNothing(par);
      OpenKeepsInv(par, st, accept);
    } else if st.r.Receiver? && st.r.registered && st.r.stage.Live? {
      if st.pipe[0].kind == FT_CLOSE {
        CloseArrivalKeepsInv(par, st, accept);
      } else {
        DataArrivalKeepsInv(par, st, accept);
      }
    }
  }

  /** What the pump decodes is what the history says. */
  lemma DecodeExtends(par: Params, st: Stream)
    requires ReceiverOk(par, st) && st.r.stage.Live? && st.r.queue != [] && st.r.queue[0].Data?
    requires par.codec.plain(st.r.fed) <= par.codec.plain(st.r.fed + st.r.queue[0].wire)
    ensures var d := st.r.queue[0];
            var out := Decoded(par, st.r, d);
            if Flagged(par, st.s) then d.compressed && st.r.plain + out == par.codec.plain(st.r.fed + d.wire)
            else !d.compressed && out == d.wire
  {
  }

  /** Taking a frame off the queue moves its bytes to those seen. */
  lemma PumpedBytes(seen: Bytes, wire: Bytes, rest: Bytes, behind: Bytes)
    ensures seen + (wire + rest) == (seen + wire) + rest
    ensures seen + (wire + rest) + behind == (seen + wire) + rest + behind
    ensures seen + wire <= seen + (wire + rest)
  {
  }

  lemma PumpDataKeepsInv(par: Params, st: Stream, r: Receiver)
    requires Inv(par, st) && st.r.Receiver? && st.r.stage.Live? && st.r.queue != [] && st.r.queue[0].Data?
    requires par.codec.plain(st.r.fed) <= par.codec.plain(st.r.fed + st.r.queue[0].wire)
    requires var p := PumpNext(par, st.r);
             && r.Receiver? && r == p.(delivered := r.delivered, attached := r.attached)
             && r.delivered <= p.plain && (r.attached ==> r.delivered == p.plain)
    ensures Inv(par, st.(r := r))
  {
    DecodeExtends(par, st);
    var t := st.(r := r);
    var d := st.r.queue[0];
    var seen, rest := Seen(par, st.s, st.r), QueueBytes(st.r.queue[1..]);
    assert QueueBytes(st.r.queue) == d.wire + rest;
    PumpedBytes(seen, d.wire, rest, PipeBytes(st.pipe) + st.s.left);
    if r.stage.Live? {
      assert Seen(par, t.s, t.r) == seen + d.wire;
      EofBehindData(par, st, t);
    }
  }

  lemma EofBehindData(par: Params, st: Stream, t: Stream)
    requires EofOk(par, st) && st.r.queue != [] && st.r.queue[0].Data? && t.r.Receiver?
    requires t == st.(r := t.r) && t.r.queue == st.r.queue[1..] && t.r.registered == st.r.registered
    requires Seen(par, t.s, t.r) + QueueBytes(t.r.queue) == Seen(par, st.s, st.r) + QueueBytes(st.r.queue)
    ensures EofOk(par, t)
  {
    assert forall i :: 0 <= i < |t.r.queue| ==> t.r.queue[i] == st.r.queue[i + 1];
  }

  lemma {:induction false} NoDataNoBytes(q: seq<Inbound>)
    requires forall i :: 0 <= i < |q| ==> !q[i].Data?
    ensures QueueBytes(q) == []
  {
    if q != [] {
      NoDataNoBytes(q[1..]);
    }
  }

  /** At the marker everything sent has been taken. */
  lemma AllSeenAtEof(par: Params, st: Stream)
    requires ReceiverOk(par, st) && st.r.stage.Live? && st.r.queue != [] && st.r.queue[0].Eof?
    ensures Seen(par, st.s, st.r) == Wire(par, st.s) && st.s.over.FinSent?
  {
    NoDataNoBytes(st.r.queue);
    assert Eof in st.r.queue;
    assert Seen(par, st.s, st.r) + [] == Seen(par, st.s, st.r);
  }

  lemma NoTailAtEof(par: Params, st: Stream)
    requires ParamsOk(par) && ReceiverOk(par, st) && Seen(par, st.s, st.r) == Wire(par, st.s)
    ensures par.compression ==> par.codec.tail(st.r.fed) == []
  {
    LawsAt(par, st.s.chunks, []);
    NothingIsNothing(par);
  }

  lemma EofKeepsInv(par: Params, st: Stream)
    requires Inv(par, st) && RecvEnabled(par, st.r, Pump) && st.r.queue[0].Eof?
    requires Seen(par, st.s, st.r) == Wire(par, st.s) && st.s.over.FinSent?
    requires par.compression ==> par.codec.tail(st.r.fed) == []
    ensures Inv(par, Next(par, st, Recv(Pump)))
  {
    assert st.r.plain + [] == st.r.plain && st.r.delivered + [] == st.r.delivered;
    assert PumpNext(par, st.r) == st.r.(queue := st.r.queue[1..], stage := SawEof);
  }

  lemma PumpEndKeepsInv(par: Params, st: Stream)
    requires ParamsOk(par) && Inv(par, st) && RecvEnabled(par, st.r, Pump) && !st.r.queue[0].Data?
    ensures Inv(par, Next(par, st, Recv(Pump)))
  {
    if st.r.queue[0].Eof? {
      AllSeenAtEof(par, st);
      NoTailAtEof(par, st);
      EofKeepsInv(par, st);
    }
  }

  lemma DecoderGrows(par: Params, a: Bytes, b: Bytes)
    requires ParamsOk(par)
    ensures par.codec.plain(a) <= par.codec.plain(a + b)
  {
    assert a <= a + b;
  }

  lemma PumpPartKeepsInv(par: Params, st: Stream, k: nat)
    requires ParamsOk(par) && Inv(par, st) && RecvEnabled(par, st.r, PumpPart(k))
    ensures Inv(par, Next(par, st, Recv(PumpPart(k))))
  {
    DecoderGrows(par, st.r.fed, st.r.queue[0].wire);
    var t := Next(par, st, Recv(PumpPart(k)));
    var out := Decoded(par, st.r, st.r.queue[0]);
    assert st.r.plain + out[..k] <= st.r.plain + out;
    PumpDataKeepsInv(par, st, t.r);
    assert t == st.(r := t.r);
  }

  lemma PumpKeepsInv(par: Params, st: Stream)
    requires ParamsOk(par) && Inv(par, st) && RecvEnabled(par, st.r, Pump)
    ensures Inv(par, Next(par, st, Recv(Pump)))
  {
    if st.r.queue[0].Data? {
      DecoderGrows(par, st.r.fed, st.r.queue[0].wire);
      PumpDataKeepsInv(par, st, PumpNext(par, st.r));
    } else {
      PumpEndKeepsInv(par, st);
    }
  }

  lemma UnregisterKeepsInv(par: Params, st: Stream)
    requires Inv(par, st) && RecvEnabled(par, st.r, Unregister)
    ensures Inv(par, Next(par, st, Recv(Unregister)))
  {
  }

  lemma LocalAbortKeepsInv(par: Params, st: Stream)
    requires Inv(par, st) && RecvEnabled(par, st.r, LocalAbort)
    ensures Inv(par, Next(par, st, Recv(LocalAbort)))
  {
    AbortJoins(par, st);
  }

  lemma RecvKeepsInv(par: Params, st: Stream, a: RecvAct)
    requires ParamsOk(par) && Inv(par, st) && RecvEnabled(par, st.r, a)
    ensures Inv(par, Next(par, st, Recv(a)))
  {
    match a {
      case Pump => PumpKeepsInv(par, st);
      case PumpPart(k) => PumpPartKeepsInv(par, st, k);
      case Unregister => UnregisterKeepsInv(par, st);
      case LocalAbort => LocalAbortKeepsInv(par, st);
    }
  }

  /** Every step of every task of the stream keeps the invariant. */
  lemma StepKeepsInv(par: Params, st: Stream, a: Act)
    requires ParamsOk(par) && Inv(par, st) && Enabled(par, st, a)
    ensures Inv(par, Next(par, st, a))
  {
    match a {
      case Send(sa) =>
        match sa {
          case ReadChunk(n) => ReadChunkKeepsInv(par, st, n);
          case SendPiece => SendPieceKeepsInv(par, st);
          case SendFin => FinKeepsInv(par, st);
          case SendAbort => AbortKeepsInv(par, st);
          case Write(_) => AppActKeepsInv(par, st, sa);
          case Shut => AppActKeepsInv(par, st, sa);
        }
      case Arrive(accept) => ArriveKeepsInv(par, st, accept);
      case Recv(ra) => RecvKeepsInv(par, st, ra);
    }
  }

  /** What the reading app may have, in any state the invariant allows. */
  lemma InvMeansPrefix(par: Params, st: Stream)
    requires ParamsOk(par) && Inv(par, st) && st.r.Receiver?
    ensures st.r.delivered <= st.s.written
    ensures st.r.stage.SawEof? && st.r.attached ==> st.r.delivered == st.s.written && st.s.shut
  {
    LawsAt(par, st.s.chunks, []);
    var all := Concat(st.s.chunks);
    if Flagged(par, st.s) {
      assert st.r.fed <= par.codec.comp(st.s.chunks);
      assert st.r.plain <= all;
    }
  }
}
