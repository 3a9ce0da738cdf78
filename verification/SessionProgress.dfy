/**
 Data gets through: from every reachable state of a session, a stream that nobody has
 aborted and whose app is still there can be carried to its end, whatever the other
 streams do, by the ordinary steps of the pumps, the writer and the reader.
 */
module SessionProgress {
  import opened Bytes
  import opened Incremental
  import opened MuxFrame
  import opened Session
  import opened Transport
  import Proofs = TransportProofs
  import Reasons = TransportReasons

  /** Writing out, arriving, reading a frame and pumping what is queued. */
  predicate Delivering(a: Action) {
    a.WriteOut? || a.Land? || a.ReadFrame? || (a.Receiving? && a.ra.Pump?)
  }

  /** The sending pump of stream `sid`, and its app closing its end. */
  predicate Pumping(a: Action, sid: nat) {
    a.Sending? && a.sid == sid && (a.sa.Shut? || a.sa.ReadChunk? || a.sa.SendPiece? || a.sa.SendFin?)
  }

  predicate Ordinary(acts: seq<Action>, sid: nat) {
    forall i :: 0 <= i < |acts| ==> Delivering(acts[i]) || Pumping(acts[i], sid)
  }

  /** A run of ordinary steps leads from one state to another. */
  ghost predicate Leads(pars: Pars, c: State, e: State, sid: nat) {
    exists acts :: Runs(pars, c, acts) && Ordinary(acts, sid) && Exec(pars, c, acts) == e
  }

  lemma LeadsNowhere(pars: Pars, c: State, sid: nat)
    ensures Leads(pars, c, c, sid)
  {
    assert Runs(pars, c, []) && Ordinary([], sid) && Exec(pars, c, []) == c;
  }

  lemma StepThenLeads(pars: Pars, c: State, a: Action, e: State, sid: nat)
    requires Session.Enabled(pars, c, a) && (Delivering(a) || Pumping(a, sid))
    requires Leads(pars, Session.Next(pars, c, a), e, sid)
    ensures Leads(pars, c, e, sid)
  {
    var d := Session.Next(pars, c, a);
    var acts :| Runs(pars, d, acts) && Ordinary(acts, sid) && Exec(pars, d, acts) == e;
    var all := [a] + acts;
    assert all[1..] == acts;
    assert Runs(pars, c, all) && Ordinary(all, sid) && Exec(pars, c, all) == e;
  }

  lemma {:induction false} RunsOn(pars: Pars, c: State, xs: seq<Action>, ys: seq<Action>)
    requires Runs(pars, c, xs) && Runs(pars, Exec(pars, c, xs), ys)
    ensures Runs(pars, c, xs + ys) && Exec(pars, c, xs + ys) == Exec(pars, Exec(pars, c, xs), ys)
    decreases |xs|
  {
    if xs == [] {
      assert xs + ys == ys;
    } else {
      assert (xs + ys)[1..] == xs[1..] + ys;
      RunsOn(pars, Session.Next(pars, c, xs[0]), xs[1..], ys);
    }
  }

  lemma LeadsOn(pars: Pars, c: State, d: State, e: State, sid: nat)
    requires Leads(pars, c, d, sid) && Leads(pars, d, e, sid)
    ensures Leads(pars, c, e, sid)
  {
    var xs :| Runs(pars, c, xs) && Ordinary(xs, sid) && Exec(pars, c, xs) == d;
    var ys :| Runs(pars, d, ys) && Ordinary(ys, sid) && Exec(pars, d, ys) == e;
    RunsOn(pars, c, xs, ys);
    assert Ordinary(xs + ys, sid);
  }

  /** Nothing stands in the way of the stream's end. */
  predicate Clear(r: Receiver) {
    || r.Unopened?
    || (r.Receiver? && r.attached && (r.stage.SawEof? || (r.stage.Live? && r.registered && Abort !in r.queue)))
  }

  /** The stream can still be carried to its end. */
  ghost predicate OnTrack(pars: Pars, c: State, fifo: seq<Frame>, sid: nat) {
    && ParsOk(pars) && Good(pars, c, fifo)
    && sid in c.senders && sid in c.receivers
    && !c.senders[sid].over.Aborted? && Clear(c.receivers[sid])
  }

  // Sending

  /** What the sending pump does next. */
  function NextSend(s: Sender): SendAct {
    if !s.shut then Shut
    else if s.left != [] then SendPiece
    else if s.read < |s.written| then ReadChunk(if |s.written| - s.read < 65536 then |s.written| - s.read else 65536)
    else SendFin
  }

  lemma NextSendEnabled(s: Sender)
    requires s.over.Running? && s.read <= |s.written|
    ensures SendEnabled(s, NextSend(s))
  {
  }

  lemma SendEffect(pars: Pars, c: State, sid: nat, sa: SendAct)
    requires Session.Enabled(pars, c, Sending(sid, sa))
    ensures var c' := Session.Next(pars, c, Sending(sid, sa));
            && c'.senders == c.senders[sid := SendNext(pars(sid), c.senders[sid], sa).0]
            && c'.receivers == c.receivers
  {
  }

  lemma SendOne(pars: Pars, c: State, fifo: seq<Frame>, sid: nat) returns (fifo': seq<Frame>)
    requires OnTrack(pars, c, fifo, sid) && c.senders[sid].over.Running?
    ensures var a := Sending(sid, NextSend(c.senders[sid]));
            && Session.Enabled(pars, c, a) && OnTrack(pars, Session.Next(pars, c, a), fifo', sid)
  {
    var sa := NextSend(c.senders[sid]);
    assert SendEnabled(c.senders[sid], sa) by {
      StreamFacts(pars, c, fifo, sid);
      NextSendEnabled(c.senders[sid]);
    }
    fifo' := fifo + SendNext(pars(sid), c.senders[sid], sa).1;
    SendEffect(pars, c, sid, sa);
    assert Good(pars, Session.Next(pars, c, Sending(sid, sa)), fifo') by {
      SendingKeepsGood(pars, c, fifo, sid, sa);
    }
  }

  /** The sender's pump reaches its FIN. */
  lemma {:induction false} SendAll(pars: Pars, c: State, fifo: seq<Frame>, sid: nat)
    returns (e: State, fifo': seq<Frame>)
    requires OnTrack(pars, c, fifo, sid)
    ensures Leads(pars, c, e, sid) && OnTrack(pars, e, fifo', sid)
    ensures e.senders[sid].over.FinSent? && e.senders[sid].written == c.senders[sid].written
    decreases c.senders[sid].over.Running?, !c.senders[sid].shut, |c.senders[sid].written| - c.senders[sid].read,
              |c.senders[sid].left|
  {
    var s := c.senders[sid];
    if s.over.FinSent? {
      e, fifo' := c, fifo;
      LeadsNowhere(pars, c, sid);
    } else {
      StreamFacts(pars, c, fifo, sid);
      var a := Sending(sid, NextSend(s));
      var mid := SendOne(pars, c, fifo, sid);
      SendShrinks(pars(sid), s);
      e, fifo' := SendAll(pars, Session.Next(pars, c, a), mid, sid);
      StepThenLeads(pars, c, a, e, sid);
    }
  }

  lemma SendShrinks(par: Params, s: Sender)
    requires par.maxData > 0 && s.over.Running? && s.read <= |s.written| && SendEnabled(s, NextSend(s))
    ensures var t := SendNext(par, s, NextSend(s)).0;
            && t.written == s.written && (t.over.Running? || t.over.FinSent?)
            && (t.over.Running? ==>
                  || (!s.shut && t.shut && t.read == s.read)
                  || (s.shut && t.shut && t.read > s.read)
                  || (s.shut && t.shut && t.read == s.read && |t.left| < |s.left|))
  {
  }

  // Delivering

  lemma KeepsTrack(pars: Pars, c: State, fifo: seq<Frame>, c': State, fifo': seq<Frame>, sid: nat)
    requires OnTrack(pars, c, fifo, sid) && Good(pars, c', fifo') && c'.senders == c.senders
    requires sid in c'.receivers && Clear(c'.receivers[sid])
    ensures OnTrack(pars, c', fifo', sid)
  {
  }

  /** What is known of one stream. */
  lemma StreamFacts(pars: Pars, c: State, fifo: seq<Frame>, id: nat)
    requires ParsOk(pars) && Good(pars, c, fifo) && id in c.receivers
    ensures id in c.senders && ParamsOk(pars(id))
    ensures Proofs.Inv(pars(id), View(c, fifo, id)) && Reasons.Why(pars(id), View(c, fifo, id))
  {
    assert StreamGood(pars, c, fifo, id);
    ParsAt(pars, id);
  }

  lemma MoveEffect(pars: Pars, c: State, a: Action)
    requires Session.Enabled(pars, c, a) && (a.WriteOut? || a.Land?)
    ensures var c' := Session.Next(pars, c, a);
            && c'.senders == c.senders && c'.receivers == c.receivers
            && (a == WriteOut(1) ==> |c'.queue| < |c.queue|)
            && (a == Land(|c.flying|) ==> c'.flying == [] && c'.queue == c.queue)
  {
  }

  lemma MoveOne(pars: Pars, c: State, fifo: seq<Frame>, a: Action, sid: nat)
    requires OnTrack(pars, c, fifo, sid) && Session.Enabled(pars, c, a) && (a.WriteOut? || a.Land?)
    ensures OnTrack(pars, Session.Next(pars, c, a), fifo, sid)
  {
    MovingKeepsGood(pars, c, fifo, a);
    MoveEffect(pars, c, a);
    KeepsTrack(pars, c, fifo, Session.Next(pars, c, a), fifo, sid);
  }

  lemma {:induction false} WriteAll(pars: Pars, c: State, fifo: seq<Frame>, sid: nat) returns (e: State)
    requires OnTrack(pars, c, fifo, sid)
    ensures Leads(pars, c, e, sid) && OnTrack(pars, e, fifo, sid) && e.queue == [] && e.senders == c.senders
    decreases |c.queue|
  {
    if c.queue == [] {
      e := c;
      LeadsNowhere(pars, c, sid);
    } else {
      MoveOne(pars, c, fifo, WriteOut(1), sid);
      MoveEffect(pars, c, WriteOut(1));
      e := WriteAll(pars, Session.Next(pars, c, WriteOut(1)), fifo, sid);
      StepThenLeads(pars, c, WriteOut(1), e, sid);
    }
  }

  lemma LandAll(pars: Pars, c: State, fifo: seq<Frame>, sid: nat) returns (e: State)
    requires OnTrack(pars, c, fifo, sid) && c.queue == []
    ensures Leads(pars, c, e, sid) && OnTrack(pars, e, fifo, sid) && Landed(e) && e.senders == c.senders
  {
    var a := Land(|c.flying|);
    MoveOne(pars, c, fifo, a, sid);
    MoveEffect(pars, c, a);
    e := Session.Next(pars, c, a);
    LeadsNowhere(pars, e, sid);
    StepThenLeads(pars, c, a, e, sid);
  }

  predicate Landed(c: State) { c.queue == [] && c.flying == [] }

  /** With everything landed the reader sees the first frame. */
  lemma FirstIsThere(c: State, fifo: seq<Frame>)
    requires Carried(c, fifo) && Landed(c) && fifo != []
    ensures FrontFrame(c.arrived) == Item(fifo[0], |Encode(fifo[0])|)
  {
    assert c.arrived + [] + [] == c.arrived;
    EncodeDecodes(fifo[0], EncodeAll(Writes(), fifo[1..]));
  }

  predicate CanPump(c: State, id: nat) {
    id in c.receivers && c.receivers[id].Receiver? && c.receivers[id].stage.Live? && c.receivers[id].queue != []
  }

  function Pumped(pars: Pars, c: State, id: nat): State
    requires CanPump(c, id)
  {
    c.(receivers := c.receivers[id := PumpNext(pars(id), c.receivers[id])])
  }

  lemma PumpEffect(pars: Pars, c: State, id: nat)
    requires CanPump(c, id) && !c.dead
    ensures Session.Enabled(pars, c, Receiving(id, Pump))
    ensures Session.Next(pars, c, Receiving(id, Pump)) == Pumped(pars, c, id)
  {
  }

  lemma PumpedIsGood(pars: Pars, c: State, fifo: seq<Frame>, id: nat)
    requires ParsOk(pars) && Good(pars, c, fifo) && CanPump(c, id)
    ensures Good(pars, Pumped(pars, c, id), fifo)
  {
    PumpEffect(pars, c, id);
    ReceivingKeepsGood(pars, c, fifo, id, Pump);
  }

  /** A pump step of any stream keeps the track of this one. */
  lemma PumpOne(pars: Pars, c: State, fifo: seq<Frame>, other: nat, sid: nat)
    requires OnTrack(pars, c, fifo, sid) && CanPump(c, other)
    ensures OnTrack(pars, Pumped(pars, c, other), fifo, sid)
    ensures QueueLength(Pumped(pars, c, other), other) < QueueLength(c, other)
  {
    PumpedIsGood(pars, c, fifo, other);
    PumpedIsClear(pars, c, fifo, other, sid);
    PumpTrack(pars, c, fifo, other, sid, PumpNext(pars(other), c.receivers[other]));
  }

  lemma PumpThenLeads(pars: Pars, c: State, id: nat, e: State, sid: nat)
    requires CanPump(c, id) && !c.dead && Leads(pars, Pumped(pars, c, id), e, sid)
    ensures Leads(pars, c, e, sid)
  {
    PumpEffect(pars, c, id);
    StepThenLeads(pars, c, Receiving(id, Pump), e, sid);
  }

  lemma PumpTrack(pars: Pars, c: State, fifo: seq<Frame>, other: nat, sid: nat, r: Receiver)
    requires OnTrack(pars, c, fifo, sid) && other in c.receivers && c.receivers[other].Receiver?
    requires r.Receiver? && |r.queue| < |c.receivers[other].queue| && (other == sid ==> Clear(r))
    requires Good(pars, c.(receivers := c.receivers[other := r]), fifo)
    ensures OnTrack(pars, c.(receivers := c.receivers[other := r]), fifo, sid)
    ensures QueueLength(c.(receivers := c.receivers[other := r]), other) < QueueLength(c, other)
  {
  }

  function QueueLength(c: State, id: nat): nat {
    if id in c.receivers && c.receivers[id].Receiver? then |c.receivers[id].queue| else 0
  }

  lemma PumpedIsClear(pars: Pars, c: State, fifo: seq<Frame>, other: nat, sid: nat)
    requires OnTrack(pars, c, fifo, sid) && CanPump(c, other)
    ensures var r := PumpNext(pars(other), c.receivers[other]);
            r.Receiver? && r.queue == c.receivers[other].queue[1..] && (other == sid ==> Clear(r))
  {
    StreamFacts(pars, c, fifo, other);
    PumpClear(pars(other), View(c, fifo, other));
  }

  lemma PumpClear(par: Params, st: Stream)
    requires ParamsOk(par) && Proofs.Inv(par, st) && Reasons.Why(par, st) && RecvEnabled(par, st.r, Pump)
    ensures var r := PumpNext(par, st.r);
            && r.Receiver? && r.queue == st.r.queue[1..] && (Clear(st.r) ==> Clear(r))
  {
    var q := st.r.queue;
    assert forall x :: x in q[1..] ==> x in q;
    assert q[0] in q;
    if q[0].Data? {
      Reasons.DataNeverStops(par, st);
    }
  }

  /** The reader can take the next frame, or its stream has something to pump. */
  lemma ReadOrPump(pars: Pars, c: State, fifo: seq<Frame>)
    requires Shape(c, fifo) && Landed(c) && fifo != []
    ensures Session.Enabled(pars, c, ReadFrame(true)) || CanPump(c, fifo[0].sid)
  {
    FirstIsThere(c, fifo);
  }

  /** Pump the stream of the next frame until there is room for it. */
  lemma {:induction false} MakeRoom(pars: Pars, c: State, fifo: seq<Frame>, sid: nat) returns (e: State)
    requires OnTrack(pars, c, fifo, sid) && Landed(c) && fifo != []
    ensures Leads(pars, c, e, sid) && OnTrack(pars, e, fifo, sid) && Landed(e) && e.senders == c.senders
    ensures Session.Enabled(pars, e, ReadFrame(true))
    decreases QueueLength(c, fifo[0].sid)
  {
    if Session.Enabled(pars, c, ReadFrame(true)) {
      e := c;
      LeadsNowhere(pars, c, sid);
    } else {
      ReadOrPump(pars, c, fifo);
      PumpOne(pars, c, fifo, fifo[0].sid, sid);
      e := MakeRoom(pars, Pumped(pars, c, fifo[0].sid), fifo, sid);
      PumpThenLeads(pars, c, fifo[0].sid, e, sid);
    }
  }

  lemma ReadEffect(pars: Pars, c: State, f: Frame, sid: nat)
    requires Session.Enabled(pars, c, ReadFrame(true)) && FrontFrame(c.arrived) == Item(f, |Encode(f)|)
    requires sid in c.receivers
    ensures var c' := Session.Next(pars, c, ReadFrame(true));
            && c'.senders == c.senders && c'.queue == c.queue && c'.flying == c.flying && sid in c'.receivers
            && c'.receivers[sid] == (if f.sid == sid && OfStream(f) then Dispatch(c.receivers[sid], f, true)
                                     else c.receivers[sid])
  {
  }

  lemma ReadOne(pars: Pars, c: State, fifo: seq<Frame>, sid: nat)
    requires OnTrack(pars, c, fifo, sid) && Landed(c) && fifo != [] && Session.Enabled(pars, c, ReadFrame(true))
    ensures var c' := Session.Next(pars, c, ReadFrame(true));
            OnTrack(pars, c', fifo[1..], sid) && Landed(c') && c'.senders == c.senders
  {
    FirstIsThere(c, fifo);
    ReadingKeepsGood(pars, c, fifo, true);
    StreamFacts(pars, c, fifo, sid);
    var f := fifo[0];
    ReadEffect(pars, c, f, sid);
    if f.sid == sid && OfStream(f) {
      assert View(c, fifo, sid).pipe == [f] + Of(fifo[1..], sid);
      ReadClear(pars(sid), View(c, fifo, sid));
    }
    KeepsTrack(pars, c, fifo, Session.Next(pars, c, ReadFrame(true)), fifo[1..], sid);
  }

  lemma ReadClear(par: Params, st: Stream)
    requires Proofs.Inv(par, st) && Reasons.Why(par, st) && st.pipe != [] && Clear(st.r) && !st.s.over.Aborted?
    ensures Clear(Dispatch(st.r, st.pipe[0], true))
  {
    assert st.pipe[0].kind != FT_CLOSE;
    assert Abort !in Enqueued(st.pipe[0]);
  }

  /** The reader takes every frame there is. */
  lemma {:induction false} ReadAll(pars: Pars, c: State, fifo: seq<Frame>, sid: nat) returns (e: State)
    requires OnTrack(pars, c, fifo, sid) && Landed(c)
    ensures Leads(pars, c, e, sid) && OnTrack(pars, e, [], sid) && e.senders == c.senders
    decreases |fifo|
  {
    if fifo == [] {
      e := c;
      LeadsNowhere(pars, c, sid);
    } else {
      var d := MakeRoom(pars, c, fifo, sid);
      ReadOne(pars, d, fifo, sid);
      e := ReadAll(pars, Session.Next(pars, d, ReadFrame(true)), fifo[1..], sid);
      StepThenLeads(pars, d, ReadFrame(true), e, sid);
      LeadsOn(pars, c, d, e, sid);
    }
  }

  /** With nothing on its way the end of the stream is in the queue, or was seen. */
  lemma EndIsQueued(pars: Pars, c: State, sid: nat)
    requires OnTrack(pars, c, [], sid) && c.senders[sid].over.FinSent?
    ensures var r := c.receivers[sid];
            r.Receiver? && (r.stage.SawEof? || (r.stage.Live? && Eof in r.queue))
  {
    StreamFacts(pars, c, [], sid);
    assert View(c, [], sid).pipe == [];
  }

  /** The inbound pump reaches the end. */
  lemma {:induction false} PumpAll(pars: Pars, c: State, sid: nat) returns (e: State)
    requires OnTrack(pars, c, [], sid) && c.senders[sid].over.FinSent?
    ensures Leads(pars, c, e, sid) && OnTrack(pars, e, [], sid) && e.senders == c.senders
    ensures e.receivers[sid].Receiver? && e.receivers[sid].stage.SawEof?
    decreases QueueLength(c, sid)
  {
    EndIsQueued(pars, c, sid);
    if c.receivers[sid].stage.SawEof? {
      e := c;
      LeadsNowhere(pars, c, sid);
    } else {
      PumpOne(pars, c, [], sid, sid);
      e := PumpAll(pars, Pumped(pars, c, sid), sid);
      PumpThenLeads(pars, c, sid, e, sid);
    }
  }

  /** The whole of what the app at one end wrote, and its end, reached the app at the
      other. */
  predicate Complete(c: State, sid: nat, written: Bytes) {
    && sid in c.receivers && c.receivers[sid].Receiver?
    && c.receivers[sid].stage.SawEof? && c.receivers[sid].delivered == written
  }

  /** Everything arrives: in every reachable state of a session, take any stream whose
      sender has not aborted and whose receiver is not yet open, or is registered, live,
      attached and has no abort queued. Whatever the other streams hold, a run of ordinary
      steps of the two pumps, the writer and the reader brings all that was written on it,
      and its end, to the app at the other side. */
  lemma EverythingArrives(pars: Pars, acts: seq<Action>, sid: nat)
    requires ParsOk(pars) && Runs(pars, Init(), acts)
    requires sid in Exec(pars, Init(), acts).senders && sid in Exec(pars, Init(), acts).receivers
    requires !Exec(pars, Init(), acts).senders[sid].over.Aborted? && Clear(Exec(pars, Init(), acts).receivers[sid])
    ensures var c := Exec(pars, Init(), acts);
            exists more :: Runs(pars, c, more) && Ordinary(more, sid)
                           && Complete(Exec(pars, c, more), sid, c.senders[sid].written)
  {
    assert Good(pars, Init(), []);
    var fifo := RunKeepsGood(pars, Init(), [], acts);
    var c := Exec(pars, Init(), acts);
    var c1, fifo1 := SendAll(pars, c, fifo, sid);
    var c2 := WriteAll(pars, c1, fifo1, sid);
    var c3 := LandAll(pars, c2, fifo1, sid);
    var c4 := ReadAll(pars, c3, fifo1, sid);
    var e := PumpAll(pars, c4, sid);
    LeadsOn(pars, c3, c4, e, sid);
    LeadsOn(pars, c2, c3, e, sid);
    LeadsOn(pars, c1, c2, e, sid);
    LeadsOn(pars, c, c1, e, sid);
    StreamFacts(pars, e, [], sid);
    Proofs.InvMeansPrefix(pars(sid), View(e, [], sid));
    var more :| Runs(pars, c, more) && Ordinary(more, sid) && Exec(pars, c, more) == e;
    assert Complete(Exec(pars, c, more), sid, c.senders[sid].written);
  }
}
