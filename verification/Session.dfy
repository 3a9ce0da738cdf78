/**
 A whole session: any number of streams multiplexed over one ordered byte stream.

 Sending tasks put encoded frames into the writer's queue, the writer writes batches
 of them to the socket, the bytes arrive in arbitrary pieces, and the reader cuts
 them into frames again and dispatches each to its stream.
 */
module Session {
  import opened Bytes
  import opened Incremental
  import opened MuxFrame
  import opened Transport
  import Proofs = TransportProofs
  import Reasons = TransportReasons

  /** Negotiated parameters of each stream. */
  type Pars = nat -> Params

  predicate IsId(sid: nat) { sid < 0x1_0000_0000 }

  ghost predicate ParsOk(pars: Pars) {
    forall sid {:trigger IsId(sid)} :: IsId(sid) ==> ParamsOk(pars(sid)) && pars(sid).sid == sid
  }

  lemma ParsAt(pars: Pars, sid: nat)
    requires ParsOk(pars) && sid < 0x1_0000_0000
    ensures ParamsOk(pars(sid)) && pars(sid).sid == sid
  {
    assert IsId(sid);
  }

  /** `queue` is the writer's, `flying` was written and did not arrive yet, `arrived`
      waits for the reader. */
  datatype State = State(
    senders: map<nat, Sender>,
    receivers: map<nat, Receiver>,
    queue: seq<Bytes>,
    flying: Bytes,
    arrived: Bytes,
    dead: bool)

  function Init(): State { State(map[], map[], [], [], [], false) }

  /** The session carries one direction of the connection. `Open` starts a stream that
      this end opens; `Answer` the sending half of a stream that the other end opened,
      whose receiver there has been waiting since; `Noise(f)` is any other traffic in
      this direction: handshake, acknowledgements, window grants, pings. */
  datatype Action =
    | Open(sid: nat, body: Bytes)
    | Answer(sid: nat)
    | Sending(sid: nat, sa: SendAct)
    | Noise(f: Frame)
    | WriteOut(k: nat)
    | Land(k: nat)
    | ReadFrame(accept: bool)
    | Receiving(sid: nat, ra: RecvAct)

  predicate OfStream(f: Frame) { f.kind == FT_OPEN || f.kind == FT_DATA || f.kind == FT_CLOSE }

  predicate Enabled(pars: Pars, c: State, a: Action) {
    && !c.dead
    && match a
       case Open(sid, body) => sid < 0x1_0000_0000 && sid !in c.senders && sid !in c.receivers && |body| <= Cap(FT_OPEN)
       case Answer(sid) => sid < 0x1_0000_0000 && sid !in c.senders && sid !in c.receivers
       case Sending(sid, sa) => sid in c.senders && SendEnabled(c.senders[sid], sa)
       case Noise(f) => FrameOk(f) && !OfStream(f)
       case WriteOut(k) => 1 <= k <= MAX_BATCH_FRAMES + 1 && k <= |c.queue|
       case Land(k) => k <= |c.flying|
       case ReadFrame(_) =>
         var front := FrontFrame(c.arrived);
         && !front.More?
         && (front.Item? && front.value.sid in c.receivers && OfStream(front.value) ==>
               Room(c.receivers[front.value.sid], front.value))
       case Receiving(sid, ra) => sid in c.receivers && RecvEnabled(pars(sid), c.receivers[sid], ra)
  }

  function Encoded(fs: seq<Frame>): seq<Bytes> {
    if fs == [] then [] else [Encode(fs[0])] + Encoded(fs[1..])
  }

  function Next(pars: Pars, c: State, a: Action): State
    requires Enabled(pars, c, a)
  {
    match a
    case Open(sid, body) =>
      c.(senders := c.senders[sid := NewSender()],
         receivers := c.receivers[sid := Unopened],
         queue := c.queue + Encoded([OpenFrame(pars(sid), body)]))
    case Answer(sid) =>
      c.(senders := c.senders[sid := NewSender()], receivers := c.receivers[sid := Listening()])
    case Sending(sid, sa) =>
      var (s, out) := SendNext(pars(sid), c.senders[sid], sa);
      c.(senders := c.senders[sid := s], queue := c.queue + Encoded(out))
    case Noise(f) => c.(queue := c.queue + Encoded([f]))
    case WriteOut(k) => c.(queue := c.queue[k..], flying := c.flying + Concat(c.queue[..k]))
    case Land(k) => c.(flying := c.flying[k..], arrived := c.arrived + c.flying[..k])
    case ReadFrame(accept) =>
      (match FrontFrame(c.arrived)
       case Item(f, used) =>
         var c' := c.(arrived := if used <= |c.arrived| then c.arrived[used..] else []);
         if f.sid in c.receivers && OfStream(f)
         then c'.(receivers := c.receivers[f.sid := Dispatch(c.receivers[f.sid], f, accept)])
         else c'
       case _ => c.(dead := true))
    case Receiving(sid, ra) =>
      c.(receivers := c.receivers[sid := RecvNext(pars(sid), c.receivers[sid], ra)])
  }

  predicate Runs(pars: Pars, c: State, acts: seq<Action>)
    decreases |acts|
  {
    acts == [] || (Enabled(pars, c, acts[0]) && Runs(pars, Next(pars, c, acts[0]), acts[1..]))
  }

  function Exec(pars: Pars, c: State, acts: seq<Action>): State
    requires Runs(pars, c, acts)
    decreases |acts|
  {
    if acts == [] then c else Exec(pars, Next(pars, c, acts[0]), acts[1..])
  }

  /** The frames of one stream, in order. */
  function Of(fifo: seq<Frame>, sid: nat): seq<Frame> {
    if fifo == [] then []
    else (if fifo[0].sid == sid && OfStream(fifo[0]) then [fifo[0]] else []) + Of(fifo[1..], sid)
  }

  lemma {:induction false} OfAppend(a: seq<Frame>, b: seq<Frame>, sid: nat)
    ensures Of(a + b, sid) == Of(a, sid) + Of(b, sid)
  {
    if a == [] {
      assert a + b == b;
    } else {
      assert (a + b)[1..] == a[1..] + b;
      OfAppend(a[1..], b, sid);
    }
  }

  lemma OfOne(f: Frame, sid: nat)
    ensures Of([f], sid) == if f.sid == sid && OfStream(f) then [f] else []
  {
    assert [f][1..] == [];
    assert Of([], sid) == [];
  }

  /** The bytes between writer queue and reader are the encoding of these frames. */
  predicate Carried(c: State, fifo: seq<Frame>) {
    && (forall i :: 0 <= i < |fifo| ==> FrameOk(fifo[i]))
    && c.arrived + c.flying + Concat(c.queue) == EncodeAll(Writes(), fifo)
  }

  /** Stream `sid` as its two ends and the frames between them. */
  function View(c: State, fifo: seq<Frame>, sid: nat): Stream
    requires sid in c.senders && sid in c.receivers
  {
    Stream(c.senders[sid], Of(fifo, sid), c.receivers[sid])
  }

  ghost predicate StreamGood(pars: Pars, c: State, fifo: seq<Frame>, sid: nat)
    requires sid in c.senders && sid in c.receivers
  {
    Proofs.Inv(pars(sid), View(c, fifo, sid)) && Reasons.Why(pars(sid), View(c, fifo, sid))
  }

  /** The session-wide facts. */
  predicate Shape(c: State, fifo: seq<Frame>) {
    && !c.dead
    && c.senders.Keys == c.receivers.Keys
    && Carried(c, fifo)
    && (forall sid :: sid in c.senders ==> sid < 0x1_0000_0000)
    && (forall i :: 0 <= i < |fifo| && OfStream(fifo[i]) ==> fifo[i].sid in c.senders)
  }

  ghost predicate StreamsGood(pars: Pars, c: State, fifo: seq<Frame>) {
    forall sid :: sid in c.senders && sid in c.receivers ==> StreamGood(pars, c, fifo, sid)
  }

  ghost predicate Good(pars: Pars, c: State, fifo: seq<Frame>) {
    Shape(c, fifo) && StreamsGood(pars, c, fifo)
  }

  lemma {:induction false} EncodedBytes(fs: seq<Frame>)
    ensures Concat(Encoded(fs)) == EncodeAll(Writes(), fs)
  {
    if fs != [] {
      EncodedBytes(fs[1..]);
      assert Encoded(fs)[1..] == Encoded(fs[1..]);
    }
  }

  lemma Regroup(x: Bytes, y: Bytes, z: Bytes)
    ensures x + (y + z) == (x + y) + z
  {
  }

  /** Queueing frames extends the frame sequence by exactly these frames. */
  lemma QueueingCarries(c: State, fifo: seq<Frame>, out: seq<Frame>)
    requires Carried(c, fifo) && forall i :: 0 <= i < |out| ==> FrameOk(out[i])
    ensures Carried(c.(queue := c.queue + Encoded(out)), fifo + out)
  {
    var front := c.arrived + c.flying;
    ConcatAppend(c.queue, Encoded(out));
    EncodedBytes(out);
    EncodeAllAppend(Writes(), fifo, out);
    Regroup(front, Concat(c.queue), Concat(Encoded(out)));
    assert front + Concat(c.queue + Encoded(out)) == EncodeAll(Writes(), fifo + out);
  }

  /** Batching and delivery move bytes without touching their order. */
  lemma MovingCarries(pars: Pars, c: State, fifo: seq<Frame>, a: Action)
    requires Carried(c, fifo) && Enabled(pars, c, a) && (a.WriteOut? || a.Land?)
    ensures Carried(Next(pars, c, a), fifo)
  {
    if a.WriteOut? {
      assert c.queue == c.queue[..a.k] + c.queue[a.k..];
      ConcatAppend(c.queue[..a.k], c.queue[a.k..]);
      var x, y, z := Concat(c.queue[..a.k]), Concat(c.queue[a.k..]), c.arrived;
      assert z + c.flying + (x + y) == z + (c.flying + x) + y;
    } else {
      assert c.flying == c.flying[..a.k] + c.flying[a.k..];
      assert c.arrived + c.flying == (c.arrived + c.flying[..a.k]) + c.flying[a.k..];
    }
  }

  /** The reader cuts off exactly the first frame; it never meets a bad one. */
  lemma FirstFrameFirst(arrived: Bytes, x: Bytes, fifo: seq<Frame>)
    requires arrived + x == EncodeAll(Writes(), fifo) && !FrontFrame(arrived).More?
    requires forall i :: 0 <= i < |fifo| ==> FrameOk(fifo[i])
    ensures fifo != [] && FrontFrame(arrived) == Item(fifo[0], |Encode(fifo[0])|)
    ensures |Encode(fifo[0])| <= |arrived|
    ensures arrived[|Encode(fifo[0])|..] + x == EncodeAll(Writes(), fifo[1..])
  {
    FrontExtends(arrived, x);
    assert |arrived| >= HEADER_SIZE;
    var e, rest := Encode(fifo[0]), EncodeAll(Writes(), fifo[1..]);
    assert arrived + x == e + rest;
    EncodeDecodes(fifo[0], rest);
    FrontFits(arrived);
    assert arrived[|e|..] + x == (arrived + x)[|e|..] == (e + rest)[|e|..] == rest;
  }

  lemma FrontFits(b: Bytes)
    ensures FrontFrame(b).Item? ==> 0 < FrontFrame(b).used <= |b|
  {
  }

  lemma ReadingCarries(c: State, fifo: seq<Frame>)
    requires Carried(c, fifo) && !FrontFrame(c.arrived).More?
    ensures fifo != [] && FrontFrame(c.arrived) == Item(fifo[0], |Encode(fifo[0])|)
    ensures |Encode(fifo[0])| <= |c.arrived|
    ensures Carried(c.(arrived := c.arrived[|Encode(fifo[0])|..]), fifo[1..])
  {
    var x := c.flying + Concat(c.queue);
    Regroup(c.arrived, c.flying, Concat(c.queue));
    FirstFrameFirst(c.arrived, x, fifo);
    Regroup(c.arrived[|Encode(fifo[0])|..], c.flying, Concat(c.queue));
  }

  lemma SentFramesOk(par: Params, s: Sender, sa: SendAct)
    requires ParamsOk(par) && SendEnabled(s, sa)
    ensures var out := SendNext(par, s, sa).1;
            && (forall i :: 0 <= i < |out| ==> FrameOk(out[i]) && out[i].sid == par.sid && OfStream(out[i]))
            && |out| <= 1
  {
  }

  lemma {:induction false} OfAll(out: seq<Frame>, sid: nat, own: nat)
    requires forall i :: 0 <= i < |out| ==> out[i].sid == own && OfStream(out[i])
    ensures Of(out, sid) == if sid == own then out else []
  {
    if out != [] {
      OfAll(out[1..], sid, own);
    }
  }

  lemma StreamStep(par: Params, st: Stream, a: Act)
    requires ParamsOk(par) && Proofs.Inv(par, st) && Reasons.Why(par, st) && Transport.Enabled(par, st, a)
    ensures Proofs.Inv(par, Transport.Next(par, st, a)) && Reasons.Why(par, Transport.Next(par, st, a))
  {
    Proofs.StepKeepsInv(par, st, a);
    Reasons.StepKeepsWhy(par, st, a);
  }

  /** A step of one stream leaves the others as they were. */
  lemma Untouched(pars: Pars, c: State, fifo: seq<Frame>, c': State, fifo': seq<Frame>, id: nat)
    requires id in c.senders && id in c.receivers && id in c'.senders && id in c'.receivers
    requires StreamGood(pars, c, fifo, id)
    requires c.senders[id] == c'.senders[id] && c.receivers[id] == c'.receivers[id] && Of(fifo, id) == Of(fifo', id)
    ensures StreamGood(pars, c', fifo', id)
  {
    assert View(c, fifo, id) == View(c', fifo', id);
  }

  lemma SendingOne(pars: Pars, c: State, fifo: seq<Frame>, sid: nat, sa: SendAct, out: seq<Frame>, id: nat)
    requires id in c.senders && id in c.receivers && StreamGood(pars, c, fifo, id)
    requires ParamsOk(pars(id)) && Enabled(pars, c, Sending(sid, sa))
    requires out == SendNext(pars(sid), c.senders[sid], sa).1
    requires forall i :: 0 <= i < |out| ==> out[i].sid == sid && OfStream(out[i])
    ensures StreamGood(pars, Next(pars, c, Sending(sid, sa)), fifo + out, id)
  {
    var c' := Next(pars, c, Sending(sid, sa));
    OfAppend(fifo, out, id);
    OfAll(out, id, sid);
    if id == sid {
      StreamStep(pars(sid), View(c, fifo, sid), Send(sa));
      assert View(c', fifo + out, sid) == Transport.Next(pars(sid), View(c, fifo, sid), Send(sa));
    } else {
      assert Of(fifo, id) + [] == Of(fifo, id);
      Untouched(pars, c, fifo, c', fifo + out, id);
    }
  }

  lemma SendingShape(pars: Pars, c: State, fifo: seq<Frame>, sid: nat, sa: SendAct)
    requires ParamsOk(pars(sid)) && pars(sid).sid == sid && Shape(c, fifo) && Enabled(pars, c, Sending(sid, sa))
    ensures Shape(Next(pars, c, Sending(sid, sa)), fifo + SendNext(pars(sid), c.senders[sid], sa).1)
  {
    var (s, out) := SendNext(pars(sid), c.senders[sid], sa);
    SentFramesOk(pars(sid), c.senders[sid], sa);
    QueueingCarries(c, fifo, out);
  }

  lemma SendingKeepsGood(pars: Pars, c: State, fifo: seq<Frame>, sid: nat, sa: SendAct)
    requires ParsOk(pars) && Good(pars, c, fifo) && Enabled(pars, c, Sending(sid, sa))
    ensures Good(pars, Next(pars, c, Sending(sid, sa)), fifo + SendNext(pars(sid), c.senders[sid], sa).1)
  {
    var out := SendNext(pars(sid), c.senders[sid], sa).1;
    var c' := Next(pars, c, Sending(sid, sa));
    ParsAt(pars, sid);
    SendingShape(pars, c, fifo, sid, sa);
    SentFramesOk(pars(sid), c.senders[sid], sa);
    assert StreamsGood(pars, c', fifo + out) by {
      forall id | id in c'.senders && id in c'.receivers ensures StreamGood(pars, c', fifo + out, id) {
        ParsAt(pars, id);
        SendingOne(pars, c, fifo, sid, sa, out, id);
      }
    }
  }

  lemma OpenOne(pars: Pars, c: State, fifo: seq<Frame>, sid: nat, body: Bytes, id: nat)
    requires Shape(c, fifo) && Enabled(pars, c, Open(sid, body)) && ParamsOk(pars(sid)) && pars(sid).sid == sid
    requires id == sid || (id in c.senders && id in c.receivers && StreamGood(pars, c, fifo, id))
    ensures StreamGood(pars, Next(pars, c, Open(sid, body)), fifo + [OpenFrame(pars(sid), body)], id)
  {
    var f := OpenFrame(pars(sid), body);
    var c' := Next(pars, c, Open(sid, body));
    OfAppend(fifo, [f], id);
    OfOne(f, id);
    if id == sid {
      UnknownHasNoFrames(fifo, c.senders.Keys, sid);
      Proofs.StartInv(pars(sid), body);
      Reasons.StartWhy(pars(sid), body);
      assert [] + [f] == [f];
      assert View(c', fifo + [f], sid) == Start(pars(sid), body);
    } else {
      assert Of(fifo, id) + [] == Of(fifo, id);
      Untouched(pars, c, fifo, c', fifo + [f], id);
    }
  }

  lemma OpenShape(pars: Pars, c: State, fifo: seq<Frame>, sid: nat, body: Bytes)
    requires Shape(c, fifo) && Enabled(pars, c, Open(sid, body)) && pars(sid).sid == sid
    ensures Shape(Next(pars, c, Open(sid, body)), fifo + [OpenFrame(pars(sid), body)])
  {
    QueueingCarries(c, fifo, [OpenFrame(pars(sid), body)]);
  }

  lemma OpenKeepsGood(pars: Pars, c: State, fifo: seq<Frame>, sid: nat, body: Bytes)
    requires ParsOk(pars) && Good(pars, c, fifo) && Enabled(pars, c, Open(sid, body))
    ensures Good(pars, Next(pars, c, Open(sid, body)), fifo + [OpenFrame(pars(sid), body)])
  {
    var f := OpenFrame(pars(sid), body);
    var c' := Next(pars, c, Open(sid, body));
    ParsAt(pars, sid);
    OpenShape(pars, c, fifo, sid, body);
    assert StreamsGood(pars, c', fifo + [f]) by {
      forall id | id in c'.senders && id in c'.receivers ensures StreamGood(pars, c', fifo + [f], id) {
        OpenOne(pars, c, fifo, sid, body, id);
      }
    }
  }

  lemma AnswerOne(pars: Pars, c: State, fifo: seq<Frame>, sid: nat, id: nat)
    requires Shape(c, fifo) && Enabled(pars, c, Answer(sid)) && ParamsOk(pars(sid))
    requires id == sid || (id in c.senders && id in c.receivers && StreamGood(pars, c, fifo, id))
    ensures StreamGood(pars, Next(pars, c, Answer(sid)), fifo, id)
  {
    var c' := Next(pars, c, Answer(sid));
    if id == sid {
      UnknownHasNoFrames(fifo, c.senders.Keys, sid);
      Proofs.StartBackInv(pars(sid));
      Reasons.StartWhy(pars(sid), []);
      assert View(c', fifo, sid) == StartBack();
    } else {
      Untouched(pars, c, fifo, c', fifo, id);
    }
  }

  lemma AnswerShape(pars: Pars, c: State, fifo: seq<Frame>, sid: nat)
    requires Shape(c, fifo) && Enabled(pars, c, Answer(sid))
    ensures Shape(Next(pars, c, Answer(sid)), fifo)
  {
  }

  lemma AnswerKeepsGood(pars: Pars, c: State, fifo: seq<Frame>, sid: nat)
    requires ParsOk(pars) && Good(pars, c, fifo) && Enabled(pars, c, Answer(sid))
    ensures Good(pars, Next(pars, c, Answer(sid)), fifo)
  {
    var c' := Next(pars, c, Answer(sid));
    ParsAt(pars, sid);
    AnswerShape(pars, c, fifo, sid);
    assert StreamsGood(pars, c', fifo) by {
      forall id | id in c'.senders && id in c'.receivers ensures StreamGood(pars, c', fifo, id) {
        AnswerOne(pars, c, fifo, sid, id);
      }
    }
  }

  lemma {:induction false} UnknownHasNoFrames(fifo: seq<Frame>, known: set<nat>, sid: nat)
    requires forall i :: 0 <= i < |fifo| && OfStream(fifo[i]) ==> fifo[i].sid in known
    requires sid !in known
    ensures Of(fifo, sid) == []
  {
    if fifo != [] {
      UnknownHasNoFrames(fifo[1..], known, sid);
    }
  }

  lemma NoiseKeepsGood(pars: Pars, c: State, fifo: seq<Frame>, f: Frame)
    requires Good(pars, c, fifo) && Enabled(pars, c, Noise(f))
    ensures Good(pars, Next(pars, c, Noise(f)), fifo + [f])
  {
    var c' := Next(pars, c, Noise(f));
    QueueingCarries(c, fifo, [f]);
    forall id | id in c'.senders && id in c'.receivers ensures StreamGood(pars, c', fifo + [f], id) {
      OfAppend(fifo, [f], id);
      OfOne(f, id);
      assert Of(fifo, id) + [] == Of(fifo, id);
      Untouched(pars, c, fifo, c', fifo + [f], id);
    }
  }

  lemma MovingKeepsGood(pars: Pars, c: State, fifo: seq<Frame>, a: Action)
    requires Good(pars, c, fifo) && Enabled(pars, c, a) && (a.WriteOut? || a.Land?)
    ensures Good(pars, Next(pars, c, a), fifo)
  {
    MovingCarries(pars, c, fifo, a);
    var c' := Next(pars, c, a);
    forall id | id in c'.senders && id in c'.receivers ensures StreamGood(pars, c', fifo, id) {
      Untouched(pars, c, fifo, c', fifo, id);
    }
  }

  lemma ReadingOne(pars: Pars, c: State, fifo: seq<Frame>, accept: bool, id: nat)
    requires id in c.senders && id in c.receivers && StreamGood(pars, c, fifo, id) && ParamsOk(pars(id))
    requires Enabled(pars, c, ReadFrame(accept)) && fifo != []
    requires FrontFrame(c.arrived).Item? && FrontFrame(c.arrived).value == fifo[0]
    ensures StreamGood(pars, Next(pars, c, ReadFrame(accept)), fifo[1..], id)
  {
    var f := fifo[0];
    var c' := Next(pars, c, ReadFrame(accept));
    var st := View(c, fifo, id);
    if f.sid == id && OfStream(f) {
      assert st.pipe == [f] + Of(fifo[1..], id);
      StreamStep(pars(id), st, Arrive(accept));
      assert View(c', fifo[1..], id) == Transport.Next(pars(id), st, Arrive(accept));
    } else {
      assert [] + Of(fifo[1..], id) == Of(fifo[1..], id);
      Untouched(pars, c, fifo, c', fifo[1..], id);
    }
  }

  lemma ReadingShape(pars: Pars, c: State, fifo: seq<Frame>, accept: bool)
    requires Shape(c, fifo) && Enabled(pars, c, ReadFrame(accept))
    requires fifo != [] && FrontFrame(c.arrived) == Item(fifo[0], |Encode(fifo[0])|) && |Encode(fifo[0])| <= |c.arrived|
    requires Carried(c.(arrived := c.arrived[|Encode(fifo[0])|..]), fifo[1..])
    ensures Shape(Next(pars, c, ReadFrame(accept)), fifo[1..])
  {
  }

  lemma ReadingKeepsGood(pars: Pars, c: State, fifo: seq<Frame>, accept: bool)
    requires ParsOk(pars) && Good(pars, c, fifo) && Enabled(pars, c, ReadFrame(accept))
    ensures fifo != [] && Good(pars, Next(pars, c, ReadFrame(accept)), fifo[1..])
  {
    ReadingCarries(c, fifo);
    ReadingShape(pars, c, fifo, accept);
    assert StreamsGood(pars, Next(pars, c, ReadFrame(accept)), fifo[1..]) by {
      var c' := Next(pars, c, ReadFrame(accept));
      forall id | id in c'.senders && id in c'.receivers ensures StreamGood(pars, c', fifo[1..], id) {
        ParsAt(pars, id);
        ReadingOne(pars, c, fifo, accept, id);
      }
    }
  }

  lemma ReceivingOne(pars: Pars, c: State, fifo: seq<Frame>, sid: nat, ra: RecvAct, id: nat)
    requires id in c.senders && id in c.receivers && StreamGood(pars, c, fifo, id) && ParamsOk(pars(id))
    requires Enabled(pars, c, Receiving(sid, ra))
    ensures StreamGood(pars, Next(pars, c, Receiving(sid, ra)), fifo, id)
  {
    var c' := Next(pars, c, Receiving(sid, ra));
    if id == sid {
      StreamStep(pars(sid), View(c, fifo, sid), Recv(ra));
      assert View(c', fifo, sid) == Transport.Next(pars(sid), View(c, fifo, sid), Recv(ra));
    } else {
      Untouched(pars, c, fifo, c', fifo, id);
    }
  }

  lemma ReceivingShape(c: State, fifo: seq<Frame>, sid: nat, r: Receiver)
    requires Shape(c, fifo) && sid in c.receivers
    ensures Shape(c.(receivers := c.receivers[sid := r]), fifo)
  {
  }

  lemma ReceivingKeepsGood(pars: Pars, c: State, fifo: seq<Frame>, sid: nat, ra: RecvAct)
    requires ParsOk(pars) && Good(pars, c, fifo) && Enabled(pars, c, Receiving(sid, ra))
    ensures Good(pars, Next(pars, c, Receiving(sid, ra)), fifo)
  {
    var c' := Next(pars, c, Receiving(sid, ra));
    ReceivingShape(c, fifo, sid, c'.receivers[sid]);
    assert c' == c.(receivers := c.receivers[sid := c'.receivers[sid]]);
    assert StreamsGood(pars, c', fifo) by {
      forall id | id in c'.senders && id in c'.receivers ensures StreamGood(pars, c', fifo, id) {
        ParsAt(pars, id);
        ReceivingOne(pars, c, fifo, sid, ra, id);
      }
    }
  }

  lemma StepKeepsGood(pars: Pars, c: State, fifo: seq<Frame>, a: Action) returns (fifo': seq<Frame>)
    requires ParsOk(pars) && Good(pars, c, fifo) && Enabled(pars, c, a)
    ensures Good(pars, Next(pars, c, a), fifo')
  {
    match a {
      case Open(sid, body) =>
        OpenKeepsGood(pars, c, fifo, sid, body);
        fifo' := fifo + [OpenFrame(pars(sid), body)];
      case Answer(sid) =>
        AnswerKeepsGood(pars, c, fifo, sid);
        fifo' := fifo;
      case Sending(sid, sa) =>
        SendingKeepsGood(pars, c, fifo, sid, sa);
        fifo' := fifo + SendNext(pars(sid), c.senders[sid], sa).1;
      case Noise(f) =>
        NoiseKeepsGood(pars, c, fifo, f);
        fifo' := fifo + [f];
      case WriteOut(_) =>
        MovingKeepsGood(pars, c, fifo, a);
        fifo' := fifo;
      case Land(_) =>
        MovingKeepsGood(pars, c, fifo, a);
        fifo' := fifo;
      case ReadFrame(accept) =>
        ReadingKeepsGood(pars, c, fifo, accept);
        fifo' := fifo[1..];
      case Receiving(sid, ra) =>
        ReceivingKeepsGood(pars, c, fifo, sid, ra);
        fifo' := fifo;
    }
  }

  lemma {:induction false} RunKeepsGood(pars: Pars, c: State, fifo: seq<Frame>, acts: seq<Action>)
    returns (fifo': seq<Frame>)
    requires ParsOk(pars) && Good(pars, c, fifo) && Runs(pars, c, acts)
    ensures Good(pars, Exec(pars, c, acts), fifo')
    decreases |acts|
  {
    if acts == [] {
      fifo' := fifo;
    } else {
      var mid := StepKeepsGood(pars, c, fifo, acts[0]);
      fifo' := RunKeepsGood(pars, Next(pars, c, acts[0]), mid, acts[1..]);
    }
  }

  /** End-to-end stream refinement. Over every run of either direction of a session, with
      any number of interleaved streams, opened by either end, any writer batching, any
      arrival pattern and any outcome of the sniff, the reader never rejects a frame, the
      bytes handed to the app on a stream are a prefix of what the other end wrote on it,
      and once the FIN was processed with the app still attached they are equal. */
  lemma EndToEnd(pars: Pars, acts: seq<Action>)
    requires ParsOk(pars) && Runs(pars, Init(), acts)
    ensures var c := Exec(pars, Init(), acts);
            && !c.dead
            && forall sid :: sid in c.receivers && c.receivers[sid].Receiver? ==>
                 && sid in c.senders
                 && c.receivers[sid].delivered <= c.senders[sid].written
                 && (c.receivers[sid].stage.SawEof? && c.receivers[sid].attached ==>
                       c.receivers[sid].delivered == c.senders[sid].written && c.senders[sid].shut)
  {
    assert Good(pars, Init(), []);
    var fifo := RunKeepsGood(pars, Init(), [], acts);
    var c := Exec(pars, Init(), acts);
    forall sid | sid in c.receivers && c.receivers[sid].Receiver?
      ensures sid in c.senders
      ensures c.receivers[sid].delivered <= c.senders[sid].written
      ensures c.receivers[sid].stage.SawEof? && c.receivers[sid].attached ==>
                c.receivers[sid].delivered == c.senders[sid].written && c.senders[sid].shut
    {
      assert StreamGood(pars, c, fifo, sid);
      ParsAt(pars, sid);
      Proofs.InvMeansPrefix(pars(sid), View(c, fifo, sid));
    }
  }

  lemma {:induction false} SenderAborted(pars: Pars, c: State, acts: seq<Action>, sid: nat)
    requires Runs(pars, c, acts) && sid in Exec(pars, c, acts).senders && Exec(pars, c, acts).senders[sid].over.Aborted?
    requires !(sid in c.senders && c.senders[sid].over.Aborted?)
    ensures Sending(sid, SendAbort) in acts
    decreases |acts|
  {
    var c' := Next(pars, c, acts[0]);
    if !(sid in c'.senders && c'.senders[sid].over.Aborted?) {
      SenderAborted(pars, c', acts[1..], sid);
    }
  }

  lemma {:induction false} ReceiverQuit(pars: Pars, c: State, acts: seq<Action>, sid: nat)
    requires Runs(pars, c, acts) && sid in Exec(pars, c, acts).receivers
    requires Exec(pars, c, acts).receivers[sid].Receiver? && Exec(pars, c, acts).receivers[sid].quit
    requires !(sid in c.receivers && c.receivers[sid].Receiver? && c.receivers[sid].quit)
    ensures Receiving(sid, LocalAbort) in acts
    decreases |acts|
  {
    var c' := Next(pars, c, acts[0]);
    if !(sid in c'.receivers && c'.receivers[sid].Receiver? && c'.receivers[sid].quit) {
      ReceiverQuit(pars, c', acts[1..], sid);
    }
  }

  /** A stream stops only for a reason: over every run, if an inbound pump has stopped
      short of the end, one of the two ends has aborted the stream. Neither the cap on
      decompressed output nor anything another stream does ever stops it. */
  lemma StopsForAReason(pars: Pars, acts: seq<Action>, sid: nat)
    requires ParsOk(pars) && Runs(pars, Init(), acts) && sid in Exec(pars, Init(), acts).receivers
    requires Exec(pars, Init(), acts).receivers[sid].Receiver? && Exec(pars, Init(), acts).receivers[sid].stage.Stopped?
    ensures Sending(sid, SendAbort) in acts || Receiving(sid, LocalAbort) in acts
  {
    assert Good(pars, Init(), []);
    var fifo := RunKeepsGood(pars, Init(), [], acts);
    var c := Exec(pars, Init(), acts);
    assert StreamGood(pars, c, fifo, sid);
    if c.senders[sid].over.Aborted? {
      SenderAborted(pars, Init(), acts, sid);
    } else {
      ReceiverQuit(pars, Init(), acts, sid);
    }
  }
}
