/**
 The code the credit actions stand for: the counters of one stream as the object
 the tasks share, and the outbound pump's two ways of sending one chunk.
 */
module CreditTasks {
  import opened Credits
  import opened Windows

  datatype Grant = Wait | Got(take: nat)

  /** The atomic counters of one stream. */
  class StreamInner {
    var credits: int
    var pendingCredit: nat
    var granted: nat
    var consumedSinceGrow: nat

    constructor (peerWindow: nat, rxWindow: nat)
      ensures credits == peerWindow && granted == rxWindow
      ensures pendingCredit == 0 && consumedSinceGrow == 0
    {
      credits := peerWindow;
      pendingCredit := 0;
      granted := rxWindow;
      consumedSinceGrow := 0;
    }

    /** This object is the sending end of the direction in state `s`. */
    ghost predicate Sends(s: State)
      reads this`credits
    {
      credits == s.credits
    }

    /** This object is the receiving end of the direction in state `s`. */
    ghost predicate Receives(s: State)
      reads this
    {
      pendingCredit == s.pending && granted == s.granted && consumedSinceGrow == s.sinceGrow
    }

    /** One pass of `acquire_credits`. It parks exactly when there is no credit,
        and otherwise takes all it wants or all there is. */
    method AcquireCredits(ghost c: Config, ghost s: State, want: nat) returns (r: Grant)
      requires Sends(s) && s.pump.Charging? && want > 0 && want == s.pump.k.n - s.pump.k.charged
      modifies this`credits
      ensures r.Wait? <==> old(credits) <= 0
      ensures r.Wait? ==> Sends(s)
      ensures r.Got? ==> Sends(Next(c, s, Acquire(old(credits))))
      ensures r.Got? ==> 1 <= r.take <= want && (r.take == want || credits == 0)
    {
      var c := credits;
      if c > 0 {
        var take := Take(c, want);
        credits := credits - take;
        return Got(take);
      }
      return Wait;
    }

    /** The inbound pump's `fetch_add` on a delivered chunk. */
    method AddPending(ghost c: Config, ghost s: State, n: nat, threshold: nat) returns (drain: bool)
      requires Receives(s) && s.recv == Crediting(n) && threshold == GrantThreshold(c.rxWindow)
      modifies this`pendingCredit
      ensures Receives(Next(c, s, Action.AddPending))
      ensures drain <==> Next(c, s, Action.AddPending).recv.Draining?
      ensures pendingCredit == (old(pendingCredit) + n) % 0x1_0000_0000
      ensures drain <==> pendingCredit >= 16384 && 4 * pendingCredit + 3 >= c.rxWindow
    {
      pendingCredit := Wrap32(pendingCredit + n);
      drain := pendingCredit >= threshold;
      ThresholdIs(c.rxWindow, pendingCredit);
    }

    /** `swap(0)`, by the pump, the ticker or the closing pump. */
    method SwapPending() returns (drained: nat)
      modifies this`pendingCredit
      ensures drained == old(pendingCredit) && pendingCredit == 0
    {
      drained := pendingCredit;
      pendingCredit := 0;
    }

    /** Put back what a full writer queue refused. */
    method Restore(delta: nat)
      modifies this`pendingCredit
      ensures pendingCredit == Wrap32(old(pendingCredit) + delta)
    {
      pendingCredit := Wrap32(pendingCredit + delta);
    }

    /** One turn of the credit ticker on this stream; `queued` says whether the
        writer accepted the frame. Nothing is lost either way. */
    method Tick(queued: bool) returns (sent: nat)
      requires pendingCredit < U32
      modifies this`pendingCredit
      ensures sent + pendingCredit == old(pendingCredit)
      ensures sent == if queued then old(pendingCredit) else 0
    {
      var pending := SwapPending();
      if pending > 0 && !queued {
        Restore(pending);
        sent := 0;
      } else {
        sent := pending;
      }
    }

    /** `maybe_grow_window`. */
    method MaybeGrowWindow(ghost c: Config, ghost s: State, rxWindowMax: nat, elapsed: bool) returns (bonus: nat)
      requires Receives(s) && s.recv.Growing? && rxWindowMax == c.rxWindowMax
      modifies this`granted, this`consumedSinceGrow
      ensures Receives(Next(c, s, Grow(elapsed)))
      ensures Next(c, s, Grow(elapsed)).recv == if bonus > 0 then Bonusing(bonus) else Idle
      ensures granted == old(granted) + bonus
      ensures bonus > 0 <==>
                elapsed && 0 < old(granted) < rxWindowMax && 2 * old(consumedSinceGrow) + 1 >= old(granted)
      ensures bonus > 0 ==> granted == Min(2 * old(granted), rxWindowMax) && consumedSinceGrow == 0
      ensures bonus == 0 ==> consumedSinceGrow == old(consumedSinceGrow)
    {
      bonus := 0;
      if granted >= rxWindowMax {
        return;
      }
      if consumedSinceGrow < granted / 2 {
        return;
      }
      if !elapsed {
        return;
      }
      bonus := Min(granted, rxWindowMax - granted);
      if bonus == 0 {
        return;
      }
      granted := granted + bonus;
      consumedSinceGrow := 0;
    }
  }

  /** What the outbound pump does for one chunk, in order. */
  datatype Event = Charge(got: nat) | Frame(off: nat, len: nat)

  /** A chunk of `n` logical and `wlen` wire bytes to be sent in frames of at most
      `maxData`; `loads` are the credit values that successive calls of
      `acquire_credits` see before the session closes. */
  datatype Job = Job(n: nat, wlen: nat, maxData: nat, loads: seq<nat>)

  predicate JobOk(j: Job) {
    && j.n > 0 && j.wlen > 0 && j.maxData > 0
    && forall i :: 0 <= i < |j.loads| ==> j.loads[i] > 0
  }

  /** What the pump of the protocol has done once it is through with the chunk or
      out of session, if it did `es` so far, stands at `p`, and `next` calls of
      `acquire_credits` have returned. */
  function PumpTrace(j: Job, p: Pump, next: nat, es: seq<Event>): seq<Event>
    requires JobOk(j)
    decreases |j.loads| - next, if p.Sending? then p.k.wlen - p.k.off else 0
  {
    match p
    case Charging(k) =>
      if next >= |j.loads| then es
      else
        var got := Take(j.loads[next], Max(k.n - k.charged, 0));
        PumpTrace(j, Charged(k, j.loads[next]), next + 1, es + [Charge(got)])
    case Sending(k) =>
      if k.off >= k.wlen then es
      else
        var take := FrameLen(j.maxData, k.wlen, k.off);
        PumpTrace(j, Sent(j.maxData, k, 0), next, es + [Frame(k.off, take)])
    case _ => es
  }

  /** The chunk of job `j` with `off` bytes framed and `charged` bytes paid. */
  function At(j: Job, off: nat, charged: nat): Chunk { Chunk(j.n, j.wlen, off, charged, 0) }

  /** The pump's whole treatment of the chunk. */
  function ChunkTrace(j: Job): seq<Event>
    requires JobOk(j)
  {
    PumpTrace(j, Charging(At(j, 0, 0)), 0, [])
  }

  function Charges(es: seq<Event>): nat {
    if es == [] then 0
    else Charges(es[..|es| - 1]) + (if es[|es| - 1].Charge? then es[|es| - 1].got else 0)
  }

  /** How many wire bytes the frames of `es` tile, without gap or overlap. */
  function Tiled(es: seq<Event>): int {
    if es == [] then 0
    else
      var e, sofar := es[|es| - 1], Tiled(es[..|es| - 1]);
      if e.Charge? then sofar else if e.off == sofar then sofar + e.len else -1
  }

  /** The chunk was paid in full and framed in full, in frames within the cap. */
  predicate Complete(j: Job, es: seq<Event>) {
    && Charges(es) == j.n && Tiled(es) == j.wlen
    && forall i :: 0 <= i < |es| ==> es[i].Frame? ==> 1 <= es[i].len <= j.maxData
  }

  /** `es` paid and framed exactly what chunk `k` records. */
  predicate Accounts(j: Job, k: Chunk, es: seq<Event>) {
    && k.n == j.n && k.wlen == j.wlen && k.off <= k.wlen && k.charged <= k.n
    && Charges(es) == k.charged && Tiled(es) == k.off
    && forall i :: 0 <= i < |es| ==> es[i].Frame? ==> 1 <= es[i].len <= j.maxData
  }

  lemma Extends(j: Job, k: Chunk, es: seq<Event>, e: Event)
    requires JobOk(j) && Accounts(j, k, es)
    requires match e
             case Charge(got) => k.charged + got <= k.n
             case Frame(off, len) => off == k.off && 1 <= len <= j.maxData && off + len <= k.wlen
    ensures Accounts(j, if e.Charge? then k.(charged := k.charged + e.got) else k.(off := k.off + e.len), es + [e])
  {
    assert (es + [e])[..|es|] == es;
  }

  /** A chunk whose payment finishes is framed exactly once, byte for byte; a pump
      that ran out of session never overcharged and never framed past what it had. */
  lemma {:induction false} TraceAccounts(j: Job, p: Pump, next: nat, es: seq<Event>)
    requires JobOk(j) && (p.Charging? || p.Sending?) && Accounts(j, p.k, es)
    requires p.Charging? ==> p.k.charged < p.k.n
    requires p.Sending? ==> p.k.off < p.k.wlen
    ensures var r := PumpTrace(j, p, next, es);
            && Charges(r) <= j.n && 0 <= Tiled(r) <= j.wlen
            && (Complete(j, r) <==> Charges(r) == j.n)
    decreases |j.loads| - next, if p.Sending? then p.k.wlen - p.k.off else 0
  {
    if p.Charging? && next >= |j.loads| {
      return;
    }
    var e := if p.Charging? then Charge(Take(j.loads[next], p.k.n - p.k.charged))
             else Frame(p.k.off, FrameLen(j.maxData, p.k.wlen, p.k.off));
    var es' := es + [e];
    Extends(j, p.k, es, e);
    var p' := if p.Charging? then Charged(p.k, j.loads[next]) else Sent(j.maxData, p.k, 0);
    if p'.Charging? || p'.Sending? {
      TraceAccounts(j, p', if p.Charging? then next + 1 else next, es');
    }
  }

  /** Paying for the chunk in full is what completes it. */
  lemma PaidMeansComplete(j: Job)
    requires JobOk(j)
    ensures Complete(j, ChunkTrace(j)) <==> Charges(ChunkTrace(j)) == j.n
  {
    TraceAccounts(j, Charging(At(j, 0, 0)), 0, []);
  }

  lemma ChargesAppend(es: seq<Event>, e: Event)
    ensures Charges(es + [e]) == Charges(es) + (if e.Charge? then e.got else 0)
  {
    assert (es + [e])[..|es|] == es;
  }

  /** A method that did `es`, paid `charged` bytes and stands at `p` is on course. */
  predicate OnCourse(j: Job, p: Pump, charged: nat, next: nat, es: seq<Event>)
    requires JobOk(j)
  {
    charged <= j.n && next <= |j.loads| && Charges(es) == charged && ChunkTrace(j) == PumpTrace(j, p, next, es)
  }

  lemma PayOne(j: Job, off: nat, charged: nat, next: nat, es: seq<Event>)
    requires JobOk(j) && charged < j.n && next < |j.loads|
    requires OnCourse(j, Charging(At(j, off, charged)), charged, next, es)
    ensures var got := Take(j.loads[next], j.n - charged);
            var k := At(j, off, charged + got);
            && charged + got <= j.n
            && (off < j.wlen ==> OnCourse(j, Sending(k), charged + got, next + 1, es + [Charge(got)]))
            && (off >= j.wlen ==> OnCourse(j, Resume(k), charged + got, next + 1, es + [Charge(got)]))
  {
    ChargesAppend(es, Charge(Take(j.loads[next], j.n - charged)));
  }

  lemma FrameOne(j: Job, off: nat, charged: nat, next: nat, es: seq<Event>)
    requires JobOk(j) && off < j.wlen && OnCourse(j, Sending(At(j, off, charged)), charged, next, es)
    ensures var take := FrameLen(j.maxData, j.wlen, off);
            OnCourse(j, Resume(At(j, off + take, charged)), charged, next, es + [Frame(off, take)])
  {
    ChargesAppend(es, Frame(off, FrameLen(j.maxData, j.wlen, off)));
  }

  /** Nothing left to do, or no session to do it in. */
  lemma Arrived(j: Job, off: nat, charged: nat, next: nat, es: seq<Event>)
    requires JobOk(j) && OnCourse(j, Resume(At(j, off, charged)), charged, next, es)
    requires (off == j.wlen && charged == j.n) || (charged < j.n && next == |j.loads|)
    ensures es == ChunkTrace(j) && (Complete(j, es) <==> charged == j.n)
  {
    PaidMeansComplete(j);
  }

  /** A turn that frames without paying. */
  lemma FrameTurn(j: Job, off: nat, next: nat, es: seq<Event>)
    requires JobOk(j) && off < j.wlen && OnCourse(j, Resume(At(j, off, j.n)), j.n, next, es)
    ensures var take := FrameLen(j.maxData, j.wlen, off);
            OnCourse(j, Resume(At(j, off + take, j.n)), j.n, next, es + [Frame(off, take)])
  {
    FrameOne(j, off, j.n, next, es);
  }

  /** A turn that pays and then frames. */
  lemma PayAndFrameTurn(j: Job, off: nat, charged: nat, next: nat, es: seq<Event>)
    requires JobOk(j) && off < j.wlen && charged < j.n && next < |j.loads|
    requires OnCourse(j, Resume(At(j, off, charged)), charged, next, es)
    ensures var got, take := Take(j.loads[next], j.n - charged), FrameLen(j.maxData, j.wlen, off);
            OnCourse(j, Resume(At(j, off + take, charged + got)), charged + got, next + 1,
                     es + [Charge(got)] + [Frame(off, take)])
  {
    PayOne(j, off, charged, next, es);
    var got := Take(j.loads[next], j.n - charged);
    FrameOne(j, off, charged + got, next + 1, es + [Charge(got)]);
  }

  /** The slow path: a chunk larger than one frame. */
  method SendSplit(j: Job) returns (es: seq<Event>, ok: bool)
    requires JobOk(j)
    ensures es == ChunkTrace(j)
    ensures ok <==> Complete(j, es)
  {
    var off: nat, charged: nat, next: nat := 0, 0, 0;
    es, ok := [], true;
    while ok && (off < j.wlen || charged < j.n)
      invariant off <= j.wlen
      invariant OnCourse(j, Resume(At(j, off, charged)), charged, next, es)
      invariant !ok ==> charged < j.n && next == |j.loads|
      decreases ok, |j.loads| - next, j.wlen - off
    {
      if charged < j.n {
        if next == |j.loads| {
          ok := false;
        } else {
          if off < j.wlen {
            PayAndFrameTurn(j, off, charged, next, es);
          } else {
            PayOne(j, off, charged, next, es);
          }
          var got := Take(j.loads[next], j.n - charged);
          charged, next, es := charged + got, next + 1, es + [Charge(got)];
        }
      } else {
        FrameTurn(j, off, next, es);
      }
      if ok && off < j.wlen {
        var take := FrameLen(j.maxData, j.wlen, off);
        off, es := off + take, es + [Frame(off, take)];
      }
    }
    Arrived(j, off, charged, next, es);
  }

  /** The fast path: the whole chunk fits one frame. Charge what there is, send the
      frame, then charge the rest. It does exactly what the split loop does. */
  method SendWhole(j: Job) returns (es: seq<Event>, ok: bool)
    requires JobOk(j) && j.wlen <= j.maxData
    ensures es == ChunkTrace(j)
    ensures ok <==> Complete(j, es)
  {
    es, ok := [], true;
    if j.loads == [] {
      Arrived(j, 0, 0, 0, es);
      ok := false;
      return;
    }
    PayOne(j, 0, 0, 0, es);
    var charged: nat, next: nat := Take(j.loads[0], j.n), 1;
    es := es + [Charge(charged)];
    FrameOne(j, 0, charged, next, es);
    es := es + [Frame(0, j.wlen)];
    while charged < j.n
      invariant OnCourse(j, Resume(At(j, j.wlen, charged)), charged, next, es)
      decreases |j.loads| - next
    {
      if next == |j.loads| {
        Arrived(j, j.wlen, charged, next, es);
        ok := false;
        return;
      }
      PayOne(j, j.wlen, charged, next, es);
      var got := Take(j.loads[next], j.n - charged);
      charged, next, es := charged + got, next + 1, es + [Charge(got)];
    }
    Arrived(j, j.wlen, charged, next, es);
  }
}
