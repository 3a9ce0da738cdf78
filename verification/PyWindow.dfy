/**
 Flow control of the Python SDK, which charges before it sends: the strict window,
 and the lazily compacted receive buffer.
 */
module PyWindow {
  import opened Bytes
  import opened Windows

  const MAX_CHUNK: nat := 65536

  /** One direction of one uncompressed stream between two such endpoints. The
      `...Held` fields are amounts a coroutine holds across an await: a charged piece
      not yet queued, a grant being sent by a reader, a grant being sent by the ticker. */
  datatype State = State(
    credits: nat,
    pieceHeld: nat,
    wire: seq<nat>,
    buffered: nat,
    pending: nat,
    grantHeld: nat,
    tickHeld: nat,
    windows: seq<nat>)

  function Init(rxWindow: nat): State { State(ClampWindow(rxWindow), 0, [], 0, 0, 0, 0, []) }

  datatype Action =
    | Acquire(want: nat)
    | QueuePiece
    | DeliverData
    | Read(n: nat)
    | GrantSent
    | GrantFailed
    | TickTake
    | TickSent
    | TickFailed
    | DeliverWindow

  predicate Enabled(s: State, a: Action) {
    match a
    case Acquire(want) => s.credits > 0 && s.pieceHeld == 0 && 1 <= want <= MAX_CHUNK
    case QueuePiece => s.pieceHeld > 0
    case DeliverData => s.wire != []
    case Read(n) => 1 <= n <= s.buffered && s.grantHeld == 0
    case GrantSent => s.grantHeld > 0
    case GrantFailed => s.grantHeld > 0
    case TickTake => s.tickHeld == 0 && s.pending > 0
    case TickSent => s.tickHeld > 0
    case TickFailed => s.tickHeld > 0
    case DeliverWindow => s.windows != []
  }

  function Next(rxWindow: nat, s: State, a: Action): State
    requires Enabled(s, a)
  {
    match a
    case Acquire(want) =>
      var take := Min(s.credits, want);
      s.(credits := s.credits - take, pieceHeld := take)
    case QueuePiece => s.(pieceHeld := 0, wire := s.wire + [s.pieceHeld])
    case DeliverData => s.(wire := s.wire[1..], buffered := s.buffered + s.wire[0])
    case Read(n) =>
      var p := s.pending + n;
      if p < GrantThreshold(rxWindow) then s.(buffered := s.buffered - n, pending := p)
      else s.(buffered := s.buffered - n, pending := 0, grantHeld := p)
    case GrantSent => s.(grantHeld := 0, windows := s.windows + [s.grantHeld])
    case GrantFailed => s.(grantHeld := 0, pending := s.pending + s.grantHeld)
    case TickTake => s.(tickHeld := s.pending, pending := 0)
    case TickSent => s.(tickHeld := 0, windows := s.windows + [s.tickHeld])
    case TickFailed => s.(tickHeld := 0, pending := s.pending + s.tickHeld)
    case DeliverWindow => s.(credits := s.credits + s.windows[0], windows := s.windows[1..])
  }

  predicate Runs(rxWindow: nat, s: State, acts: seq<Action>)
    decreases |acts|
  {
    acts == [] || (Enabled(s, acts[0]) && Runs(rxWindow, Next(rxWindow, s, acts[0]), acts[1..]))
  }

  function Exec(rxWindow: nat, s: State, acts: seq<Action>): State
    requires Runs(rxWindow, s, acts)
    decreases |acts|
  {
    if acts == [] then s else Exec(rxWindow, Next(rxWindow, s, acts[0]), acts[1..])
  }

  /** Every byte of the window: credit, data in either endpoint or between them, and
      credit on its way back. */
  function Everywhere(s: State): nat {
    s.credits + s.pieceHeld + Total(s.wire) + s.buffered + s.pending + s.grantHeld + s.tickHeld + Total(s.windows)
  }

  lemma StepConserves(rxWindow: nat, s: State, a: Action)
    requires Enabled(s, a)
    ensures Everywhere(Next(rxWindow, s, a)) == Everywhere(s)
  {
    match a {
      case QueuePiece => TotalAppend(s.wire, s.pieceHeld);
      case GrantSent => TotalAppend(s.windows, s.grantHeld);
      case TickSent => TotalAppend(s.windows, s.tickHeld);
      case _ =>
    }
  }

  lemma {:induction false} RunConserves(rxWindow: nat, s: State, acts: seq<Action>)
    requires Runs(rxWindow, s, acts)
    ensures Everywhere(Exec(rxWindow, s, acts)) == Everywhere(s)
    decreases |acts|
  {
    if acts != [] {
      StepConserves(rxWindow, s, acts[0]);
      RunConserves(rxWindow, Next(rxWindow, s, acts[0]), acts[1..]);
    }
  }

  /** What follows when the parts sum to the clamped window. */
  lemma PartsOfWindow(rxWindow: nat, s: State)
    requires Everywhere(s) == ClampWindow(rxWindow)
    ensures Everywhere(s) == rxWindow <==> 16384 <= rxWindow <= 268435456
    ensures s.buffered <= ClampWindow(rxWindow) && s.grantHeld + s.tickHeld + s.pending < 0x1_0000_0000
    ensures s.credits == 0 ==> Everywhere(s) - s.credits > 0
  {
  }

  /** The strict window: over every run the parts sum to the clamped window, so the
      receive buffer never exceeds it; it is the advertised window if and only if
      that is within the clamp; and the sender is never out of credit with nothing
      under way. */
  lemma StrictWindow(rxWindow: nat, acts: seq<Action>)
    requires Runs(rxWindow, Init(rxWindow), acts)
    ensures var s := Exec(rxWindow, Init(rxWindow), acts);
            && Everywhere(s) == ClampWindow(rxWindow)
            && (Everywhere(s) == rxWindow <==> 16384 <= rxWindow <= 268435456)
            && 16384 <= Everywhere(s) <= 268435456
            && s.buffered <= ClampWindow(rxWindow)
            && s.grantHeld + s.tickHeld + s.pending < 0x1_0000_0000
            && (s.credits == 0 ==> Everywhere(s) - s.credits > 0)
  {
    RunConserves(rxWindow, Init(rxWindow), acts);
    PartsOfWindow(rxWindow, Exec(rxWindow, Init(rxWindow), acts));
    ClampIs(rxWindow);
  }

  /** Amounts on their way are positive. */
  predicate Positive(s: State) {
    && (forall i :: 0 <= i < |s.wire| ==> s.wire[i] > 0)
    && (forall i :: 0 <= i < |s.windows| ==> s.windows[i] > 0)
  }

  lemma {:induction false} RunKeepsPositive(rxWindow: nat, s: State, acts: seq<Action>)
    requires Positive(s) && Runs(rxWindow, s, acts)
    ensures Positive(Exec(rxWindow, s, acts))
    decreases |acts|
  {
    if acts != [] {
      RunKeepsPositive(rxWindow, Next(rxWindow, s, acts[0]), acts[1..]);
    }
  }

  /** The step that brings a sender without credit closer to the next. */
  function Feeding(s: State): Action {
    if s.windows != [] then DeliverWindow
    else if s.tickHeld > 0 then TickSent
    else if s.grantHeld > 0 then GrantSent
    else if s.pending > 0 then TickTake
    else if s.buffered > 0 then Read(s.buffered)
    else if s.wire != [] then DeliverData
    else QueuePiece
  }

  function Distance(s: State): nat {
    if s.windows != [] then 0
    else if s.tickHeld > 0 || s.grantHeld > 0 then 1
    else if s.pending > 0 then 2
    else if s.buffered > 0 then 3
    else if s.wire != [] then 4
    else 5
  }

  predicate NoCharging(acts: seq<Action>) { forall i :: 0 <= i < |acts| ==> !acts[i].Acquire? }

  /** The sender is always fed: a run without charging leads to credit. */
  lemma {:induction false} Fed(rxWindow: nat, s: State) returns (acts: seq<Action>)
    requires Positive(s) && Everywhere(s) > 0 && s.credits == 0
    ensures Runs(rxWindow, s, acts) && NoCharging(acts) && Exec(rxWindow, s, acts).credits > 0
    decreases Distance(s)
  {
    var a := Feeding(s);
    StepConserves(rxWindow, s, a);
    var t := Next(rxWindow, s, a);
    var rest := [];
    if s.windows == [] {
      rest := Fed(rxWindow, t);
    }
    assert Runs(rxWindow, t, rest);
    acts := [a] + rest;
    assert acts[1..] == rest;
  }

  ghost predicate CanBeFed(rxWindow: nat, s: State) {
    exists acts :: Runs(rxWindow, s, acts) && NoCharging(acts) && Exec(rxWindow, s, acts).credits > 0
  }

  /** Whatever has happened, a sender out of credit gets some from what is under way, by
      reading, granting, the ticker and the channels alone. */
  lemma SenderIsFed(rxWindow: nat, acts: seq<Action>)
    requires Runs(rxWindow, Init(rxWindow), acts) && Exec(rxWindow, Init(rxWindow), acts).credits == 0
    ensures CanBeFed(rxWindow, Exec(rxWindow, Init(rxWindow), acts))
  {
    RunConserves(rxWindow, Init(rxWindow), acts);
    RunKeepsPositive(rxWindow, Init(rxWindow), acts);
    ClampIs(rxWindow);
    var more := Fed(rxWindow, Exec(rxWindow, Init(rxWindow), acts));
  }

  /** The sender charges what it wants, up to what it has, and no more than 64 KiB. */
  lemma AcquireTakes(rxWindow: nat, s: State, want: nat)
    requires Enabled(s, Acquire(want))
    ensures var t := Next(rxWindow, s, Acquire(want));
            && 1 <= t.pieceHeld <= want <= 65536 && t.credits + t.pieceHeld == s.credits
            && (t.pieceHeld == want || t.credits == 0)
            && t == s.(credits := t.credits, pieceHeld := t.pieceHeld)
  {
  }

  /** A read returns credit at once if and only if at least 16 KiB and a quarter of the
      window, rounded down, are pending; all of it or none. */
  lemma ReadGrants(rxWindow: nat, s: State, n: nat)
    requires Enabled(s, Read(n))
    ensures var t, p := Next(rxWindow, s, Read(n)), s.pending + n;
            && t.buffered == s.buffered - n
            && (if p >= 16384 && 4 * p + 3 >= rxWindow then t.grantHeld == p && t.pending == 0
                else t.grantHeld == 0 && t.pending == p)
  {
    ThresholdIs(rxWindow, s.pending + n);
  }

  datatype Amount = All | UpTo(n: nat)

  /** Receive side of a stream: `bufOff` bytes at the front of `buf` are consumed. The
      ghost counters total the bytes consumed and the bytes moved by compaction. */
  class ReceiveBuffer {
    var buf: Bytes
    var bufOff: nat
    var pendingCredit: nat
    ghost var consumed: nat
    ghost var moved: nat

    /** At most half of the buffer is consumed, and compaction was paid for by reads. */
    ghost predicate Valid()
      reads this
    {
      && bufOff <= |buf|
      && (bufOff == 0 || 2 * bufOff < |buf|)
      && moved + bufOff <= consumed
    }

    /** The unconsumed bytes. */
    ghost function Contents(): Bytes
      reads this
      requires Valid()
    {
      buf[bufOff..]
    }

    constructor ()
      ensures Valid() && Contents() == [] && consumed == 0 && moved == 0 && pendingCredit == 0
    {
      buf, bufOff, pendingCredit, consumed, moved := [], 0, 0, 0, 0;
    }

    /** DATA arrived. */
    method HandleData(plain: Bytes)
      requires Valid()
      modifies this`buf
      ensures Valid() && Contents() == old(Contents()) + plain
    {
      buf := buf + plain;
    }

    /** Take bytes off the front. Compaction waits until the consumed prefix is at
        least half the buffer, so it never moves more bytes than were consumed. */
    method Take(amount: Amount) returns (out: Bytes)
      requires Valid()
      requires amount.UpTo? ==> amount.n > 0
      modifies this`buf, this`bufOff, this`consumed, this`moved
      ensures Valid()
      ensures old(Contents()) == out + Contents()
      ensures |out| == if amount.All? then |old(Contents())| else Min(amount.n, |old(Contents())|)
      ensures consumed == old(consumed) + |out|
      ensures moved <= consumed && |buf| <= 2 * |Contents()|
    {
      var avail := |buf| - bufOff;
      if avail == 0 {
        return [];
      }
      var n := if amount.All? || amount.n > avail then avail else amount.n;
      out := buf[bufOff..bufOff + n];
      bufOff := bufOff + n;
      consumed := consumed + n;
      if bufOff == |buf| {
        buf := [];
        bufOff := 0;
      } else if bufOff * 2 >= |buf| {
        moved := moved + (|buf| - bufOff);
        buf := buf[bufOff..];
        bufOff := 0;
      }
    }

    /** Credit on consumption: what is returned now plus what stays pending is what was
        pending plus what was consumed. */
    method GrantCredit(rxWindow: nat, n: nat) returns (delta: nat)
      modifies this`pendingCredit
      ensures delta + pendingCredit == old(pendingCredit) + n
      ensures var p := old(pendingCredit) + n;
              delta == if p >= 16384 && 4 * p + 3 >= rxWindow then p else 0
    {
      pendingCredit := pendingCredit + n;
      ThresholdIs(rxWindow, pendingCredit);
      if pendingCredit < GrantThreshold(rxWindow) {
        return 0;
      }
      delta := pendingCredit;
      pendingCredit := 0;
    }

    /** Reading one part after another: the parts are the prefix of what was buffered,
        and compaction stays linear in what was read. */
    method ReadParts(parts: seq<nat>) returns (outs: seq<Bytes>)
      requires Valid() && forall i :: 0 <= i < |parts| ==> parts[i] > 0
      modifies this`buf, this`bufOff, this`consumed, this`moved
      ensures Valid()
      ensures old(Contents()) == Concat(outs) + Contents()
      ensures consumed == old(consumed) + |Concat(outs)| && moved <= consumed
    {
      outs := [];
      var i := 0;
      while i < |parts|
        invariant 0 <= i <= |parts| && Valid()
        invariant old(Contents()) == Concat(outs) + Contents()
        invariant consumed == old(consumed) + |Concat(outs)|
      {
        ghost var before := Contents();
        var out := Take(UpTo(parts[i]));
        ConcatAppend(outs, [out]);
        ConcatOne(out);
        assert Concat(outs) + before == Concat(outs) + out + Contents();
        outs := outs + [out];
        i := i + 1;
      }
    }
  }
}
