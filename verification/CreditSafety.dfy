/**
 What every interleaving of the credit protocol keeps: credit conservation, the
 bounded debt of the sender, absence of 32-bit wrap-around and the closed form of
 window growth.
 */
module CreditSafety {
  import Bytes
  import opened Credits
  import opened Windows

  function PlainTotal(items: seq<Item>): nat {
    if items == [] then 0
    else (if items[0].Data? then items[0].plain else 0) + PlainTotal(items[1..])
  }

  lemma {:induction false} PlainTotalAppend(items: seq<Item>, i: Item)
    ensures PlainTotal(items + [i]) == PlainTotal(items) + (if i.Data? then i.plain else 0)
  {
    if items == [] {
      assert items + [i] == [i];
    } else {
      assert (items + [i])[1..] == items[1..] + [i];
      PlainTotalAppend(items[1..], i);
    }
  }

  /** Credit taken off `pending` (or granted as a bonus) but not yet sent. */
  function InHands(s: State): nat {
    (match s.recv
     case Granting(d) => d
     case Bonusing(d) => d
     case FinalTry(d) => d
     case _ => 0) +
    (if s.ticker.Holding? then s.ticker.delta else 0)
  }

  /** Decoded bytes the app has not accepted yet. */
  function BeingWritten(s: State): nat {
    match s.recv
    case Writing(d) => d
    case Crediting(d) => d
    case _ => 0
  }

  /** Logical bytes sent and not yet consumed at the receiver. */
  function Unconsumed(s: State): int { s.sent - s.consumed }

  function Doubled(w: nat, k: nat): nat { if k == 0 then w else 2 * Doubled(w, k - 1) }

  lemma {:induction false} DoubledIsPower(w: nat, k: nat)
    ensures Doubled(w, k) == w * Bytes.Pow2(k)
  {
    if k > 0 {
      DoubledIsPower(w, k - 1);
      assert w * (2 * Bytes.Pow2(k - 1)) == 2 * (w * Bytes.Pow2(k - 1));
    }
  }

  /** Every byte of credit is in exactly one place. */
  predicate Conserved(c: Config, s: State) {
    s.credits + s.charged + Total(s.windows) + InHands(s) + s.pending
    == s.granted + s.consumed + Skew(c)
  }

  /** Every sent byte is on the wire, being written, or consumed. */
  predicate DataConserved(s: State) {
    && s.sent == s.consumed + BeingWritten(s) + PlainTotal(s.wire)
    && s.decoded == s.consumed + BeingWritten(s)
  }

  predicate ChunkOk(c: Config, k: Chunk) {
    && 1 <= k.n <= DUPLEX_BUF
    && 1 <= k.wlen
    && (c.compressed ==> k.wlen <= c.maxWire)
    && k.off <= k.wlen
    && k.charged <= k.n
    && k.plain <= k.n
    && (!c.compressed ==> k.wlen == k.n && k.plain == k.off)
    && (k.off == k.wlen ==> k.plain == k.n)
    && (k.off > 0 ==> k.charged >= 1)
  }

  /** All chunks before the current one are fully paid and fully sent, and no
      frame of the current one leaves before its first byte is paid. */
  predicate PumpOk(c: Config, s: State) {
    match s.pump
    case Charging(k) =>
      && ChunkOk(c, k) && k.charged < k.n && (k.off == 0 ==> k.charged == 0 && k.plain == 0)
      && s.sent + k.charged == s.charged + k.plain
    case Sending(k) =>
      && ChunkOk(c, k) && k.off < k.wlen && k.charged >= 1
      && s.sent + k.charged == s.charged + k.plain
    case _ => s.sent == s.charged
  }

  predicate GrowthOk(c: Config, s: State) {
    && c.rxWindow <= s.granted == c.rxWindow + s.bonus <= c.rxWindowMax
    && s.granted == Min(Doubled(c.rxWindow, s.growths), c.rxWindowMax)
    && (s.growths > 0 ==> 0 < c.rxWindow && Doubled(c.rxWindow, s.growths - 1) < c.rxWindowMax)
    && s.bonus + 2 * s.sinceGrow <= 2 * s.decoded + s.growths
  }

  /** Deltas in flight are positive, so a WINDOW always wakes the sender with credit. */
  predicate DeltasOk(s: State) {
    && (forall i :: 0 <= i < |s.windows| ==> s.windows[i] > 0)
    && (s.ticker.Holding? ==> s.ticker.delta > 0)
    && (match s.recv
        case Granting(d) => d > 0
        case Bonusing(d) => d > 0
        case FinalTry(d) => d > 0
        case Writing(d) => d > 0
        case Crediting(d) => d > 0
        case _ => true)
  }

  /** A FIN is on the wire or consumed only after the pump finished. */
  predicate FinOk(s: State) {
    !s.pump.Finished? ==>
      && Fin !in s.wire
      && !s.recv.Closing? && !s.recv.FinalTry? && !s.recv.Ended?
  }

  predicate Inv(c: Config, s: State) {
    && s.credits >= 0
    && Conserved(c, s)
    && DataConserved(s)
    && PumpOk(c, s)
    && GrowthOk(c, s)
    && DeltasOk(s)
    && FinOk(s)
  }

  /** Debt of the sender: bytes on their way that nobody paid for yet. */
  function Debt(s: State): int { s.sent - s.charged }

  lemma DebtBounds(c: Config, s: State)
    requires Inv(c, s)
    ensures Debt(s) < DUPLEX_BUF
    ensures Unconsumed(s) + s.credits + Total(s.windows) + InHands(s) + s.pending
            == s.granted + Skew(c) + Debt(s)
  {
  }

  /** No addition to the 32-bit credit counter ever wraps. */
  lemma NoWrap(c: Config, s: State)
    requires Valid(c) && Inv(c, s)
    ensures s.pending + BeingWritten(s) + InHands(s) < U32
  {
    DebtBounds(c, s);
  }

  lemma InitInv(c: Config)
    requires Valid(c)
    ensures Inv(c, Init(c))
  {
  }

  lemma ReadStep(c: Config, s: State, a: Action)
    requires Valid(c) && Inv(c, s) && Enabled(c, s, a) && (a.Read? || a.SendFin?)
    ensures Inv(c, Next(c, s, a))
  {
    if a.SendFin? {
      PlainTotalAppend(s.wire, Fin);
    }
  }

  lemma AcquireStep(c: Config, s: State, a: Action)
    requires Valid(c) && Inv(c, s) && Enabled(c, s, a) && a.Acquire?
    ensures Inv(c, Next(c, s, a))
  {
    var t := Next(c, s, a);
    assert PumpOk(c, t);
  }

  lemma SendStep(c: Config, s: State, a: Action)
    requires Valid(c) && Inv(c, s) && Enabled(c, s, a) && a.SendFrame?
    ensures Inv(c, Next(c, s, a))
  {
    PlainTotalAppend(s.wire, Data(a.plain));
    var t := Next(c, s, a);
    assert PumpOk(c, t);
  }

  lemma PlainTotalFirst(items: seq<Item>)
    requires items != []
    ensures PlainTotal(items) == (if items[0].Data? then items[0].plain else 0) + PlainTotal(items[1..])
  {
  }

  lemma FinStep(c: Config, s: State, a: Action)
    requires Valid(c) && Inv(c, s) && Enabled(c, s, a) && a.DeliverData? && s.wire[0].Fin?
    ensures Inv(c, Next(c, s, a))
  {
    PlainTotalFirst(s.wire);
    assert s.wire[0] in s.wire;
  }

  lemma DecodeStep(c: Config, s: State, a: Action)
    requires Valid(c) && Inv(c, s) && Enabled(c, s, a) && a.DeliverData? && s.wire[0].Data?
    ensures Inv(c, Next(c, s, a))
  {
    PlainTotalFirst(s.wire);
    var t := Next(c, s, a);
    assert DataConserved(t);
    assert GrowthOk(c, t);
  }

  lemma WrittenStep(c: Config, s: State, a: Action)
    requires Valid(c) && Inv(c, s) && Enabled(c, s, a) && a.WriteDone?
    ensures Inv(c, Next(c, s, a))
  {
  }

  lemma ConsumeStep(c: Config, s: State, a: Action)
    requires Valid(c) && Inv(c, s) && Enabled(c, s, a) && a.AddPending?
    ensures Inv(c, Next(c, s, a))
  {
    NoWrap(c, s);
  }

  lemma GrowStep(c: Config, s: State, a: Action)
    requires Valid(c) && Inv(c, s) && Enabled(c, s, a) && a.Grow?
    ensures Inv(c, Next(c, s, a))
  {
    var b := GrowBonus(c.rxWindowMax, s.granted, s.sinceGrow, a.elapsed);
    assert b > 0 ==> s.granted == Doubled(c.rxWindow, s.growths);
  }

  /** Taking credit off the counter, and putting it back, moves it between places. */
  lemma TakeStep(c: Config, s: State, a: Action)
    requires Valid(c) && Inv(c, s) && Enabled(c, s, a)
    requires a.Drain? || a.CloseSwap? || a.TickTake?
    ensures Inv(c, Next(c, s, a))
  {
  }

  lemma RestoreStep(c: Config, s: State, a: Action)
    requires Valid(c) && Inv(c, s) && Enabled(c, s, a)
    requires a.FinalRestore? || a.TickRestore?
    ensures Inv(c, Next(c, s, a))
  {
    NoWrap(c, s);
  }

  lemma WindowStep(c: Config, s: State, a: Action)
    requires Valid(c) && Inv(c, s) && Enabled(c, s, a)
    requires a.SendGrant? || a.SendBonus? || a.FinalSend? || a.TickSend?
    ensures Inv(c, Next(c, s, a))
  {
    if a.TickSend? {
      TotalAppend(s.windows, s.ticker.delta);
    } else {
      TotalAppend(s.windows, s.recv.delta);
    }
  }

  lemma CreditStep(c: Config, s: State, a: Action)
    requires Valid(c) && Inv(c, s) && Enabled(c, s, a) && a.DeliverWindow?
    ensures Inv(c, Next(c, s, a))
  {
  }

  lemma OthersLeavePump(c: Config, s: State, a: Action)
    requires Enabled(c, s, a) && !(a.Read? || a.Acquire? || a.SendFrame? || a.SendFin?)
    ensures Next(c, s, a).pump == s.pump && Next(c, s, a).granted >= s.granted
  {
  }

  /** Every step of every task keeps the invariant. */
  lemma StepKeepsInv(c: Config, s: State, a: Action)
    requires Valid(c) && Inv(c, s) && Enabled(c, s, a)
    ensures Inv(c, Next(c, s, a))
  {
    if a.Read? || a.SendFin? {
      ReadStep(c, s, a);
    } else if a.Acquire? {
      AcquireStep(c, s, a);
    } else if a.SendFrame? {
      SendStep(c, s, a);
    } else if a.DeliverData? {
      if s.wire[0].Fin? {
        FinStep(c, s, a);
      } else {
        DecodeStep(c, s, a);
      }
    } else if a.WriteDone? {
      WrittenStep(c, s, a);
    } else if a.AddPending? {
      ConsumeStep(c, s, a);
    } else if a.Grow? {
      GrowStep(c, s, a);
    } else if a.Drain? || a.CloseSwap? || a.TickTake? {
      TakeStep(c, s, a);
    } else if a.FinalRestore? || a.TickRestore? {
      RestoreStep(c, s, a);
    } else if a.DeliverWindow? {
      CreditStep(c, s, a);
    } else {
      WindowStep(c, s, a);
    }
  }

  lemma {:induction false} RunKeepsInv(c: Config, s: State, acts: seq<Action>)
    requires Valid(c) && Inv(c, s) && Runs(c, s, acts)
    ensures Inv(c, Exec(c, s, acts))
    decreases |acts|
  {
    if acts != [] {
      StepKeepsInv(c, s, acts[0]);
      RunKeepsInv(c, Next(c, s, acts[0]), acts[1..]);
    }
  }

  lemma ReachableInv(c: Config, s: State)
    requires Valid(c) && Reachable(c, s)
    ensures Inv(c, s)
  {
    var acts :| Runs(c, Init(c), acts) && Exec(c, Init(c), acts) == s;
    InitInv(c);
    RunKeepsInv(c, Init(c), acts);
  }

  /** Credit conservation: in every reachable state the plain balance holds if and
      only if the handshake clamp left the advertised window alone. */
  lemma CreditConservation(c: Config, s: State)
    requires Valid(c) && Reachable(c, s)
    ensures s.credits + s.charged + Total(s.windows) + InHands(s) + s.pending == s.granted + s.consumed
       <==> 16384 <= c.rxWindow <= 268435456
  {
    ReachableInv(c, s);
  }

  /** Where credit goes, step by step: draining, closing and ticking take all that is
      pending; sending puts on its way exactly what was taken; a send that fails puts it
      back. */
  lemma CreditMoves(c: Config, s: State, a: Action)
    requires Valid(c) && Inv(c, s) && Enabled(c, s, a)
    ensures var t := Next(c, s, a);
            && (a.Drain? || a.CloseSwap? || a.TickTake? ==>
                  t.pending == 0 && InHands(t) == InHands(s) + s.pending && t.windows == s.windows)
            && (a.SendGrant? || a.SendBonus? || a.FinalSend? ==>
                  t.windows == s.windows + [s.recv.delta] && InHands(t) == InHands(s) - s.recv.delta)
            && (a.TickSend? ==>
                  t.windows == s.windows + [s.ticker.delta] && InHands(t) == InHands(s) - s.ticker.delta)
            && (a.FinalRestore? || a.TickRestore? ==>
                  t.pending + InHands(t) == s.pending + InHands(s) && t.windows == s.windows)
            && (a.CloseSwap? || a.FinalSend? || a.FinalRestore? ==> t.recv.FinalTry? || t.recv.Ended?)
  {
    NoWrap(c, s);
  }

  /** When consumed bytes are granted back at once: if at least 16 KiB and a quarter of the
      window, rounded down, are pending. Otherwise they wait for the ticker. */
  lemma DrainsIff(c: Config, s: State)
    requires Valid(c) && Reachable(c, s) && Enabled(c, s, AddPending)
    ensures var t, p := Next(c, s, AddPending), s.pending + s.recv.plain;
            && t.pending == p && t.consumed == s.consumed + s.recv.plain
            && (t.recv.Draining? <==> p >= 16384 && 4 * p + 3 >= c.rxWindow)
            && (!t.recv.Draining? ==> t.recv.Growing?)
  {
    ReachableInv(c, s);
    NoWrap(c, s);
    ThresholdIs(c.rxWindow, s.pending + s.recv.plain);
  }

  /** When the window grows: 100 ms after the last time, if the app has consumed at least
      half the grant, rounded down, since then and the grant is below its maximum. It then
      doubles, up to the maximum, and the difference is granted to the sender; otherwise
      nothing changes. */
  lemma GrowthIff(c: Config, s: State, elapsed: bool)
    requires Enabled(c, s, Grow(elapsed))
    ensures var t := Next(c, s, Grow(elapsed));
            var grows := elapsed && 0 < s.granted < c.rxWindowMax && 2 * s.sinceGrow + 1 >= s.granted;
            && (t.granted != s.granted <==> grows)
            && (grows ==> t.granted == Min(2 * s.granted, c.rxWindowMax) && t.sinceGrow == 0)
            && (grows ==> t.recv == Bonusing(t.granted - s.granted))
            && (!grows ==> t == s.(recv := Idle))
  {
  }

  /** Window growth: closed form after `growths` doublings, monotone, never past the
      cap, and paid for by decoded bytes. */
  lemma WindowGrowth(c: Config, s: State)
    requires Valid(c) && Reachable(c, s)
    ensures s.granted == Min(c.rxWindow * Bytes.Pow2(s.growths), c.rxWindowMax) < U32
    ensures s.granted - c.rxWindow <= 2 * s.decoded + s.growths
  {
    ReachableInv(c, s);
    DoubledIsPower(c.rxWindow, s.growths);
  }

  lemma {:induction false} GrantNeverShrinks(c: Config, s: State, acts: seq<Action>)
    requires Runs(c, s, acts)
    ensures s.granted <= Exec(c, s, acts).granted
    decreases |acts|
  {
    if acts != [] {
      GrantNeverShrinks(c, Next(c, s, acts[0]), acts[1..]);
    }
  }
}
