/**
 How far the sender runs ahead of the window: the exact bound, for every
 configuration, on bytes sent and not yet consumed.
 */
module CreditDebt {
  import opened Credits
  import opened CreditSafety
  import opened Windows

  /** How many frames of at most `cap` bytes carry `len` bytes. */
  function Frames(len: nat, cap: nat): nat {
    if len == 0 then 0 else if cap == 0 || len <= cap then 1 else 1 + Frames(len - cap, cap)
  }

  lemma {:induction false} OneMoreByte(len: nat, cap: nat)
    ensures Frames(len, cap) <= Frames(len + 1, cap) <= Frames(len, cap) + 1
    ensures Frames(len, cap) <= len
    decreases len
  {
    if cap > 0 && len > cap {
      OneMoreByte(len - cap, cap);
    }
  }

  /** Longer chunks leave more to owe. */
  lemma {:induction false} SlackGrows(x: nat, y: nat, cap: nat)
    requires x <= y
    ensures x - Frames(x, cap) <= y - Frames(y, cap)
    decreases y - x
  {
    if x < y {
      OneMoreByte(x, cap);
      SlackGrows(x + 1, y, cap);
    }
  }

  lemma {:induction false} FewFrames(len: nat, cap: nat, k: nat)
    requires cap >= 1024 && len <= 1024 * k
    ensures Frames(len, cap) <= k
    decreases k
  {
    if len > cap {
      FewFrames(len - cap, cap, k - 1);
    }
  }

  /** What the sender can owe at most: a raw chunk pays at least one byte for each of
      its frames before the frame leaves; a compressed one may leave in one frame. */
  function MaxDebt(c: Config): int {
    DUPLEX_BUF - if c.compressed then 1 else Frames(DUPLEX_BUF, c.maxData)
  }

  /** `k` is paid in full, or one byte for every frame sent and `extra` ones. */
  predicate Paid(c: Config, k: Chunk, extra: nat)
    requires k.off <= k.wlen
  {
    k.charged == k.n || k.charged + Frames(k.wlen - k.off, c.maxData) >= Frames(k.wlen, c.maxData) + extra
  }

  predicate FramesPaid(c: Config, s: State) {
    match s.pump
    case Charging(k) => k.off <= k.wlen && Paid(c, k, 0)
    case Sending(k) => k.off <= k.wlen && Paid(c, k, 1)
    case _ => true
  }

  lemma PumpKeepsPaid(c: Config, s: State, a: Action)
    requires Valid(c) && Inv(c, s) && FramesPaid(c, s) && Enabled(c, s, a)
    requires a.Read? || a.Acquire? || a.SendFrame? || a.SendFin?
    ensures FramesPaid(c, Next(c, s, a))
  {
  }

  lemma {:induction false} RunKeepsPaid(c: Config, s: State, acts: seq<Action>)
    requires Valid(c) && Inv(c, s) && FramesPaid(c, s) && Runs(c, s, acts)
    ensures Inv(c, Exec(c, s, acts)) && FramesPaid(c, Exec(c, s, acts))
    decreases |acts|
  {
    if acts != [] {
      var a := acts[0];
      StepKeepsInv(c, s, a);
      if a.Read? || a.Acquire? || a.SendFrame? || a.SendFin? {
        PumpKeepsPaid(c, s, a);
      } else {
        OthersLeavePump(c, s, a);
      }
      RunKeepsPaid(c, Next(c, s, a), acts[1..]);
    }
  }

  lemma DebtAtMost(c: Config, s: State)
    requires Valid(c) && Inv(c, s) && FramesPaid(c, s)
    ensures Debt(s) <= MaxDebt(c)
  {
    FewFrames(DUPLEX_BUF, c.maxData, 64);
    if !c.compressed && (s.pump.Charging? || s.pump.Sending?) {
      var k := s.pump.k;
      OneMoreByte(k.wlen - k.off, c.maxData);
      SlackGrows(k.n, DUPLEX_BUF, c.maxData);
    }
  }

  /** The number of frames is the quotient rounded up. */
  lemma {:induction false} FramesRoundUp(len: nat, cap: nat)
    requires cap > 0
    ensures Frames(len, cap) == (len + cap - 1) / cap
    decreases len
  {
    if len > cap {
      FramesRoundUp(len - cap, cap);
      OneLess(len + cap - 1, cap);
    } else if len > 0 {
      OneLess(len + cap - 1, cap);
    }
  }

  lemma OneLess(x: nat, cap: nat)
    requires cap > 0 && x >= cap
    ensures x / cap == (x - cap) / cap + 1
  {
    var q := (x - cap) / cap;
    assert x - cap == cap * q + (x - cap) % cap;
    assert x == cap * (q + 1) + (x - cap) % cap;
    Quotient(x, cap, q + 1, (x - cap) % cap);
  }

  lemma Quotient(x: nat, cap: nat, q: nat, r: nat)
    requires cap > 0 && r < cap && x == cap * q + r
    ensures x / cap == q
  {
    var d := x / cap;
    assert x == cap * d + x % cap;
    assert d < q ==> cap * (d + 1) <= cap * q;
    assert d > q ==> cap * (q + 1) <= cap * d;
  }

  lemma MaxDebtIs(c: Config)
    requires Valid(c)
    ensures MaxDebt(c) == 65536 - if c.compressed then 1 else (65535 + c.maxData) / c.maxData
  {
    FramesRoundUp(DUPLEX_BUF, c.maxData);
  }

  /** Bounded debt: bytes sent and not yet consumed never exceed the grant, corrected by
      what the handshake clamp moved, by more than 64 KiB less one byte for each frame that
      carries 64 KiB, or for one frame if compressed. */
  lemma BoundedDebt(c: Config, s: State)
    requires Valid(c) && Reachable(c, s)
    ensures 0 <= Unconsumed(s)
    ensures Unconsumed(s) <= s.granted + Skew(c) + 65536 - if c.compressed then 1 else (65535 + c.maxData) / c.maxData
    ensures s.credits >= 0 && s.pending < 0x1_0000_0000
  {
    var acts :| Runs(c, Init(c), acts) && Exec(c, Init(c), acts) == s;
    InitInv(c);
    RunKeepsPaid(c, Init(c), acts);
    DebtBounds(c, s);
    DebtAtMost(c, s);
    MaxDebtIs(c);
    NoWrap(c, s);
  }

  // The bound is reached, always by a sender that takes all the credit it sees.

  /** Nothing is on its way back to the sender. */
  predicate Quiet(s: State) {
    s.recv.Idle? && s.ticker.Resting? && s.pending == 0 && s.windows == []
  }

  /** The next `k` frames to arrive carry one byte each. */
  predicate Ones(s: State, k: nat) {
    k <= |s.wire| && forall i :: 0 <= i < k ==> s.wire[i] == Data(1)
  }

  /** `s` is reachable, and at rest but for the pump. */
  ghost predicate Calm(c: Config, s: State, ones: nat) { Reachable(c, s) && Quiet(s) && Ones(s, ones) }

  predicate SameGrowth(s: State, t: State) {
    t.granted == s.granted && t.growths == s.growths && t.sinceGrow == s.sinceGrow
  }

  /** A chunk of `n` bytes and one frame, with credit left. */
  lemma SendPaid(c: Config, s: State, n: nat, ones: nat) returns (t: State)
    requires Valid(c) && Calm(c, s, ones) && s.pump.Reading? && 1 <= n < s.credits
    requires n <= DUPLEX_BUF && n <= c.maxData
    ensures Calm(c, t, ones) && t.pump.Reading? && t.credits == s.credits - n && t.wire == s.wire + [Data(n)]
    ensures SameGrowth(s, t)
  {
    var wlen := if c.compressed then 1 else n;
    var read, acquire, send := Read(n, wlen), Acquire(s.credits), SendFrame(n);
    ReachableNext(c, s, read);
    var s1 := Next(c, s, read);
    ReachableNext(c, s1, acquire);
    var s2 := Next(c, s1, acquire);
    assert s2.pump == Sending(Chunk(n, wlen, 0, n, 0));
    ReachableNext(c, s2, send);
    t := Next(c, s2, send);
  }

  /** `k` chunks of one byte. */
  lemma {:induction false} SendOnes(c: Config, s: State, ones: nat, k: nat) returns (t: State)
    requires Valid(c) && Calm(c, s, ones) && s.pump.Reading? && k < s.credits && |s.wire| == ones
    ensures Calm(c, t, ones + k) && t.pump.Reading? && t.credits == s.credits - k && |t.wire| == ones + k
    decreases k
  {
    t := s;
    if k > 0 {
      var u := SendPaid(c, s, 1, ones);
      t := SendOnes(c, u, ones + 1, k - 1);
    }
  }

  /** Chunks until one credit is left. */
  lemma {:induction false} SpendDown(c: Config, s: State, ones: nat) returns (t: State)
    requires Valid(c) && Calm(c, s, ones) && s.pump.Reading? && s.credits >= 1
    ensures Calm(c, t, ones) && t.pump.Reading? && t.credits == 1
    decreases s.credits
  {
    t := s;
    if s.credits > 1 {
      var u := SendPaid(c, s, Min(s.credits - 1, Min(c.maxData, DUPLEX_BUF)), ones);
      t := SpendDown(c, u, ones);
    }
  }

  /** The app takes a byte, the ticker returns it, and the sender has one credit more. */
  lemma Feed(c: Config, s: State, ones: nat) returns (t: State)
    requires Valid(c) && Calm(c, s, ones + 1)
    ensures Calm(c, t, ones) && t.pump == s.pump && t.credits == s.credits + 1
  {
    ReachableNext(c, s, DeliverData);
    var s1 := Next(c, s, DeliverData);
    ReachableNext(c, s1, WriteDone);
    var s2 := Next(c, s1, WriteDone);
    ReachableNext(c, s2, AddPending);
    var s3 := Next(c, s2, AddPending);
    t := FeedBack(c, s3);
  }

  lemma FeedBack(c: Config, s: State) returns (t: State)
    requires Reachable(c, s) && s.recv.Growing? && s.pending == 1 && s.ticker.Resting? && s.windows == []
    ensures Reachable(c, t) && Quiet(t) && t.wire == s.wire && t.pump == s.pump && t.credits == s.credits + 1
  {
    ReachableNext(c, s, Grow(false));
    var s1 := Next(c, s, Grow(false));
    ReachableNext(c, s1, TickTake);
    var s2 := Next(c, s1, TickTake);
    ReachableNext(c, s2, TickSend);
    var s3 := Next(c, s2, TickSend);
    assert s3.windows == [1];
    ReachableNext(c, s3, DeliverWindow);
    t := Next(c, s3, DeliverWindow);
  }

  /** The largest raw chunk, with `off` bytes framed and `charged` paid. */
  function Big(off: nat, charged: nat): Chunk { Chunk(DUPLEX_BUF, DUPLEX_BUF, off, charged, off) }

  lemma DripOne(c: Config, s: State, ones: nat, off: nat, charged: nat) returns (t: State)
    requires Valid(c) && !c.compressed && Calm(c, s, ones) && s.credits == 1
    requires off < DUPLEX_BUF && charged + 1 < DUPLEX_BUF && s.pump == Charging(Big(off, charged))
    ensures Calm(c, t, ones) && t.credits == 0
    ensures t.pump == Charging(Big(off + Min(c.maxData, DUPLEX_BUF - off), charged + 1))
  {
    ReachableNext(c, s, Acquire(1));
    var s1 := Next(c, s, Acquire(1));
    assert s1.pump == Sending(Big(off, charged + 1));
    var take := Min(c.maxData, DUPLEX_BUF - off);
    ReachableNext(c, s1, SendFrame(take));
    t := Next(c, s1, SendFrame(take));
  }

  /** One credit for each frame that is left. */
  lemma {:induction false} Drip(c: Config, s: State, ones: nat, off: nat, charged: nat) returns (t: State)
    requires Valid(c) && !c.compressed && Calm(c, s, ones) && s.credits == 1 && off < DUPLEX_BUF
    requires s.pump == Charging(Big(off, charged)) && ones + 1 == Frames(DUPLEX_BUF - off, c.maxData)
    requires charged + Frames(DUPLEX_BUF - off, c.maxData) < DUPLEX_BUF
    ensures Calm(c, t, 0) && t.credits == 0
    ensures t.pump == Charging(Big(DUPLEX_BUF, charged + Frames(DUPLEX_BUF - off, c.maxData)))
    decreases DUPLEX_BUF - off
  {
    var u := DripOne(c, s, ones, off, charged);
    if DUPLEX_BUF - off <= c.maxData {
      t := u;
    } else {
      var v := Feed(c, u, ones - 1);
      t := Drip(c, v, ones - 1, off + c.maxData, charged + 1);
    }
  }

  /** A state in which the sender owes `k.plain - k.charged` and all credit is spent. */
  ghost predicate Exhausted(c: Config, s: State, owed: int) {
    Reachable(c, s) && Quiet(s) && s.credits == 0 && s.pump.Charging? && s.pump.k.plain - s.pump.k.charged == owed
  }

  lemma RawSenderOverruns(c: Config) returns (t: State)
    requires Valid(c) && !c.compressed
    ensures Exhausted(c, t, MaxDebt(c))
  {
    var k := Frames(DUPLEX_BUF, c.maxData);
    FewFrames(DUPLEX_BUF, c.maxData, 64);
    StartIsCalm(c);
    var s := SendOnes(c, Init(c), 0, k - 1);
    s := SpendDown(c, s, k - 1);
    ReachableNext(c, s, Read(DUPLEX_BUF, DUPLEX_BUF));
    s := Next(c, s, Read(DUPLEX_BUF, DUPLEX_BUF));
    t := Drip(c, s, k - 1, 0, 0);
  }

  lemma CompressedSenderOverruns(c: Config) returns (t: State)
    requires Valid(c) && c.compressed
    ensures Exhausted(c, t, MaxDebt(c))
  {
    StartIsCalm(c);
    var s := SpendDown(c, Init(c), 0);
    ReachableNext(c, s, Read(DUPLEX_BUF, 1));
    var s1 := Next(c, s, Read(DUPLEX_BUF, 1));
    ReachableNext(c, s1, Acquire(1));
    var s2 := Next(c, s1, Acquire(1));
    assert s2.pump == Sending(Chunk(DUPLEX_BUF, 1, 0, 1, 0));
    ReachableNext(c, s2, SendFrame(DUPLEX_BUF));
    t := Next(c, s2, SendFrame(DUPLEX_BUF));
  }

  lemma StartIsCalm(c: Config)
    ensures Calm(c, Init(c), 0)
  {
    assert Runs(c, Init(c), []) && Exec(c, Init(c), []) == Init(c);
  }

  /** The bound of `BoundedDebt` is reached in every configuration: what the sender has
      sent and the app not consumed, wherever it is, overruns the grant by `MaxDebt`. */
  lemma BoundIsReached(c: Config)
    requires Valid(c)
    ensures var debt := 65536 - if c.compressed then 1 else (65535 + c.maxData) / c.maxData;
            exists s :: Reachable(c, s) && Overrun(c, s) == debt
  {
    var s;
    if c.compressed {
      s := CompressedSenderOverruns(c);
    } else {
      s := RawSenderOverruns(c);
    }
    ReachableInv(c, s);
    DebtBounds(c, s);
    MaxDebtIs(c);
    assert Reachable(c, s) && Overrun(c, s) == MaxDebt(c);
  }

  /** How far unconsumed data exceeds the grant. */
  function Overrun(c: Config, s: State): int { Unconsumed(s) - s.granted - Skew(c) }
}
