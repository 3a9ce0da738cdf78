/**
 How often a window grows: exactly which numbers of growths a stream can see, and that
 a receiver whose app keeps consuming reaches its largest window.
 */
module CreditGrowth {
  import Bytes
  import opened Credits
  import opened CreditDebt
  import opened CreditSafety
  import opened Windows

  /** `s` is reachable, with nothing sent that is not consumed and all credit returned. */
  ghost predicate AtRest(c: Config, s: State) { Calm(c, s, 0) && s.pump.Reading? && s.wire == [] }

  lemma RestingCredit(c: Config, s: State)
    requires Valid(c) && AtRest(c, s)
    ensures s.credits >= 16384 && s.granted <= c.rxWindowMax
  {
    ReachableInv(c, s);
  }

  /** One byte is sent and reaches the app; the receiver is about to consider growing. */
  lemma ByteArrives(c: Config, s: State) returns (t: State)
    requires Valid(c) && AtRest(c, s)
    ensures Reachable(c, t) && t.recv.Growing? && t.pending == 1 && t.ticker.Resting? && t.windows == []
    ensures t.wire == [] && t.pump.Reading?
    ensures t.granted == s.granted && t.growths == s.growths && t.sinceGrow == Wrap32(s.sinceGrow + 1)
  {
    RestingCredit(c, s);
    var u := SendPaid(c, s, 1, 0);
    assert u.wire == [Data(1)];
    ReachableNext(c, u, DeliverData);
    var u1 := Next(c, u, DeliverData);
    ReachableNext(c, u1, WriteDone);
    var u2 := Next(c, u1, WriteDone);
    ReachableNext(c, u2, AddPending);
    t := Next(c, u2, AddPending);
  }

  /** The ticker returns the byte's credit. */
  lemma ByteReturns(c: Config, s: State) returns (t: State)
    requires Reachable(c, s) && s.recv.Idle? && s.pending == 1 && s.ticker.Resting? && s.windows == []
    requires s.wire == [] && s.pump.Reading?
    ensures AtRest(c, t) && SameGrowth(s, t)
  {
    ReachableNext(c, s, TickTake);
    var s1 := Next(c, s, TickTake);
    ReachableNext(c, s1, TickSend);
    var s2 := Next(c, s1, TickSend);
    assert s2.windows == [1];
    ReachableNext(c, s2, DeliverWindow);
    t := Next(c, s2, DeliverWindow);
  }

  /** Consuming without growing, since no time has passed. */
  lemma ConsumeOne(c: Config, s: State) returns (t: State)
    requires Valid(c) && AtRest(c, s)
    ensures AtRest(c, t) && t.granted == s.granted && t.growths == s.growths && t.sinceGrow == Wrap32(s.sinceGrow + 1)
  {
    var u := ByteArrives(c, s);
    GrowthIff(c, u, false);
    ReachableNext(c, u, Grow(false));
    t := ByteReturns(c, Next(c, u, Grow(false)));
  }

  /** The app consumes until one more byte makes half the grant. */
  lemma {:induction false} ConsumeHalf(c: Config, s: State) returns (t: State)
    requires Valid(c) && AtRest(c, s) && 2 * s.sinceGrow <= s.granted
    ensures AtRest(c, t) && t.granted == s.granted && t.growths == s.growths
    ensures 2 * t.sinceGrow <= t.granted <= 2 * t.sinceGrow + 3
    decreases s.granted - 2 * s.sinceGrow
  {
    if s.granted <= 2 * s.sinceGrow + 3 {
      t := s;
    } else {
      RestingCredit(c, s);
      var u := ConsumeOne(c, s);
      t := ConsumeHalf(c, u);
    }
  }

  /** One byte more, and time has passed: the window grows. */
  lemma GrowNow(c: Config, s: State) returns (t: State)
    requires Valid(c) && AtRest(c, s) && 2 * s.sinceGrow <= s.granted <= 2 * s.sinceGrow + 3
    requires 0 < s.granted < c.rxWindowMax
    ensures AtRest(c, t) && t.growths == s.growths + 1 && t.granted == Min(2 * s.granted, c.rxWindowMax)
    ensures t.sinceGrow == 0
  {
    RestingCredit(c, s);
    var u := ByteArrives(c, s);
    GrowthIff(c, u, true);
    ReachableNext(c, u, Grow(true));
    var u1 := Next(c, u, Grow(true));
    ReachableNext(c, u1, SendBonus);
    var u2 := Next(c, u1, SendBonus);
    assert u2.windows == [u1.granted - u.granted];
    ReachableNext(c, u2, DeliverWindow);
    t := ByteReturns(c, Next(c, u2, DeliverWindow));
  }

  lemma GrowOnce(c: Config, s: State) returns (t: State)
    requires Valid(c) && AtRest(c, s) && s.sinceGrow == 0 && 0 < s.granted < c.rxWindowMax
    ensures AtRest(c, t) && t.growths == s.growths + 1 && t.granted == Min(2 * s.granted, c.rxWindowMax)
    ensures t.sinceGrow == 0
  {
    var u := ConsumeHalf(c, s);
    t := GrowNow(c, u);
  }

  lemma StartIsAtRest(c: Config)
    ensures AtRest(c, Init(c))
  {
    StartIsCalm(c);
  }

  /** Before the last growth the grant was a plain power of two times the window. */
  lemma {:induction false} DoubledGrows(w: nat, j: nat, k: nat)
    requires j <= k
    ensures Doubled(w, j) <= Doubled(w, k)
    decreases k
  {
    if j < k {
      DoubledGrows(w, j, k - 1);
    }
  }

  lemma {:induction false} GrowTimes(c: Config, k: nat) returns (s: State)
    requires Valid(c) && (k == 0 || (0 < c.rxWindow && Doubled(c.rxWindow, k - 1) < c.rxWindowMax))
    ensures AtRest(c, s) && s.growths == k && s.sinceGrow == 0
  {
    if k == 0 {
      s := Init(c);
      StartIsAtRest(c);
    } else {
      if k > 1 {
        DoubledGrows(c.rxWindow, k - 2, k - 1);
      }
      var u := GrowTimes(c, k - 1);
      ReachableInv(c, u);
      s := GrowOnce(c, u);
    }
  }

  /** How often a window can grow, exactly: `k` times if and only if it is not empty and
      doubled `k - 1` times still below its maximum. */
  lemma GrowthsReached(c: Config, k: nat)
    requires Valid(c)
    ensures (exists s :: Reachable(c, s) && s.growths == k) <==>
            k == 0 || (0 < c.rxWindow && c.rxWindow * Bytes.Pow2(k - 1) < c.rxWindowMax)
  {
    if k > 0 {
      DoubledIsPower(c.rxWindow, k - 1);
    }
    if k == 0 || (0 < c.rxWindow && Doubled(c.rxWindow, k - 1) < c.rxWindowMax) {
      var s := GrowTimes(c, k);
      assert Reachable(c, s);
    }
    forall s | Reachable(c, s) && s.growths == k
      ensures k == 0 || (0 < c.rxWindow && Doubled(c.rxWindow, k - 1) < c.rxWindowMax)
    {
      ReachableInv(c, s);
    }
  }

  lemma {:induction false} GrowToMax(c: Config, s: State) returns (t: State)
    requires Valid(c) && AtRest(c, s) && s.sinceGrow == 0 && 0 < s.granted <= c.rxWindowMax
    ensures Reachable(c, t) && t.granted == c.rxWindowMax
    decreases c.rxWindowMax - s.granted
  {
    if s.granted == c.rxWindowMax {
      t := s;
    } else {
      var u := GrowOnce(c, s);
      t := GrowToMax(c, u);
    }
  }

  /** A receiver whose app consumes half its grant in each interval reaches its largest
      window, whatever it started from. */
  lemma LargestWindowReached(c: Config)
    requires Valid(c) && c.rxWindow > 0
    ensures exists s :: Reachable(c, s) && s.granted == c.rxWindowMax
  {
    StartIsAtRest(c);
    var s := GrowToMax(c, Init(c));
    assert Reachable(c, s);
  }
}
