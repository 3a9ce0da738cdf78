/**
 Progress of the credit protocol while both ends keep the stream registered: when a
 sender parked for credits can always be fed again, and exactly which configurations
 can stall for good.
 */
module CreditLiveness {
  import opened Credits
  import opened Windows
  import opened CreditSafety

  /** The sender waits for credits and nothing anywhere could ever produce one. */
  predicate Stuck(s: State) {
    && s.pump.Charging? && s.credits == 0
    && s.wire == [] && s.recv.Idle? && s.pending == 0
    && s.ticker.Resting? && s.windows == []
  }

  /** What the sender may have outstanding. */
  function Budget(c: Config, s: State): int { s.granted + Skew(c) }

  /** The payment of the current chunk runs behind what its frames will free. */
  predicate Ahead(c: Config, s: State) {
    (s.pump.Charging? && (!c.compressed || s.pump.k.off == s.pump.k.wlen)) ==>
      s.pump.k.charged < Budget(c, s) + s.pump.k.plain
  }

  lemma PaidWithinBudget(c: Config, s: State)
    requires Valid(c) && Inv(c, s)
    ensures Budget(c, s) >= ClampWindow(c.rxWindow) >= MIN_PEER_WINDOW
    ensures s.pump.Charging? || s.pump.Sending? ==> s.pump.k.charged <= Budget(c, s) + s.pump.k.plain
  {
  }

  lemma PumpKeepsAhead(c: Config, s: State, a: Action)
    requires Valid(c) && Inv(c, s) && Ahead(c, s) && Enabled(c, s, a) && Inv(c, Next(c, s, a))
    requires a.Read? || a.Acquire? || a.SendFrame? || a.SendFin?
    ensures Ahead(c, Next(c, s, a))
  {
    PaidWithinBudget(c, s);
    var t := Next(c, s, a);
    if t.pump.Charging? && t.pump.k.off == t.pump.k.wlen {
      assert t.pump.k.charged < t.pump.k.n == t.pump.k.plain;
    }
  }

  lemma StepKeepsAhead(c: Config, s: State, a: Action)
    requires Valid(c) && Inv(c, s) && Ahead(c, s) && Enabled(c, s, a)
    ensures Ahead(c, Next(c, s, a))
  {
    if a.Read? || a.Acquire? || a.SendFrame? || a.SendFin? {
      StepKeepsInv(c, s, a);
      PumpKeepsAhead(c, s, a);
    } else {
      OthersLeavePump(c, s, a);
    }
  }

  lemma {:induction false} RunKeepsAhead(c: Config, s: State, acts: seq<Action>)
    requires Valid(c) && Inv(c, s) && Ahead(c, s) && Runs(c, s, acts)
    ensures Inv(c, Exec(c, s, acts)) && Ahead(c, Exec(c, s, acts))
    decreases |acts|
  {
    if acts != [] {
      StepKeepsInv(c, s, acts[0]);
      StepKeepsAhead(c, s, acts[0]);
      RunKeepsAhead(c, Next(c, s, acts[0]), acts[1..]);
    }
  }

  /** A stuck sender has paid its whole budget beyond what its frames decode to. */
  lemma StuckMeansOverpaid(c: Config, s: State)
    requires Valid(c) && Inv(c, s) && Stuck(s)
    ensures s.pump.k.charged == Budget(c, s) + s.pump.k.plain
  {
  }

  /** Not stuck: raw streams, chunks that went out whole, and windows of a full chunk. */
  predicate Safe(c: Config, s: State) {
    s.pump.Charging? ==>
      !c.compressed || s.pump.k.off == s.pump.k.wlen || Budget(c, s) >= DUPLEX_BUF
  }

  lemma SafeIsNotStuck(c: Config, s: State)
    requires Valid(c) && Inv(c, s) && Ahead(c, s) && Safe(c, s)
    ensures !Stuck(s)
  {
    if Stuck(s) {
      StuckMeansOverpaid(c, s);
    }
  }

  /** The configurations in which no interleaving ever stalls the stream. */
  ghost predicate DeadlockFree(c: Config) {
    forall s :: Reachable(c, s) ==> !Stuck(s)
  }

  lemma CannotStick(c: Config)
    requires Valid(c)
    requires !c.compressed || c.rxWindow >= DUPLEX_BUF
    ensures DeadlockFree(c)
  {
    forall s | Reachable(c, s) ensures !Stuck(s) {
      var acts :| Runs(c, Init(c), acts) && Exec(c, Init(c), acts) == s;
      InitInv(c);
      RunKeepsAhead(c, Init(c), acts);
      PaidWithinBudget(c, s);
      SafeIsNotStuck(c, s);
    }
  }

  /** The state in which a chunk of two frames stalls, after its first frame has been
      taken in and decoded to nothing. */
  function Stalled(c: Config): State {
    var w := ClampWindow(c.rxWindow);
    var take := if w == 0 then 0 else Take(w, DUPLEX_BUF);
    Init(c).(pump := Charging(Chunk(DUPLEX_BUF, c.maxData + 1, c.maxData, take, 0)),
             credits := w - take, charged := take)
  }

  /** A compressed chunk that needs two frames, the first of which decodes to
      nothing, parks the sender forever when the window is below one chunk. */
  lemma CanStick(c: Config)
    requires Valid(c)
    requires c.compressed && c.rxWindow < DUPLEX_BUF && c.maxData < c.maxWire
    ensures !DeadlockFree(c)
  {
    var w := ClampWindow(c.rxWindow);
    var read, end := Read(DUPLEX_BUF, c.maxData + 1), Stalled(c);
    assert Runs(c, Init(c), []) && Exec(c, Init(c), []) == Init(c);
    ReachableNext(c, Init(c), read);
    var s1 := Next(c, Init(c), read);
    ReachableNext(c, s1, Acquire(w));
    var s2 := Next(c, s1, Acquire(w));
    assert s2.pump == Sending(Chunk(DUPLEX_BUF, c.maxData + 1, 0, w, 0));
    ReachableNext(c, s2, SendFrame(0));
    var s3 := Next(c, s2, SendFrame(0));
    assert s3 == end.(wire := [Data(0)]);
    ReachableNext(c, s3, DeliverData);
    assert Next(c, s3, DeliverData) == end && Stuck(end);
  }

  /** Credit deadlock freedom, exactly: a stream can stall if and only if it is
      compressed, the receiver's window is below one 64 KiB chunk, and a chunk can
      compress to more than one frame. */
  lemma DeadlockFreeIff(c: Config)
    requires Valid(c)
    ensures DeadlockFree(c) <==> !c.compressed || c.rxWindow >= 65536 || c.maxWire <= c.maxData
  {
    if !c.compressed || c.rxWindow >= DUPLEX_BUF {
      CannotStick(c);
    } else if c.maxWire <= c.maxData {
      ShortChunksNeverStick(c);
    } else {
      CanStick(c);
    }
  }

  lemma ShortChunksNeverStick(c: Config)
    requires Valid(c) && c.compressed && c.maxWire <= c.maxData
    ensures DeadlockFree(c)
  {
    forall s | Reachable(c, s) ensures !Stuck(s) {
      ReachableInv(c, s);
      if s.pump.Charging? {
        WholeChunksNeverStick(c, s);
      }
    }
  }

  /** Whatever the configuration, a sender whose chunk went out in one frame, or
      uncompressed, is never stuck. */
  lemma WholeChunksNeverStick(c: Config, s: State)
    requires Valid(c) && Reachable(c, s) && s.pump.Charging?
    requires !c.compressed || s.pump.k.wlen <= c.maxData
    ensures !Stuck(s)
  {
    var acts :| Runs(c, Init(c), acts) && Exec(c, Init(c), acts) == s;
    InitInv(c);
    RunKeepsAhead(c, Init(c), acts);
    PaidWithinBudget(c, s);
    RunKeepsWhole(c, Init(c), acts);
    if s.pump.k.off == 0 {
      if Stuck(s) {
        StuckMeansOverpaid(c, s);
      }
    } else {
      SafeIsNotStuck(c, s);
    }
  }

  /** Frames are cut at the cap: between two frames the offset is a whole number of
      caps behind or the chunk is complete. */
  predicate CutAtCap(c: Config, s: State) {
    s.pump.Charging? || s.pump.Sending? ==>
      s.pump.k.off == 0 || s.pump.k.off >= c.maxData || s.pump.k.off == s.pump.k.wlen
  }

  lemma StepKeepsWhole(c: Config, s: State, a: Action)
    requires Valid(c) && Inv(c, s) && CutAtCap(c, s) && Enabled(c, s, a)
    ensures CutAtCap(c, Next(c, s, a))
  {
    if !(a.Read? || a.Acquire? || a.SendFrame? || a.SendFin?) {
      OthersLeavePump(c, s, a);
    }
  }

  lemma {:induction false} RunKeepsWhole(c: Config, s: State, acts: seq<Action>)
    requires Valid(c) && Inv(c, s) && CutAtCap(c, s) && Runs(c, s, acts)
    ensures CutAtCap(c, Exec(c, s, acts))
    decreases |acts|
  {
    if acts != [] {
      StepKeepsInv(c, s, acts[0]);
      StepKeepsWhole(c, s, acts[0]);
      RunKeepsWhole(c, Next(c, s, acts[0]), acts[1..]);
    }
  }

  /** The receiver's half of the machine: no step of the sender's pump. */
  predicate ReceiverOnly(acts: seq<Action>) {
    forall i :: 0 <= i < |acts| ==>
      !acts[i].Read? && !acts[i].Acquire? && !acts[i].SendFrame? && !acts[i].SendFin?
  }

  function Rank(r: Recv): nat {
    match r
    case Writing(_) => 4
    case Crediting(_) => 3
    case Draining => 2
    case Growing => 1
    case _ => 0
  }

  /** The receiver-side step that brings the next credit closer. */
  function Feeding(s: State): Action {
    if s.windows != [] then DeliverWindow
    else if s.ticker.Holding? then TickSend
    else if s.recv.Granting? then SendGrant
    else if s.recv.Bonusing? then SendBonus
    else if s.pending > 0 then TickTake
    else match s.recv
      case Writing(_) => WriteDone
      case Crediting(_) => AddPending
      case Draining => Drain
      case Growing => Grow(false)
      case _ => DeliverData
  }

  /** How far the next WINDOW is: data still to decode, then the pump's position,
      then the credit's way from the counter to the channel. */
  function Distance(s: State): nat {
    if s.windows != [] then 0
    else if s.ticker.Holding? || s.recv.Granting? || s.recv.Bonusing? then 1
    else if s.pending > 0 then 2
    else 3 + 5 * |s.wire| + Rank(s.recv)
  }

  lemma FeedingEnabled(c: Config, s: State)
    requires Inv(c, s) && s.pump.Charging? && s.credits == 0 && !Stuck(s)
    ensures Enabled(c, s, Feeding(s)) && (Feeding(s).DeliverData? ==> s.wire[0].Data?)
  {
    if s.windows == [] && Feeding(s).DeliverData? {
      assert s.recv.Idle? && s.wire != [];
      assert s.wire[0] in s.wire;
    }
  }

  lemma FeedingCloser(c: Config, s: State)
    requires Valid(c) && Inv(c, s) && Enabled(c, s, Feeding(s))
    requires s.pump.Charging? && s.credits == 0 && (Feeding(s).DeliverData? ==> s.wire[0].Data?)
    ensures var t := Next(c, s, Feeding(s));
            if s.windows != [] then t.credits > 0 else t.credits == 0 && Distance(t) < Distance(s)
  {
    if s.windows == [] && Feeding(s).AddPending? {
      NoWrap(c, s);
    }
  }

  /** The receiver, its ticker and the channels alone can hand the sender credit. */
  ghost predicate CanBeFed(c: Config, s: State) {
    exists acts :: Runs(c, s, acts) && ReceiverOnly(acts) && Exec(c, s, acts).credits > 0
  }

  /** Where no interleaving stalls, a parked sender is fed: from every reachable state in
      which it waits, the receiver, its ticker and the channels alone reach a state with
      credit, without the sender having to move. */
  lemma {:induction false} ParkedSenderIsFed(c: Config, s: State) returns (acts: seq<Action>)
    requires Valid(c) && DeadlockFree(c) && Reachable(c, s)
    requires s.pump.Charging? && s.credits == 0
    ensures Runs(c, s, acts) && ReceiverOnly(acts)
    ensures Exec(c, s, acts).credits > 0 && Exec(c, s, acts).pump == s.pump
    decreases Distance(s)
  {
    var a := Feeding(s);
    ReachableInv(c, s);
    FeedingEnabled(c, s);
    FeedingCloser(c, s);
    OthersLeavePump(c, s, a);
    ReachableNext(c, s, a);
    var t := Next(c, s, a);
    var rest := [];
    if s.windows == [] {
      rest := ParkedSenderIsFed(c, t);
    }
    assert Runs(c, t, rest);
    acts := [a] + rest;
    assert acts[0] == a && acts[1..] == rest;
    assert Runs(c, s, acts) && Exec(c, s, acts) == Exec(c, t, rest);
  }

  /** A stuck state is a fixed point of everything but the sender. */
  lemma {:induction false} StuckStays(c: Config, s: State, acts: seq<Action>)
    requires Stuck(s) && Runs(c, s, acts) && ReceiverOnly(acts)
    ensures Exec(c, s, acts) == s
    decreases |acts|
  {
    if acts != [] {
      assert Next(c, s, acts[0]) == s;
      StuckStays(c, s, acts[1..]);
    }
  }

  /** Freedom from deadlock is exactly that every parked sender can be fed. */
  lemma DeadlockFreeMeansFed(c: Config)
    requires Valid(c)
    ensures DeadlockFree(c) <==>
              forall s :: Reachable(c, s) && s.pump.Charging? && s.credits == 0 ==> CanBeFed(c, s)
  {
    if DeadlockFree(c) {
      forall s | Reachable(c, s) && s.pump.Charging? && s.credits == 0 ensures CanBeFed(c, s) {
        var acts := ParkedSenderIsFed(c, s);
      }
    } else {
      var s :| Reachable(c, s) && Stuck(s);
      forall acts | Runs(c, s, acts) && ReceiverOnly(acts) ensures Exec(c, s, acts).credits == 0 {
        StuckStays(c, s, acts);
      }
      assert !CanBeFed(c, s);
    }
  }

  /** Every reachable parked sender of a raw stream can be fed, even when the peer's
      window is smaller than one chunk and the chunk is split over many frames. */
  lemma RawStreamIsFed(c: Config, s: State)
    requires Valid(c) && Reachable(c, s) && !c.compressed
    requires s.pump.Charging? && s.credits == 0
    ensures CanBeFed(c, s)
  {
    CannotStick(c);
    DeadlockFreeMeansFed(c);
  }
}
