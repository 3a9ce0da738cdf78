/**
 Credit flow control of one direction of one CMPX stream.

 The sender's outbound pump, the receiver's inbound pump, the receiver's credit
 ticker and the two FIFO channels between the endpoints are one state machine.
 An `Action` is one atomic step of one task (an atomic read-modify-write, a
 queue operation or the completion of an await), so a list of actions is one
 interleaving of the tasks.
 */
module Credits {
  import opened Windows

  /** The receive-side counters are 32-bit atomics that wrap. */
  const U32: nat := 0x1_0000_0000

  function Wrap32(n: nat): (r: nat)
    ensures r < U32 && r <= n && (n < U32 ==> r == n)
  {
    n % U32
  }

  /** `compressed` says whether frames carry compressor output; `maxData` is the
      per-frame cap the receiver advertised; `maxWire` is the most wire bytes the
      compressor makes of one chunk; `rxWindow` and `rxWindowMax` are the receiver's
      initial and largest grants. */
  datatype Config = Config(compressed: bool, maxData: nat, maxWire: nat, rxWindow: nat, rxWindowMax: nat)

  /** How far the clamp moved the sender's starting credit. */
  function Skew(c: Config): int { ClampWindow(c.rxWindow) - c.rxWindow }

  /** The handshake clamps `maxData`, session start raises `rxWindowMax` to at
      least `rxWindow`, and the last conjunct keeps the largest grant plus one
      chunk inside 32 bits. */
  predicate Valid(c: Config) {
    && 1024 <= c.maxData <= 0x10_0000
    && 1 <= c.maxWire
    && c.rxWindow <= c.rxWindowMax
    && c.rxWindowMax + Max(Skew(c), 0) + DUPLEX_BUF <= U32
  }

  /** The chunk the outbound pump is working on: `n` logical bytes became `wlen`
      wire bytes; `off` of those are framed, `charged` logical bytes are paid for,
      and the frames sent so far decode to `plain` logical bytes. */
  datatype Chunk = Chunk(n: nat, wlen: nat, off: nat, charged: nat, plain: nat)

  /** Where the outbound pump stands: waiting for the app, inside
      `acquire_credits`, handing a frame to the writer, or past its last frame. */
  datatype Pump = Reading | Charging(k: Chunk) | Sending(k: Chunk) | Finished

  /** One DATA frame travelling to the receiver: how many logical bytes its
      decoding yields, or the empty FIN frame. */
  datatype Item = Data(plain: nat) | Fin

  /** Where the inbound pump stands. Between `fetch_add` and the end of an awaited
      send the credit it took is in the pump's hands. */
  datatype Recv =
    | Idle
    | Writing(plain: nat)
    | Crediting(plain: nat)
    | Draining
    | Granting(delta: nat)
    | Growing
    | Bonusing(delta: nat)
    | Closing
    | FinalTry(delta: nat)
    | Ended

  datatype Ticker = Resting | Holding(delta: nat)

  /** The last six fields record the run so far and are read by no step. */
  datatype State = State(
    pump: Pump,
    credits: int,
    wire: seq<Item>,
    recv: Recv,
    ticker: Ticker,
    pending: nat,
    granted: nat,
    sinceGrow: nat,
    windows: seq<nat>,
    charged: nat,
    sent: nat,
    decoded: nat,
    consumed: nat,
    growths: nat,
    bonus: nat)

  function Init(c: Config): State {
    State(Reading, ClampWindow(c.rxWindow), [], Idle, Resting, 0, c.rxWindow, 0, [], 0, 0, 0, 0, 0, 0)
  }

  /** `Acquire(seen)` subtracts against a counter value read earlier, `SendFrame(d)`
      names what the frame decodes to, and `Grow(elapsed)` whether 100 ms passed. */
  datatype Action =
    | Read(n: nat, wlen: nat)
    | Acquire(seen: nat)
    | SendFrame(plain: nat)
    | SendFin
    | DeliverData
    | WriteDone
    | AddPending
    | Drain
    | SendGrant
    | Grow(elapsed: bool)
    | SendBonus
    | CloseSwap
    | FinalSend
    | FinalRestore
    | TickTake
    | TickSend
    | TickRestore
    | DeliverWindow

  /** How much one `acquire_credits` takes when it saw `seen > 0` credits. */
  function Take(seen: nat, want: nat): (t: nat)
    requires seen > 0
    ensures 1 <= t <= seen && (want > 0 ==> t <= want)
  {
    Min(Max(Min(seen, want), 1), seen)
  }

  /** Wire bytes that fit the next frame. */
  function FrameLen(maxData: nat, wlen: nat, off: nat): nat
    requires off < wlen
  {
    Min(maxData, wlen - off)
  }

  /** What a frame may decode to. Raw frames decode to themselves. A compressor
      flushes at the end of every chunk, so the last frame of a chunk completes it;
      earlier frames of a split chunk may yield any part of what is left. */
  predicate Decodes(c: Config, k: Chunk, d: nat)
    requires k.off < k.wlen
  {
    var take := FrameLen(c.maxData, k.wlen, k.off);
    if !c.compressed then d == take
    else if k.off + take == k.wlen then k.plain + d == k.n
    else k.plain + d <= k.n
  }

  /** Head of the split loop: charge while unpaid, then send while unframed. */
  function Resume(k: Chunk): Pump {
    if k.charged < k.n then Charging(k)
    else if k.off < k.wlen then Sending(k)
    else Reading
  }

  /** The pump after `acquire_credits` returned, having seen `seen` credits. */
  function Charged(k: Chunk, seen: nat): Pump
    requires seen > 0
  {
    var k' := k.(charged := k.charged + Take(seen, Max(k.n - k.charged, 0)));
    if k.off < k.wlen then Sending(k') else Resume(k')
  }

  /** The pump after it handed over a frame that decodes to `d` bytes. */
  function Sent(maxData: nat, k: Chunk, d: nat): Pump
    requires k.off < k.wlen
  {
    Resume(k.(off := k.off + FrameLen(maxData, k.wlen, k.off), plain := k.plain + d))
  }

  /** The grant added by `maybe_grow_window`, 0 when it declines. */
  function GrowBonus(rxWindowMax: nat, granted: nat, sinceGrow: nat, elapsed: bool): (b: nat)
    ensures b > 0 ==> granted + b <= rxWindowMax && b <= granted <= 2 * sinceGrow + 1
  {
    if granted >= rxWindowMax || sinceGrow < granted / 2 || !elapsed then 0
    else Min(granted, rxWindowMax - granted)
  }

  predicate Enabled(c: Config, s: State, a: Action) {
    match a
    case Read(n, wlen) =>
      s.pump.Reading? && 1 <= n <= DUPLEX_BUF && 1 <= wlen && if c.compressed then wlen <= c.maxWire else wlen == n
    case Acquire(seen) => s.pump.Charging? && 0 < seen <= s.credits
    case SendFrame(d) => s.pump.Sending? && s.pump.k.off < s.pump.k.wlen && Decodes(c, s.pump.k, d)
    case SendFin => s.pump.Reading?
    case DeliverData => s.recv.Idle? && s.wire != []
    case WriteDone => s.recv.Writing?
    case AddPending => s.recv.Crediting?
    case Drain => s.recv.Draining?
    case SendGrant => s.recv.Granting?
    case Grow(_) => s.recv.Growing?
    case SendBonus => s.recv.Bonusing?
    case CloseSwap => s.recv.Closing?
    case FinalSend => s.recv.FinalTry?
    case FinalRestore => s.recv.FinalTry?
    case TickTake => s.ticker.Resting?
    case TickSend => s.ticker.Holding?
    case TickRestore => s.ticker.Holding?
    case DeliverWindow => s.windows != []
  }

  function Next(c: Config, s: State, a: Action): State
    requires Enabled(c, s, a)
  {
    match a
    case Read(n, wlen) => s.(pump := Charging(Chunk(n, wlen, 0, 0, 0)))
    case Acquire(seen) =>
      var k := s.pump.k;
      var take := Take(seen, Max(k.n - k.charged, 0));
      s.(pump := Charged(k, seen),
         credits := s.credits - take,
         charged := s.charged + take)
    case SendFrame(d) =>
      s.(pump := Sent(c.maxData, s.pump.k, d),
         wire := s.wire + [Data(d)],
         sent := s.sent + d)
    case SendFin => s.(pump := Finished, wire := s.wire + [Fin])
    case DeliverData =>
      (match s.wire[0]
       case Fin => s.(wire := s.wire[1..], recv := Closing)
       case Data(d) =>
         s.(wire := s.wire[1..],
            recv := if d == 0 then Idle else Writing(d),
            sinceGrow := Wrap32(s.sinceGrow + d),
            decoded := s.decoded + d))
    case WriteDone => s.(recv := Crediting(s.recv.plain))
    case AddPending =>
      var p := Wrap32(s.pending + s.recv.plain);
      s.(recv := if p >= GrantThreshold(c.rxWindow) then Draining else Growing,
         pending := p,
         consumed := s.consumed + s.recv.plain)
    case Drain =>
      s.(recv := if s.pending > 0 then Granting(s.pending) else Growing, pending := 0)
    case SendGrant => s.(recv := Growing, windows := s.windows + [s.recv.delta])
    case Grow(elapsed) =>
      var b := GrowBonus(c.rxWindowMax, s.granted, s.sinceGrow, elapsed);
      if b == 0 then s.(recv := Idle)
      else s.(recv := Bonusing(b), granted := s.granted + b, sinceGrow := 0,
              growths := s.growths + 1, bonus := s.bonus + b)
    case SendBonus => s.(recv := Idle, windows := s.windows + [s.recv.delta])
    case CloseSwap =>
      s.(recv := if s.pending > 0 then FinalTry(s.pending) else Ended, pending := 0)
    case FinalSend => s.(recv := Ended, windows := s.windows + [s.recv.delta])
    case FinalRestore => s.(recv := Ended, pending := Wrap32(s.pending + s.recv.delta))
    case TickTake =>
      if s.pending > 0 then s.(ticker := Holding(s.pending), pending := 0) else s
    case TickSend => s.(ticker := Resting, windows := s.windows + [s.ticker.delta])
    case TickRestore => s.(ticker := Resting, pending := Wrap32(s.pending + s.ticker.delta))
    case DeliverWindow => s.(credits := s.credits + s.windows[0], windows := s.windows[1..])
  }

  /** `acts` is a possible interleaving from `s`. */
  predicate Runs(c: Config, s: State, acts: seq<Action>)
    decreases |acts|
  {
    acts == [] || (Enabled(c, s, acts[0]) && Runs(c, Next(c, s, acts[0]), acts[1..]))
  }

  function Exec(c: Config, s: State, acts: seq<Action>): State
    requires Runs(c, s, acts)
    decreases |acts|
  {
    if acts == [] then s else Exec(c, Next(c, s, acts[0]), acts[1..])
  }

  /** Some interleaving of the tasks leads from session start to `s`. */
  ghost predicate Reachable(c: Config, s: State) {
    exists acts :: Runs(c, Init(c), acts) && Exec(c, Init(c), acts) == s
  }

  /** Runs compose. */
  lemma {:induction false} RunsAppend(c: Config, s: State, xs: seq<Action>, ys: seq<Action>)
    requires Runs(c, s, xs) && Runs(c, Exec(c, s, xs), ys)
    ensures Runs(c, s, xs + ys) && Exec(c, s, xs + ys) == Exec(c, Exec(c, s, xs), ys)
    decreases |xs|
  {
    if xs == [] {
      assert xs + ys == ys;
    } else {
      assert (xs + ys)[1..] == xs[1..] + ys;
      RunsAppend(c, Next(c, s, xs[0]), xs[1..], ys);
    }
  }

  lemma ReachableNext(c: Config, s: State, a: Action)
    requires Reachable(c, s) && Enabled(c, s, a)
    ensures Reachable(c, Next(c, s, a))
  {
    var acts :| Runs(c, Init(c), acts) && Exec(c, Init(c), acts) == s;
    var t := Next(c, s, a);
    assert [a][1..] == [] && Runs(c, t, []) && Exec(c, t, []) == t;
    assert Runs(c, s, [a]) && Exec(c, s, [a]) == t;
    RunsAppend(c, Init(c), acts, [a]);
  }
}
