/** What the Rust and Python endpoints share about receive windows. */
module Windows {

  /** Size of the pipe to the app, hence the largest chunk one read returns. */
  const DUPLEX_BUF: nat := 65536

  const MIN_PEER_WINDOW: nat := 16384
  const MAX_PEER_WINDOW: nat := 268435456

  function Min(a: int, b: int): int { if a <= b then a else b }

  function Max(a: int, b: int): int { if a <= b then b else a }

  /** A sender starts with the advertised window, clamped by the handshake. */
  function ClampWindow(rxWindow: nat): nat {
    Min(Max(rxWindow, MIN_PEER_WINDOW), MAX_PEER_WINDOW)
  }

  /** Consumed bytes are granted back at once when they reach a quarter of the window. */
  function GrantThreshold(rxWindow: nat): nat { Max(rxWindow / 4, 16384) }

  /** A clamped window lies between 16 KiB and 256 MiB and is the nearest such value. */
  lemma ClampIs(rxWindow: nat)
    ensures 16384 <= ClampWindow(rxWindow) <= 268435456
    ensures rxWindow < 16384 ==> ClampWindow(rxWindow) == 16384
    ensures rxWindow > 268435456 ==> ClampWindow(rxWindow) == 268435456
    ensures ClampWindow(rxWindow) == rxWindow <==> 16384 <= rxWindow <= 268435456
  {
  }

  /** An amount is granted at once if and only if it is at least 16 KiB and at least a
      quarter of the window, rounded down. */
  lemma ThresholdIs(rxWindow: nat, amount: nat)
    ensures amount >= GrantThreshold(rxWindow) <==> amount >= 16384 && 4 * amount + 3 >= rxWindow
  {
  }

  function Total(xs: seq<nat>): nat { if xs == [] then 0 else xs[0] + Total(xs[1..]) }

  lemma {:induction false} TotalAppend(xs: seq<nat>, x: nat)
    ensures Total(xs + [x]) == Total(xs) + x
  {
    if xs == [] {
      assert xs + [x] == [x];
    } else {
      assert (xs + [x])[1..] == xs[1..] + [x];
      TotalAppend(xs[1..], x);
    }
  }
}
