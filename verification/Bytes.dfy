/** Bytes, byte strings and big-endian integers. */
module Bytes {

  type Byte = x: int | 0 <= x < 256
  type Bytes = seq<Byte>

  function Concat(parts: seq<Bytes>): Bytes {
    if parts == [] then [] else parts[0] + Concat(parts[1..])
  }

  lemma {:induction false} ConcatAppend(a: seq<Bytes>, b: seq<Bytes>)
    ensures Concat(a + b) == Concat(a) + Concat(b)
  {
    if a == [] {
      assert a + b == b;
    } else {
      assert (a + b)[1..] == a[1..] + b;
      ConcatAppend(a[1..], b);
    }
  }

  lemma ConcatOne(x: Bytes)
    ensures Concat([x]) == x
  {
    assert [x][1..] == [];
  }

  function Pow256(k: nat): nat { if k == 0 then 1 else 256 * Pow256(k - 1) }

  /** The low `width` bytes of `n`, most significant first. */
  function ToBigEndian(n: nat, width: nat): (b: Bytes)
    ensures |b| == width
  {
    if width == 0 then [] else ToBigEndian(n / 256, width - 1) + [n % 256]
  }

  function FromBigEndian(b: Bytes): nat {
    if b == [] then 0 else 256 * FromBigEndian(b[..|b| - 1]) + b[|b| - 1]
  }

  /** A number that fits survives the trip to bytes and back; a larger one is
      truncated, as a cast to a narrower integer would. */
  lemma {:induction false} BigEndianRoundTrip(n: nat, width: nat)
    requires n < Pow256(width)
    ensures FromBigEndian(ToBigEndian(n, width)) == n
  {
    if width > 0 {
      var b := ToBigEndian(n, width);
      assert b[..|b| - 1] == ToBigEndian(n / 256, width - 1);
      BigEndianRoundTrip(n / 256, width - 1);
    }
  }

  /** Bytes survive the trip to a number and back. */
  lemma {:induction false} BytesRoundTrip(b: Bytes)
    ensures ToBigEndian(FromBigEndian(b), |b|) == b && FromBigEndian(b) < Pow256(|b|)
    decreases |b|
  {
    if b != [] {
      var k := |b| - 1;
      BytesRoundTrip(b[..k]);
      var n, q := FromBigEndian(b), FromBigEndian(b[..k]);
      assert n == 256 * q + b[k] && n / 256 == q && n % 256 == b[k];
      assert b == b[..k] + [b[k]];
    }
  }

  lemma Pow256Values()
    ensures Pow256(2) == 0x1_0000 && Pow256(4) == 0x1_0000_0000
    ensures Pow256(8) == 0x1_0000_0000_0000_0000
  {
    assert Pow256(1) == 256;
    assert Pow256(3) == 0x100_0000;
    assert Pow256(5) == 0x100_0000_0000;
    assert Pow256(6) == 0x1_0000_0000_0000;
    assert Pow256(7) == 0x100_0000_0000_0000;
  }

  /** Bitwise exclusive or. */
  function Xor(a: nat, b: nat): (r: nat)
    decreases a + b
  {
    if a == 0 && b == 0 then 0 else 2 * Xor(a / 2, b / 2) + (a + b) % 2
  }

  lemma {:induction false} XorFits(a: nat, b: nat, k: nat)
    requires a < Pow2(k) && b < Pow2(k)
    ensures Xor(a, b) < Pow2(k)
    decreases k
  {
    if k > 0 {
      XorFits(a / 2, b / 2, k - 1);
    }
  }

  function Pow2(k: nat): nat { if k == 0 then 1 else 2 * Pow2(k - 1) }

  /** Masking twice with the same key is the identity. */
  lemma {:induction false} XorTwice(a: nat, m: nat)
    ensures Xor(Xor(a, m), m) == a
    decreases a + m
  {
    if a == 0 && m == 0 {
    } else {
      XorTwice(a / 2, m / 2);
      XorBits(a, m);
      XorBits(Xor(a, m), m);
      Halves(a, m, Xor(a, m));
    }
  }

  lemma XorBits(a: nat, b: nat)
    ensures Xor(a, b) / 2 == Xor(a / 2, b / 2) && Xor(a, b) % 2 == (a + b) % 2
  {
  }

  lemma Halves(a: nat, m: nat, x: nat)
    requires x % 2 == (a + m) % 2
    ensures (x + m) % 2 == a % 2
  {
  }

  function XorByte(a: Byte, m: Byte): Byte {
    XorFitsByte(a, m);
    Xor(a, m)
  }

  lemma XorFitsByte(a: Byte, m: Byte)
    ensures 0 <= Xor(a, m) < 256
  {
    assert Pow2(4) == 16 && Pow2(8) == 256;
    XorFits(a, m, 8);
  }
}
