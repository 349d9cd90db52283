/** Octets, little-endian words and the wrap-around of unsigned 32-bit counters. */
module Bytes {
  newtype byte = x: int | 0 <= x < 256

  const WORD: nat := 0x1_0000_0000

  function Add32(a: int, b: int): nat { (a + b) % WORD }

  /** The value of `(uint32_t)(a - b)`. */
  function Sub32(a: int, b: int): nat { (a - b) % WORD }

  /** Bitwise AND of the low `n` bits, one bit at a time. */
  function AndBits(a: nat, b: nat, n: nat): (r: nat)
    ensures r <= a
  {
    if n == 0 then 0
    else 2 * AndBits(a / 2, b / 2, n - 1) + if a % 2 == 1 && b % 2 == 1 then 1 else 0
  }

  /** Bitwise AND of two octets: what programming a NOR cell does to it. */
  function And(a: byte, b: byte): byte { AndBits(a as nat, b as nat, 8) as byte }

  function Ones(n: nat): nat { if n == 0 then 0 else 2 * Ones(n - 1) + 1 }

  lemma {:induction false} AndBitsOnes(b: nat, n: nat)
    requires b <= Ones(n)
    ensures AndBits(Ones(n), b, n) == b && AndBits(b, Ones(n), n) == b
  {
    if n > 0 { AndBitsOnes(b / 2, n - 1); }
  }

  /** A blank cell takes the programmed value. */
  lemma AndOnes(b: byte)
    ensures And(255, b) == b && And(b, 255) == b
  {
    assert Ones(4) == 15 && Ones(8) == 255;
    AndBitsOnes(b as nat, 8);
  }

  /** A 32-bit value as four octets, least significant first. */
  function Encode32(v: nat): (r: seq<byte>)
    requires v < WORD
    ensures |r| == 4
  {
    var v1 := v / 256;
    var v2 := v1 / 256;
    [(v % 256) as byte, (v1 % 256) as byte, (v2 % 256) as byte, (v2 / 256) as byte]
  }

  function Decode32(s: seq<byte>, at: nat): nat
    requires at + 4 <= |s|
  {
    s[at] as nat + 256 * (s[at + 1] as nat + 256 * (s[at + 2] as nat + 256 * s[at + 3] as nat))
  }

  function Decode16(s: seq<byte>, at: nat): nat
    requires at + 2 <= |s|
  {
    s[at] as nat + 256 * s[at + 1] as nat
  }

  /** Exclusive or of the low `n` bits, one bit at a time. */
  function XorBits(a: nat, b: nat, n: nat): (r: nat)
    ensures r <= Ones(n)
  {
    if n == 0 then 0 else 2 * XorBits(a / 2, b / 2, n - 1) + (a + b) % 2
  }

  /** Exclusive or of two octets. */
  function Xor(a: byte, b: byte): byte {
    EightOnes();
    XorBits(a as nat, b as nat, 8) as byte
  }

  lemma {:induction false} XorBitsSwap(a: nat, b: nat, n: nat)
    ensures XorBits(a, b, n) == XorBits(b, a, n)
  {
    if n > 0 { XorBitsSwap(a / 2, b / 2, n - 1); }
  }

  /** Exclusive or with the same value loses nothing. */
  lemma {:induction false} XorBitsCancels(x: nat, a: nat, b: nat, n: nat)
    requires a <= Ones(n) && b <= Ones(n) && XorBits(x, a, n) == XorBits(x, b, n)
    ensures a == b
  {
    hide XorBits;
    if n > 0 {
      XorBitsParity(x, a, n);
      XorBitsParity(x, b, n);
      XorBitsCancels(x / 2, a / 2, b / 2, n - 1);
      Halves(x, a, b);
    }
  }

  lemma Halves(x: nat, a: nat, b: nat)
    requires (x + a) % 2 == (x + b) % 2 && a / 2 == b / 2
    ensures a == b
  {}

  lemma XorBitsParity(a: nat, b: nat, n: nat)
    requires n > 0
    ensures XorBits(a, b, n) % 2 == (a + b) % 2 && XorBits(a, b, n) / 2 == XorBits(a / 2, b / 2, n - 1)
  {}

  lemma EightOnes()
    ensures Ones(8) == 255
  {
    assert Ones(4) == 15;
  }

  lemma XorCancels(x: byte, a: byte, b: byte)
    ensures Xor(a, b) == Xor(b, a)
    ensures Xor(x, a) == Xor(x, b) ==> a == b
    ensures Xor(a, b) as nat % 2 == (a as nat + b as nat) % 2
  {
    EightOnes();
    hide XorBits, Ones;
    XorBitsSwap(a as nat, b as nat, 8);
    XorBitsParity(a as nat, b as nat, 8);
    if Xor(x, a) == Xor(x, b) { XorBitsCancels(x as nat, a as nat, b as nat, 8); }
  }

  lemma OnesOf16()
    ensures Ones(16) == 65535
  {
    assert Ones(4) == 15;
    assert Ones(8) == 255;
    assert Ones(12) == 4095;
  }

  /** Exclusive or of two 16-bit words. */
  function Xor16(a: nat, b: nat): (r: nat)
    ensures r < 65536
  {
    OnesOf16();
    XorBits(a, b, 16)
  }

  lemma Xor16Cancels(x: nat, a: nat, b: nat)
    requires a < 65536 && b < 65536
    ensures Xor16(a, b) == Xor16(b, a)
    ensures Xor16(x, a) == Xor16(x, b) ==> a == b
    ensures Xor16(x, a) % 2 == (x + a) % 2
  {
    OnesOf16();
    hide XorBits, Ones;
    XorBitsSwap(a, b, 16);
    XorBitsParity(x, a, 16);
    if Xor16(x, a) == Xor16(x, b) { XorBitsCancels(x, a, b, 16); }
  }
}
