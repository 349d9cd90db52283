/**
 The reflected CRC-32 of settings_backup_crc (src/protocol/settings_backup_protocol.h), as in
 section 8 of RFC 1952.
 */
module Crc32 {
  import opened Checksums
  import opened Polynomials

  type octet = bv8

  const POLYNOMIAL: bv32 := 0xEDB88320

  /** One turn of the inner loop. */
  function Shift(crc: bv32): bv32 { (crc >> 1) ^ (POLYNOMIAL & (0 - (crc & 1))) }

  function Mix(crc: bv32, b: octet): bv32 { crc ^ (b as bv32) }

  /** The register after one more byte. */
  function Absorb(crc: bv32, b: octet): bv32 { Repeat(Shift, Mix(crc, b), 8) }

  function Register(data: seq<octet>): bv32 { Fold(Absorb, 0xFFFFFFFF, data) }

  function Flip(a: bv32): bv32 { !a }

  function Crc(data: seq<octet>): bv32 { Flip(Register(data)) }

  /** settings_backup_crc with its two loops. */
  method Compute(data: seq<octet>) returns (r: bv32)
    ensures r == Crc(data)
  {
    hide Shift, Mix, Flip;
    var crc: bv32 := 0xFFFFFFFF;
    var i := 0;
    while i < |data|
      invariant 0 <= i <= |data| && crc == Register(data[..i])
    {
      crc := Mix(crc, data[i]);
      ghost var before := crc;
      var bit := 0;
      while bit < 8
        invariant 0 <= bit <= 8 && crc == Repeat(Shift, before, bit)
      {
        crc := Shift(crc);
        bit := bit + 1;
      }
      assert data[..i + 1][..i] == data[..i];
      i := i + 1;
    }
    assert data[..|data|] == data;
    r := Flip(crc);
  }

  lemma ShiftInjective(a: bv32, b: bv32)
    ensures Shift(a) == Shift(b) ==> a == b
  {}

  lemma MixInjective(a: bv32, b: bv32, x: octet, y: octet)
    ensures Mix(a, x) == Mix(b, x) ==> a == b
    ensures Mix(a, x) == Mix(a, y) ==> x == y
  {
    XorCancels(a, x as bv32, y as bv32);
    WideInjective(x, y);
  }

  lemma XorCancels(x: bv32, a: bv32, b: bv32)
    ensures x ^ a == x ^ b ==> a == b
  {}

  lemma WideInjective(x: octet, y: octet)
    ensures x as bv32 == y as bv32 ==> x == y
  {}

  /** A byte step loses nothing of the register and nothing of the byte. */
  lemma AbsorbLossless()
    ensures Lossless(Absorb)
  {
    hide Shift, Mix, Repeat, Absorb;
    forall a, b { ShiftInjective(a, b); }
    forall a, b, x { AbsorbInjective(a, b, x, x); }
    forall a, x, y { AbsorbInjective(a, a, x, y); }
  }

  lemma AbsorbInjective(a: bv32, b: bv32, x: octet, y: octet)
    requires Injective(Shift)
    ensures Absorb(a, x) == Absorb(b, x) ==> a == b
    ensures Absorb(a, x) == Absorb(a, y) ==> x == y
  {
    hide Shift, Mix, Repeat;
    RepeatInjective(Shift, Mix(a, x), Mix(b, x), 8);
    RepeatInjective(Shift, Mix(a, x), Mix(a, y), 8);
    MixInjective(a, b, x, y);
  }

  /** Two payloads of any length that differ in exactly one byte have different checksums. */
  lemma CorruptionDetected(p: seq<octet>, q: seq<octet>, k: nat)
    requires |p| == |q| && k < |p| && p[k] != q[k]
    requires forall i :: 0 <= i < |p| && i != k ==> p[i] == q[i]
    ensures Crc(p) != Crc(q)
  {
    hide Absorb, Flip, Fold;
    AbsorbLossless();
    SingleByteDetected(Absorb, 0xFFFFFFFF, p, q, k);
    FlipInjective(Register(p), Register(q));
  }

  lemma FlipInjective(a: bv32, b: bv32)
    ensures Flip(a) == Flip(b) ==> a == b
  {}

  // ------------------------------------------------- the remainder of a division

  /** x^32 + x^26 + x^23 + x^22 + x^16 + x^12 + x^11 + x^10 + x^8 + x^7 + x^5 + x^4 + x^2 + x + 1 */
  function Divisor(): seq<bool> { Generator(32, {26, 23, 22, 16, 12, 11, 10, 8, 7, 5, 4, 2, 1, 0}) }

  function Half(w: bv32): bv32 { w >> 1 }

  predicate Odd(w: bv32) { w & 1 == 1 }

  function Both(a: bv32, b: bv32): bv32 { a ^ b }

  /** The lowest bits of the register, which is reflected: its lowest bit is the highest coefficient. */
  function Low(w: bv32, n: nat): (s: seq<bool>)
    ensures |s| == n
    decreases n
  {
    if n == 0 then [] else [Odd(w)] + Low(Half(w), n - 1)
  }

  function Coefficients(w: bv32): (s: seq<bool>)
    ensures |s| == 32
  {
    Low(w, 32)
  }

  function BitsOf(b: octet): seq<bool> { Low(b as bv32, 8) }

  lemma XorParts(a: bv32, b: bv32)
    ensures Half(Both(a, b)) == Both(Half(a), Half(b)) && (Odd(Both(a, b)) <==> Odd(a) != Odd(b))
  {}

  lemma {:induction false} LowXor(a: bv32, b: bv32, n: nat)
    ensures Low(Both(a, b), n) == Sum(Low(a, n), Low(b, n))
    decreases n
  {
    hide Half, Odd, Both;
    if n > 0 {
      XorParts(a, b);
      LowXor(Half(a), Half(b), n - 1);
    }
  }

  /** The value has at most `n` bits. */
  predicate Below(w: bv32, n: nat)
    decreases n
  {
    if n == 0 then w == 0 else Below(Half(w), n - 1)
  }

  lemma {:induction false} LowZeros(w: bv32, n: nat, more: nat)
    requires Below(w, n)
    ensures Low(w, n + more) == Low(w, n) + Zeros(more)
    decreases n, more
  {
    hide Half, Odd;
    if n > 0 {
      LowZeros(Half(w), n - 1, more);
    } else if more > 0 {
      NothingHalved();
      LowZeros(0, 0, more - 1);
    }
  }

  lemma NothingHalved()
    ensures Half(0) == 0 && !Odd(0)
  {}

  function Octet(w: bv32): bv32 { w >> 8 }

  /** Eight halvings. */
  lemma EightHalves(w: bv32)
    ensures Half(Half(Half(Half(Half(Half(Half(Half(w)))))))) == Octet(w)
  {}

  lemma BelowOctet(w: bv32, n: nat)
    requires Below(Octet(w), n)
    ensures Below(w, n + 8)
  {
    hide Half, Octet;
    EightHalves(w);
    var a := Half(w);
    var b := Half(a);
    var c := Half(b);
    var d := Half(c);
    var e := Half(d);
    var f := Half(e);
    var g := Half(f);
    assert Below(Half(g), n) && Below(g, n + 1) && Below(f, n + 2) && Below(e, n + 3) && Below(d, n + 4);
    assert Below(c, n + 5) && Below(b, n + 6) && Below(a, n + 7);
  }

  lemma OctetsGone(w: bv32)
    ensures Octet(Octet(Octet(Octet(w)))) == 0
  {}

  lemma HalfBelow(w: bv32)
    ensures Below(Half(w), 31)
  {
    hide Half, Octet;
    OctetsGone(w);
    BelowOctet(Octet(Octet(Octet(w))), 0);
    BelowOctet(Octet(Octet(w)), 8);
    BelowOctet(Octet(w), 16);
    BelowOctet(w, 24);
  }

  lemma OctetBelow(b: octet)
    ensures Below(b as bv32, 8)
  {
    assert Octet(b as bv32) == 0;
    BelowOctet(b as bv32, 0);
  }

  /** The halving of the register, with the generator if a one falls out. */
  lemma ShiftParts(w: bv32)
    ensures Shift(w) == if Odd(w) then Both(Half(w), POLYNOMIAL) else Half(w)
  {
    LastBit(w);
    if w & 1 == 1 { Minus(w & 1); } else { NoMask(w >> 1); }
  }

  lemma LastBit(w: bv32)
    ensures w & 1 == 1 || w & 1 == 0
  {}

  lemma Minus(one: bv32)
    requires one == 1
    ensures POLYNOMIAL & (0 - one) == POLYNOMIAL
  {}

  lemma NoMask(h: bv32)
    ensures h ^ (POLYNOMIAL & (0 - 0)) == h
  {}

  lemma LowFour(w: bv32, n: nat)
    ensures Low(w, n + 4) == [Odd(w), Odd(Half(w)), Odd(Half(Half(w))), Odd(Half(Half(Half(w))))] + Low(w >> 4, n)
  {
    FourHalves(w);
    hide Half, Odd;
    var a := Half(w);
    var b := Half(a);
    var c := Half(b);
    assert Low(w, n + 4) == [Odd(w)] + Low(a, n + 3);
    assert Low(a, n + 3) == [Odd(a)] + Low(b, n + 2);
    assert Low(b, n + 2) == [Odd(b)] + Low(c, n + 1);
    assert Low(c, n + 1) == [Odd(c)] + Low(Half(c), n);
  }

  lemma FourHalves(w: bv32)
    ensures Half(Half(Half(Half(w)))) == w >> 4
  {}

  /** Four bits of the polynomial. */
  lemma Nibble(w: bv32, n: nat, a: bool, b: bool, c: bool, d: bool)
    requires Odd(w) == a && Odd(Half(w)) == b && Odd(Half(Half(w))) == c && Odd(Half(Half(Half(w)))) == d
    ensures Low(w, n + 4) == [a, b, c, d] + Low(w >> 4, n)
  {
    LowFour(w, n);
    hide Low, Half, Odd;
  }

  lemma LowerBits()
    ensures Low(0xEDB88320, 32) == [false, false, false, false, false, true, false, false, true, true, false, false, false, false, false, true]
                                   + Low(0xEDB8, 16)
  {
    Nibble(0xEDB88320, 28, false, false, false, false);
    Nibble(0xEDB8832, 24, false, true, false, false);
    Nibble(0xEDB883, 20, true, true, false, false);
    Nibble(0xEDB88, 16, false, false, false, true);
    hide Low, Half, Odd;
  }

  lemma UpperBits()
    ensures Low(0xEDB8, 16) == [false, false, false, true, true, true, false, true, true, false, true, true, false, true, true, true]
                                   
  {
    Nibble(0xEDB8, 12, false, false, false, true);
    Nibble(0xEDB, 8, true, true, false, true);
    Nibble(0xED, 4, true, false, true, true);
    Nibble(0xE, 0, false, true, true, true);
    hide Low, Half, Odd;
  }

  lemma DivisorIs()
    ensures Divisor() == [false, false, false, false, false, true, false, false, true, true, false, false, false, false, false, true,
                          false, false, false, true, true, true, false, true, true, false, true, true, false, true, true, true]
  {
    var g := Divisor();
    assert forall i :: 0 <= i < 8 ==> g[i] == (i == 5);
    assert forall i :: 8 <= i < 16 ==> g[i] == (i == 8 || i == 9 || i == 15);
    assert forall i :: 16 <= i < 24 ==> g[i] == (i == 19 || i == 20 || i == 21 || i == 23);
    assert forall i :: 24 <= i < 32 ==> g[i] == (i != 25 && i != 28);
  }

  lemma DivisorBits()
    ensures Coefficients(POLYNOMIAL) == Divisor()
  {
    hide Low, Half, Odd, Divisor;
    LowerBits();
    UpperBits();
    DivisorIs();
  }

  lemma ShiftTurns(w: bv32)
    ensures Coefficients(Shift(w)) == Turned(Coefficients(w), false, Divisor())
  {
    hide Half, Odd, Both, Shift, Generator, Below;
    ShiftParts(w);
    DivisorBits();
    HalfBelow(w);
    LowZeros(Half(w), 31, 1);
    assert Zeros(1) == [false];
    if Odd(w) { LowXor(Half(w), POLYNOMIAL, 32); }
  }

  lemma AbsorbFeeds(w: bv32, b: octet)
    requires Turns(Coefficients, Shift, Divisor())
    ensures Coefficients(Absorb(w, b)) == Fed(Coefficients(w), BitsOf(b), Divisor())
  {
    hide Low, Shift, Generator, Repeat;
    RepeatFeeds(Coefficients, Shift, Divisor(), Mix(w, b), 8);
    MixIs(w, b);
    LowXor(w, b as bv32, 32);
    OctetBelow(b);
    LowZeros(b as bv32, 8, 24);
    Spread(Coefficients(w), BitsOf(b), Divisor());
  }

  lemma MixIs(w: bv32, b: octet)
    ensures Mix(w, b) == Both(w, b as bv32)
  {}

  // ------------------------------------------------- all ones, before and after

  function Ones(n: nat): (s: seq<bool>)
    ensures |s| == n
  {
    seq(n, _ => true)
  }

  /** The checksum is the inverted remainder of the data, each byte lowest bit first, its first 32 bits
      inverted and 32 zeros behind, by the generator of section 8.1.1.6.2 of ITU-T V.42. */
  lemma CrcIsRemainder(data: seq<octet>)
    ensures Coefficients(Crc(data)) == Sum(Remainder(Dividend(Ones(32), Message(BitsOf, data)), Divisor()), Ones(32))
  {
    hide Low, Shift, Absorb, Generator, Remainder;
    forall w { ShiftTurns(w); }
    forall w, b { AbsorbFeeds(w, b); }
    FullBits();
    FoldDivides(Coefficients, BitsOf, Absorb, Divisor(), 0xFFFFFFFF, data);
    FlipIs(Register(data));
    LowXor(Register(data), 0xFFFFFFFF, 32);
  }

  lemma FlipIs(w: bv32)
    ensures Flip(w) == Both(w, 0xFFFFFFFF)
  {}

  lemma FullBits()
    ensures Coefficients(0xFFFFFFFF) == Ones(32)
  {
    FullByte(0xFFFFFFFF, 24);
    FullByte(0xFFFFFF, 16);
    FullByte(0xFFFF, 8);
    FullByte(0xFF, 0);
    assert Low(0, 0) == [];
  }

  lemma FullByte(w: bv32, n: nat)
    requires w == 0xFFFFFFFF || w == 0xFFFFFF || w == 0xFFFF || w == 0xFF
    ensures Low(w, n + 8) == Ones(8) + Low(w >> 8, n)
  {
    Nibble(w, n + 4, true, true, true, true);
    Nibble(w >> 4, n, true, true, true, true);
    hide Low;
  }
}
