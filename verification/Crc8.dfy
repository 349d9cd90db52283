/**
 The 8-bit CRC with polynomial 0xD5 that CRSF (crsf_crc8 in src/drivers/receiver/sbus.c),
 SmartAudio (crc8 in src/drivers/vtx/vtx_smartaudio.c) and HDZero MSP v2 (hdzero_crc in
 src/drivers/osd/hdzero_msp.h) share.
 */
module Crc8 {
  import opened Bytes
  import opened Checksums
  import opened Polynomials

  const POLYNOMIAL: byte := 0xD5

  /** One turn of the inner loop. */
  function Shift(crc: byte): byte {
    if crc >= 128 then Xor(((crc as nat * 2) % 256) as byte, POLYNOMIAL) else crc * 2
  }

  function Absorb(crc: byte, b: byte): byte { Repeat(Shift, Xor(crc, b), 8) }

  function Crc(data: seq<byte>): byte { Fold(Absorb, 0, data) }

  /** The checksum with its two loops. */
  method Compute(data: seq<byte>) returns (crc: byte)
    ensures crc == Crc(data)
  {
    hide Shift, Xor;
    crc := 0;
    var i := 0;
    while i < |data|
      invariant 0 <= i <= |data| && crc == Crc(data[..i])
    {
      crc := Xor(crc, data[i]);
      ghost var before := crc;
      var bit := 0;
      while bit < 8
        invariant 0 <= bit <= 8 && crc == Repeat(Shift, before, bit)
      {
        crc := Shift(crc);
        bit := bit + 1;
      }
      assert data[..i + 1][..i] == data[..i];
      i := i + 1;
    }
    assert data[..|data|] == data;
  }

  lemma ShiftInjective(a: byte, b: byte)
    ensures Shift(a) == Shift(b) ==> a == b
  {
    hide Xor;
    var x, y := ((a as nat * 2) % 256) as byte, ((b as nat * 2) % 256) as byte;
    XorCancels(POLYNOMIAL, x, y);
    XorCancels(x, x, POLYNOMIAL);
    XorCancels(y, y, POLYNOMIAL);
  }

  /** A byte step loses nothing of the register and nothing of the byte. */
  lemma AbsorbLossless()
    ensures Lossless(Absorb)
  {
    hide Shift, Xor, Repeat, Absorb;
    forall a, b { ShiftInjective(a, b); }
    forall a, b, x { AbsorbInjective(a, b, x, x); }
    forall a, x, y { AbsorbInjective(a, a, x, y); }
  }

  lemma AbsorbInjective(a: byte, b: byte, x: byte, y: byte)
    requires Injective(Shift)
    ensures Absorb(a, x) == Absorb(b, x) ==> a == b
    ensures Absorb(a, x) == Absorb(a, y) ==> x == y
  {
    hide Xor, Shift, Repeat;
    RepeatInjective(Shift, Xor(a, x), Xor(b, x), 8);
    RepeatInjective(Shift, Xor(a, x), Xor(a, y), 8);
    XorCancels(x, a, b);
    XorCancels(a, x, y);
    XorCancels(a, a, x);
    XorCancels(b, b, x);
  }

  // ------------------------------------------------- the remainder of a division

  /** x^8 + x^7 + x^6 + x^4 + x^2 + 1 */
  function Divisor(): seq<bool> { Generator(8, {7, 6, 4, 2, 0}) }

  function Coefficients(b: byte): (s: seq<bool>)
    ensures |s| == 8
  {
    HighFirst(b as nat, 8)
  }

  lemma DivisorBits()
    ensures Coefficients(POLYNOMIAL) == Divisor()
  {
    hide HighFirst, Divisor, Generator;
    HighEight(0xD5);
    DivisorIs();
  }

  lemma DivisorIs()
    ensures Divisor() == [true, true, false, true, false, true, false, true]
  {}

  lemma ShiftTurns(w: byte)
    ensures Coefficients(Shift(w)) == Turned(Coefficients(w), false, Divisor())
  {
    hide HighFirst, XorBits, Generator;
    DivisorBits();
    EightOnes();
    HighTop(w as nat, 7);
    if w >= 128 {
      HighDouble(w as nat, 1, 8);
      HighXor(w as nat * 2 - 256, POLYNOMIAL as nat, 8);
      assert (w as nat * 2) % 256 == w as nat * 2 - 256;
    } else {
      HighDouble(w as nat, 0, 8);
    }
  }

  lemma AbsorbFeeds(w: byte, b: byte)
    requires Turns(Coefficients, Shift, Divisor())
    ensures Coefficients(Absorb(w, b)) == Fed(Coefficients(w), Coefficients(b), Divisor())
  {
    hide HighFirst, XorBits, Shift, Generator, Repeat;
    RepeatFeeds(Coefficients, Shift, Divisor(), Xor(w, b), 8);
    HighXor(w as nat, b as nat, 8);
    assert Coefficients(b) + Zeros(0) == Coefficients(b);
    Spread(Coefficients(w), Coefficients(b), Divisor());
  }

  /** The checksum is the remainder of the data, with eight zeros behind, by the generator. */
  lemma CrcIsRemainder(data: seq<byte>)
    ensures Coefficients(Crc(data)) == Remainder(Dividend(Zeros(8), Message(Coefficients, data)), Divisor())
  {
    hide HighFirst, Shift, Absorb, Generator, Remainder;
    forall w { ShiftTurns(w); }
    forall w, b { AbsorbFeeds(w, b); }
    HighZero(8);
    FoldDivides(Coefficients, Coefficients, Absorb, Divisor(), 0, data);
  }
}
