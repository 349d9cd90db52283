/**
 The CRC-16 of the 4-way interface: crc_xmodem of src/protocol/esc_passthrough.c,
 polynomial 0x1021, most significant bit first, register 0 at the start.
 */
module Crc16 {
  import opened Bytes
  import opened Checksums
  import opened Polynomials

  type word = w: nat | w < 65536

  const POLYNOMIAL: word := 0x1021

  /** One turn of the inner loop. */
  function Shift(crc: word): word {
    if crc >= 32768 then Xor16((crc * 2) % 65536, POLYNOMIAL) else crc * 2
  }

  function Mix(crc: word, b: byte): word { Xor16(crc, b as nat * 256) }

  /** crc_xmodem */
  function Absorb(crc: word, b: byte): word { Repeat(Shift, Mix(crc, b), 8) }

  function Crc(data: seq<byte>): word { Fold(Absorb, 0, data) }

  /** crc_xmodem with its loop. */
  method Update(crc: word, b: byte) returns (r: word)
    ensures r == Absorb(crc, b)
  {
    hide Shift, Mix;
    r := Mix(crc, b);
    var bit := 0;
    while bit < 8
      invariant 0 <= bit <= 8 && r == Repeat(Shift, Mix(crc, b), bit)
    {
      r := Shift(r);
      bit := bit + 1;
    }
  }

  lemma CrcStep(data: seq<byte>, b: byte)
    ensures Crc([]) == 0 && Crc(data + [b]) == Absorb(Crc(data), b)
  {
    hide Absorb, Fold;
    FoldStep(Absorb, 0, data, b);
  }

  lemma ShiftInjective(a: word, b: word)
    ensures Shift(a) == Shift(b) ==> a == b
  {
    hide Xor16;
    var x, y := (a * 2) % 65536, (b * 2) % 65536;
    Xor16Cancels(POLYNOMIAL, x, y);
    Xor16Cancels(x, x, POLYNOMIAL);
    Xor16Cancels(y, y, POLYNOMIAL);
    Xor16Cancels(x, POLYNOMIAL, x);
    Xor16Cancels(y, POLYNOMIAL, y);
  }

  lemma MixInjective(a: word, b: word, x: byte, y: byte)
    ensures Mix(a, x) == Mix(b, x) ==> a == b
    ensures Mix(a, x) == Mix(a, y) ==> x == y
  {
    hide Xor16;
    var u, v := x as nat * 256, y as nat * 256;
    Xor16Cancels(a, u, v);
    Xor16Cancels(u, a, b);
    Xor16Cancels(u, a, u);
    Xor16Cancels(u, b, u);
  }

  /** A byte step loses nothing of the register and nothing of the byte. */
  lemma AbsorbLossless()
    ensures Lossless(Absorb)
  {
    hide Shift, Mix, Repeat, Absorb;
    forall a, b { ShiftInjective(a, b); }
    forall a, b, x { AbsorbInjective(a, b, x, x); }
    forall a, x, y { AbsorbInjective(a, a, x, y); }
  }

  lemma AbsorbInjective(a: word, b: word, x: byte, y: byte)
    requires Injective(Shift)
    ensures Absorb(a, x) == Absorb(b, x) ==> a == b
    ensures Absorb(a, x) == Absorb(a, y) ==> x == y
  {
    hide Shift, Mix, Repeat;
    RepeatInjective(Shift, Mix(a, x), Mix(b, x), 8);
    RepeatInjective(Shift, Mix(a, x), Mix(a, y), 8);
    MixInjective(a, b, x, y);
  }

  // ------------------------------------------------- the remainder of a division

  /** x^16 + x^12 + x^5 + 1 */
  function Divisor(): seq<bool> { Generator(16, {12, 5, 0}) }

  function Coefficients(w: word): (s: seq<bool>)
    ensures |s| == 16
  {
    HighFirst(w, 16)
  }

  function BitsOf(b: byte): seq<bool> { HighFirst(b as nat, 8) }

  lemma DivisorBits()
    ensures Coefficients(POLYNOMIAL) == Divisor()
  {
    hide HighFirst, Divisor, Generator;
    EightOnes();
    HighEight(0x10);
    HighEight(0x21);
    HighSplit(0x10, 0x21, 8, 8);
    DivisorIs();
  }

  lemma DivisorIs()
    ensures Divisor() == [false, false, false, true, false, false, false, false,
                          false, false, true, false, false, false, false, true]
  {
    var g := Divisor();
    assert forall i :: 0 <= i < 16 ==> g[i] == (i == 3 || i == 10 || i == 15);
  }

  lemma ShiftTurns(w: word)
    ensures Coefficients(Shift(w)) == Turned(Coefficients(w), false, Divisor())
  {
    hide HighFirst, XorBits, Generator;
    DivisorBits();
    OnesOf16();
    HighTop(w, 15);
    if w >= 32768 {
      HighDouble(w, 1, 16);
      HighXor(w * 2 - 65536, POLYNOMIAL, 16);
      assert (w * 2) % 65536 == w * 2 - 65536;
    } else {
      HighDouble(w, 0, 16);
    }
  }

  lemma OctetHigh(b: byte)
    ensures Coefficients(b as nat * 256) == BitsOf(b) + Zeros(8)
  {
    EightOnes();
    HighSplit(b as nat, 0, 8, 8);
    HighZero(8);
  }

  lemma AbsorbFeeds(w: word, b: byte)
    requires Turns(Coefficients, Shift, Divisor())
    ensures Coefficients(Absorb(w, b)) == Fed(Coefficients(w), BitsOf(b), Divisor())
  {
    hide HighFirst, XorBits, Shift, Generator, Repeat;
    RepeatFeeds(Coefficients, Shift, Divisor(), Mix(w, b), 8);
    HighXor(w, b as nat * 256, 16);
    OctetHigh(b);
    Spread(Coefficients(w), BitsOf(b), Divisor());
  }

  /** The checksum is the remainder of the data, with sixteen zeros behind, by x^16 + x^12 + x^5 + 1. */
  lemma CrcIsRemainder(data: seq<byte>)
    ensures Coefficients(Crc(data)) == Remainder(Dividend(Zeros(16), Message(BitsOf, data)), Divisor())
  {
    hide HighFirst, Shift, Absorb, Generator, Remainder;
    forall w { ShiftTurns(w); }
    forall w, b { AbsorbFeeds(w, b); }
    HighZero(16);
    FoldDivides(Coefficients, BitsOf, Absorb, Divisor(), 0, data);
  }
}
