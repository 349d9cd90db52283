/**
 The software UART of src/protocol/esc_passthrough.c: boot_write_byte puts eleven symbols of 52
 ticks on the line, boot_read_byte samples ten of them after it has seen the start bit.
 */
module SoftUart {
  import opened Bytes
  import opened Records

  const CELL := 52
  const FIRST := 39

  /** The bits of a number, least significant first, up to its highest one. */
  function Bits(n: nat): (s: seq<nat>)
    ensures |s| > 0
  {
    if n / 2 == 0 then [n % 2] else [n % 2] + Bits(n / 2)
  }

  /** What boot_write_byte shifts out: an idle symbol, the start bit, the byte, the stop bit. */
  function Word(value: byte): nat { value as nat * 4 + 1 + 1024 }

  function Bit(value: nat, k: nat): (b: nat)
    ensures b <= 1
  {
    if k == 0 then value % 2 else Bit(value / 2, k - 1)
  }

  /** boot_write_byte with its do-while loop. */
  method WriteByte(value: byte) returns (symbols: seq<nat>)
    ensures symbols == Bits(Word(value))
  {
    var bits := Word(value);
    symbols := [bits % 2];
    bits := bits / 2;
    while bits != 0
      invariant Bits(Word(value)) == if bits == 0 then symbols else symbols + Bits(bits)
    {
      assert bits / 2 != 0 ==> symbols + ([bits % 2] + Bits(bits / 2)) == (symbols + [bits % 2]) + Bits(bits / 2);
      symbols := symbols + [bits % 2];
      bits := bits / 2;
    }
  }

  lemma {:induction false} BitsAt(n: nat, k: nat)
    ensures k < |Bits(n)| ==> Bits(n)[k] == Bit(n, k)
    ensures |Bits(n)| <= k ==> Bit(n, k) == 0
  {
    if k > 0 {
      if n / 2 == 0 { ZeroBits(k - 1); } else { BitsAt(n / 2, k - 1); }
    }
  }

  lemma {:induction false} ZeroBits(k: nat)
    ensures Bit(0, k) == 0
  {
    if k > 0 { ZeroBits(k - 1); }
  }

  /** A number with its highest bit at position `k` has k + 1 bits. */
  lemma {:induction false} BitsLength(n: nat, k: nat, low: nat, high: nat)
    requires low == Power(k) && high == 2 * low && low <= n < high
    ensures |Bits(n)| == k + 1
  {
    if k > 0 { BitsLength(n / 2, k - 1, low / 2, low); }
  }

  function Power(k: nat): nat { if k == 0 then 1 else 2 * Power(k - 1) }

  /** Exactly eleven symbols for any byte: high, the start bit, the byte's bits, the stop bit. */
  lemma ElevenSymbols(value: byte)
    ensures var s := Bits(Word(value));
      |s| == 11 && s[0] == 1 && s[1] == 0 && s[10] == 1 && forall k :: 2 <= k < 10 ==> s[k] == Bit(value as nat, k - 2)
  {
    Tenth();
    BitsLength(Word(value), 10, 1024, 2048);
    var n := Word(value);
    BitsAt(n, 0);
    BitsAt(n, 1);
    Drop(n, 1);
    LastIsOne(n);
    forall k | 2 <= k < 10
      ensures Bits(n)[k] == Bit(value as nat, k - 2)
    {
      BitsAt(n, k);
      LowBits(value as nat, k - 2);
    }
  }

  lemma Tenth()
    ensures Power(10) == 1024
  {
    assert Power(5) == 32;
  }

  lemma Drop(n: nat, k: nat)
    requires k > 0
    ensures Bit(n, k) == Bit(n / 2, k - 1)
  {}

  lemma {:induction false} LowBits(v: nat, k: nat)
    requires k < 8 && v < 256
    ensures Bit(v * 4 + 1 + 1024, 2 + k) == Bit(v, k)
  {
    Drop(v * 4 + 1025, 2 + k);
    Drop((v * 4 + 1025) / 2, 1 + k);
    assert ((v * 4 + 1025) / 2) / 2 == v + 256;
    HighPart(v, 128, k, 7);
  }

  /** Adding a higher power of two leaves the lower bits alone. */
  lemma {:induction false} HighPart(v: nat, half: nat, k: nat, m: nat)
    requires k <= m && half == Power(m)
    ensures Bit(v + 2 * half, k) == Bit(v, k)
  {
    if k > 0 {
      HighPart(v / 2, half / 2, k - 1, m - 1);
      assert (v + 2 * half) / 2 == v / 2 + half;
    }
  }

  /** The last symbol of a positive number is its highest bit. */
  lemma {:induction false} LastIsOne(n: nat)
    requires n > 0
    ensures Bits(n)[|Bits(n)| - 1] == 1
  {
    if n / 2 != 0 { LastIsOne(n / 2); }
  }

  // ------------------------------------------------- the reader

  /** The line, `t` ticks after the falling edge of the start bit, which is symbol 1; it stays high afterwards. */
  function Level(symbols: seq<nat>, t: nat): nat {
    if t / CELL + 1 < |symbols| then symbols[t / CELL + 1] else 1
  }

  /** The ten samples as a number, when the reader noticed the edge `late` ticks after it. */
  function Samples(symbols: seq<nat>, late: nat, n: nat): nat {
    if n == 0 then 0
    else Samples(symbols, late, n - 1) + Level(symbols, late + FIRST + (n - 1) * CELL) * Power(n - 1)
  }

  /** boot_read_byte once the start bit is there. */
  function Received(symbols: seq<nat>, late: nat): Option<nat> {
    var bits := Samples(symbols, late, 10);
    if Level(symbols, late + FIRST) == 1 || Level(symbols, late + FIRST + 9 * CELL) == 0 then None
    else Some((bits / 2) % 256)
  }

  /** boot_read_byte with its sampling loop. */
  method ReadByte(symbols: seq<nat>, late: nat) returns (value: Option<nat>)
    ensures value == Received(symbols, late)
  {
    hide Power, Level;
    var bits, bit := 0, 0;
    while bit < 10
      invariant 0 <= bit <= 10 && bits == Samples(symbols, late, bit)
    {
      if Level(symbols, late + FIRST + bit * CELL) != 0 {
        bits := bits + Level(symbols, late + FIRST + bit * CELL) * Power(bit);
      }
      bit := bit + 1;
    }
    if Level(symbols, late + FIRST) == 1 || Level(symbols, late + FIRST + 9 * CELL) == 0 { return None; }
    value := Some((bits / 2) % 256);
  }

  /** On time, sample `i` is symbol i + 1. */
  lemma SampleAt(symbols: seq<nat>, late: nat, i: nat)
    requires |symbols| == 11 && late < 13 && i < 10
    ensures Level(symbols, late + FIRST + i * CELL) == symbols[i + 1]
  {
    assert (late + FIRST + i * CELL) / CELL == i;
  }

  /** The bits of a value below Power(n), summed up. */
  function Sum(value: nat, n: nat): nat { if n == 0 then 0 else value % 2 + 2 * Sum(value / 2, n - 1) }

  lemma {:induction false} SumIsValue(value: nat, n: nat)
    requires value < Power(n)
    ensures Sum(value, n) == value
  {
    if n > 0 { SumIsValue(value / 2, n - 1); }
  }

  lemma {:induction false} SumLast(value: nat, n: nat)
    ensures Sum(value, n + 1) == Sum(value, n) + Bit(value, n) * Power(n)
  {
    if n > 0 {
      SumLast(value / 2, n - 1);
      Twice(Bit(value / 2, n - 1), Power(n - 1));
    }
  }

  lemma Twice(b: nat, p: nat)
    ensures 2 * (b * p) == b * (2 * p)
  {}

  /** The first samples hold the byte, shifted past the start bit. */
  lemma {:induction false} SamplesHold(value: byte, late: nat, n: nat)
    requires late < 13 && n <= 8
    ensures Samples(Bits(Word(value)), late, n + 1) == 2 * Sum(value as nat, n)
  {
    ElevenSymbols(value);
    var s := Bits(Word(value));
    SampleAt(s, late, n);
    hide Level, Bits, Word;
    if n > 0 {
      SamplesHold(value, late, n - 1);
      SumLast(value as nat, n - 1);
      Twice(Bit(value as nat, n - 1), Power(n - 1));
    }
  }

  /** A reader that notices the start bit within 12 ticks receives the byte that was written. */
  lemma ByteArrives(value: byte, late: nat)
    requires late < 13
    ensures Received(Bits(Word(value)), late) == Some(value as nat)
  {
    hide Level, Bits, Word, Sum, Samples, Power;
    Framed(value, late);
    SamplesHold(value, late, 8);
    Eighth();
    SumIsValue(value as nat, 8);
    LastSample(Bits(Word(value)), late);
  }

  /** The start bit and the stop bit are sampled. */
  lemma Framed(value: byte, late: nat)
    requires late < 13
    ensures Level(Bits(Word(value)), late + FIRST) == 0 && Level(Bits(Word(value)), late + FIRST + 9 * CELL) == 1
  {
    hide Bits, Word;
    ElevenSymbols(value);
    assert (late + FIRST) / CELL == 0 && (late + FIRST + 9 * CELL) / CELL == 9;
  }

  lemma LastSample(s: seq<nat>, late: nat)
    requires Level(s, late + FIRST + 9 * CELL) == 1
    ensures Samples(s, late, 10) == Samples(s, late, 9) + 512
  {
    Eighth();
    hide Level, Power;
  }

  lemma Eighth()
    ensures Power(8) == 256 && Power(9) == 512
  {
    assert Power(4) == 16;
  }

  /** 12 ticks is the limit: a reader any later than that, up to a cell, loses some byte. */
  lemma LateReaderFails(late: nat)
    requires 13 <= late < 65
    ensures Received(Bits(Word(1)), late) == None
  {
    ElevenSymbols(1);
    assert (late + FIRST) / CELL == 1;
    assert Bit(1, 0) == 1;
  }
}
