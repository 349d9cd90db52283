/**
 The sixteen 11-bit channels in 22 bytes that SBUS and CRSF frames carry
 (the unpacking loops of src/drivers/receiver/sbus.c), and the packer they undo.
 */
module Channels {
  import opened Bytes

  /** The number with the given digits, least significant first. */
  function Value(digits: seq<nat>, base: nat): nat {
    if digits == [] then 0 else digits[0] + base * Value(digits[1..], base)
  }

  predicate DigitsBelow(digits: seq<nat>, base: nat) { forall i :: 0 <= i < |digits| ==> digits[i] < base }

  /** The two bases in use: an octet and an 11-bit channel. */
  predicate Radix(base: nat) { base == 256 || base == 2048 }

  function Rest(v: nat, base: nat): nat
    requires Radix(base)
  {
    if base == 256 then v / 256 else v / 2048
  }

  function Digit(v: nat, base: nat): (d: nat)
    requires Radix(base)
    ensures d < base
  {
    if base == 256 then v % 256 else v % 2048
  }

  function Digits(v: nat, base: nat, n: nat): (d: seq<nat>)
    requires Radix(base)
    ensures |d| == n
  {
    if n == 0 then [] else [Digit(v, base)] + Digits(Rest(v, base), base, n - 1)
  }

  function Pow(base: nat, n: nat): nat { if n == 0 then 1 else base * Pow(base, n - 1) }

  function Octets(data: seq<byte>): (o: seq<nat>)
    ensures |o| == |data| && DigitsBelow(o, 256)
  {
    seq(|data|, i requires 0 <= i < |data| => data[i] as nat)
  }

  lemma DivMod(q: nat, r: nat, base: nat)
    requires Radix(base) && r < base
    ensures Rest(r + base * q, base) == q && Digit(r + base * q, base) == r
  {
    if base == 256 { assert (r + 256 * q) / 256 == q; } else { assert (r + 2048 * q) / 2048 == q; }
  }

  lemma Whole(v: nat, base: nat)
    requires Radix(base)
    ensures Digit(v, base) + base * Rest(v, base) == v
  {
    if base == 256 { assert v % 256 + 256 * (v / 256) == v; } else { assert v % 2048 + 2048 * (v / 2048) == v; }
  }

  lemma {:induction false} DigitsOfValue(d: seq<nat>, base: nat)
    requires Radix(base) && DigitsBelow(d, base)
    ensures Digits(Value(d, base), base, |d|) == d
  {
    hide Rest, Digit;
    if d != [] {
      DivMod(Value(d[1..], base), d[0], base);
      DigitsOfValue(d[1..], base);
    }
  }

  lemma {:induction false} ValueOfDigits(v: nat, base: nat, n: nat)
    requires Radix(base) && v < Pow(base, n)
    ensures DigitsBelow(Digits(v, base, n), base) && Value(Digits(v, base, n), base) == v
  {
    hide Rest, Digit;
    if n > 0 {
      Whole(v, base);
      Quotient(v, base, Pow(base, n - 1));
      ValueOfDigits(Rest(v, base), base, n - 1);
      assert Digits(v, base, n)[1..] == Digits(Rest(v, base), base, n - 1);
    }
  }

  lemma Quotient(v: nat, base: nat, p: nat)
    requires Radix(base) && v < base * p
    ensures Rest(v, base) < p
  {
    if base == 256 { assert v < 256 * p; } else { assert v < 2048 * p; }
  }

  lemma {:induction false} ValueBelow(d: seq<nat>, base: nat)
    requires base > 0 && DigitsBelow(d, base)
    ensures Value(d, base) < Pow(base, |d|)
  {
    if d != [] {
      ValueBelow(d[1..], base);
      Scaled(d[0], base, Value(d[1..], base), Pow(base, |d| - 1));
    }
  }

  lemma Scaled(r: nat, base: nat, q: nat, p: nat)
    requires r < base && q < p
    ensures r + base * q < base * p
  {
    assert base * (q + 1) <= base * p;
  }

  lemma {:induction false} PowPow(base: nat, k: nat, n: nat)
    ensures Pow(Pow(base, k), n) == Pow(base, k * n)
  {
    if n > 0 {
      PowPow(base, k, n - 1);
      assert k * n == k + k * (n - 1);
      PowSum(base, k, k * (n - 1));
    }
  }

  lemma {:induction false} PowSum(base: nat, a: nat, b: nat)
    ensures Pow(base, a + b) == Pow(base, a) * Pow(base, b)
  {
    if a > 0 {
      PowSum(base, a - 1, b);
      Associate(base, Pow(base, a - 1), Pow(base, b));
    }
  }

  lemma Associate(a: nat, b: nat, c: nat)
    ensures a * (b * c) == (a * b) * c
  {}

  /** 22 octets and 16 channels of 11 bits hold the same numbers: 176 bits. */
  lemma SameRange()
    ensures Pow(256, 22) == Pow(2048, 16)
  {
    hide Pow;
    Eight();
    Eleven();
    PowPow(2, 8, 22);
    PowPow(2, 11, 16);
  }

  lemma Eight()
    ensures Pow(2, 8) == 256
  {
    assert Pow(2, 4) == 16;
  }

  lemma Eleven()
    ensures Pow(2, 11) == 2048
  {
    Eight();
    assert Pow(2, 3) == 8;
    PowSum(2, 8, 3);
  }

  /** The channels of a 22-byte payload. */
  function Unpacked(payload: seq<byte>): (channels: seq<nat>)
    requires |payload| == 22
    ensures |channels| == 16
  {
    Digits(Value(Octets(payload), 256), 2048, 16)
  }

  /** The little-endian packer. */
  function Packed(channels: seq<nat>): (payload: seq<byte>)
    requires |channels| == 16 && DigitsBelow(channels, 2048)
    ensures |payload| == 22
  {
    var d := Digits(Value(channels, 2048), 256, 22);
    PackedBelow(channels);
    seq(22, i requires 0 <= i < 22 => d[i] as byte)
  }

  lemma PackedBelow(channels: seq<nat>)
    requires |channels| == 16 && DigitsBelow(channels, 2048)
    ensures var d := Digits(Value(channels, 2048), 256, 22);
      DigitsBelow(d, 256) && Value(d, 256) == Value(channels, 2048)
  {
    hide Value, Digits, Pow;
    SameRange();
    ValueBelow(channels, 2048);
    ValueOfDigits(Value(channels, 2048), 256, 22);
  }

  /** What the packer writes, the receiver reads. */
  lemma UnpackPacked(channels: seq<nat>)
    requires |channels| == 16 && DigitsBelow(channels, 2048)
    ensures Unpacked(Packed(channels)) == channels
  {
    hide Value, Digits;
    PackedBelow(channels);
    DigitsOfValue(channels, 2048);
    assert Octets(Packed(channels)) == Digits(Value(channels, 2048), 256, 22);
  }

  /** What the receiver reads, packed again, is the payload: no bit is lost. */
  lemma PackUnpacked(payload: seq<byte>)
    requires |payload| == 22
    ensures DigitsBelow(Unpacked(payload), 2048) && Packed(Unpacked(payload)) == payload
  {
    hide Value, Digits, Pow;
    SameRange();
    var v := Value(Octets(payload), 256);
    ValueBelow(Octets(payload), 256);
    ValueOfDigits(v, 2048, 16);
    DigitsOfValue(Octets(payload), 256);
  }

  /** The inner loop: octets are taken in until a channel is complete. */
  method Refill(payload: seq<byte>, a: nat, b: nat, o: nat) returns (accumulator: nat, bits: nat, offset: nat)
    requires |payload| == 22 && b < 11 && 8 * o - b <= 165 && 8 * o >= b && a < Pow(2, b) && o <= 22
    ensures 11 <= bits < 19 && offset <= 22 && 8 * offset - bits == 8 * o - b && accumulator < Pow(2, bits)
    ensures Left(accumulator, bits, payload[offset..]) == Left(a, b, payload[o..])
  {
    hide Pow, Left;
    accumulator, bits, offset := a, b, o;
    while bits < 11
      invariant bits < 19 && offset <= 22 && 8 * offset - bits == 8 * o - b && accumulator < Pow(2, bits)
      invariant Left(accumulator, bits, payload[offset..]) == Left(a, b, payload[o..])
    {
      TakeOctet(accumulator, bits, payload[offset..]);
      assert payload[offset..][1..] == payload[offset + 1..];
      accumulator := accumulator + payload[offset] as nat * Pow(2, bits);
      offset := offset + 1;
      bits := bits + 8;
    }
  }

  /** The unpacking loop: an accumulator of fewer than 19 bits takes in octets and gives off channels. */
  method Unpack(payload: seq<byte>) returns (channels: seq<nat>)
    requires |payload| == 22
    ensures channels == Unpacked(payload)
  {
    hide Digits, Left, Pow;
    var accumulator, bits, offset: nat := 0, 0, 0;
    channels := [];
    ghost var v := Value(Octets(payload), 256);
    Begin(payload);
    while |channels| < 16
      invariant |channels| <= 16 && bits == 8 * offset - 11 * |channels| && 0 <= bits < 11 && 0 <= offset <= 22
      invariant 0 <= accumulator < Pow(2, bits)
      invariant channels + Digits(Left(accumulator, bits, payload[offset..]), 2048, 16 - |channels|) ==
                Digits(v, 2048, 16)
    {
      accumulator, bits, offset := Refill(payload, accumulator, bits, offset);
      GiveChannel(accumulator, bits, payload[offset..], 16 - |channels|);
      ghost var rest := Digits(Left(accumulator / 2048, bits - 11, payload[offset..]), 2048, 15 - |channels|);
      assert channels + ([accumulator % 2048] + rest) == (channels + [accumulator % 2048]) + rest;
      channels := channels + [accumulator % 2048];
      accumulator := accumulator / 2048;
      bits := bits - 11;
    }
    DigitsNone(Left(accumulator, bits, payload[offset..]));
  }

  lemma Begin(payload: seq<byte>)
    ensures Pow(2, 0) == 1 && Left(0, 0, payload[0..]) == Value(Octets(payload), 256)
  {
    assert payload[0..] == payload;
  }

  lemma DigitsNone(v: nat)
    ensures Digits(v, 2048, 0) == []
  {}

  /** The number that the accumulator and the octets to come still stand for. */
  function Left(accumulator: nat, bits: nat, rest: seq<byte>): nat {
    accumulator + Pow(2, bits) * Value(Octets(rest), 256)
  }

  lemma TakeOctet(accumulator: nat, bits: nat, rest: seq<byte>)
    requires rest != [] && accumulator < Pow(2, bits)
    ensures Left(accumulator + rest[0] as nat * Pow(2, bits), bits + 8, rest[1..]) == Left(accumulator, bits, rest)
    ensures accumulator + rest[0] as nat * Pow(2, bits) < Pow(2, bits + 8)
  {
    Eight();
    PowSum(2, bits, 8);
    var p, q := Pow(2, bits), Value(Octets(rest[1..]), 256);
    assert Octets(rest)[1..] == Octets(rest[1..]);
    hide Pow;
    Rearrange(p, rest[0] as nat, q);
    Fits(accumulator, p, rest[0] as nat);
  }

  lemma Rearrange(p: nat, b: nat, q: nat)
    ensures p * (b + 256 * q) == b * p + (p * 256) * q
  {}

  lemma Fits(a: nat, p: nat, b: nat)
    requires a < p && b < 256
    ensures a + b * p < p * 256
  {
    assert (b + 1) * p <= 256 * p;
  }

  lemma GiveChannel(accumulator: nat, bits: nat, rest: seq<byte>, n: nat)
    requires 11 <= bits && accumulator < Pow(2, bits) && n > 0
    ensures Digits(Left(accumulator, bits, rest), 2048, n) ==
      [accumulator % 2048] + Digits(Left(accumulator / 2048, bits - 11, rest), 2048, n - 1)
    ensures accumulator / 2048 < Pow(2, bits - 11)
  {
    Eleven();
    PowSum(2, bits - 11, 11);
    var p, q := Pow(2, bits - 11), Value(Octets(rest), 256);
    hide Pow, Value;
    Quotient(accumulator, 2048, p);
    Whole(accumulator, 2048);
    Associate(p, 2048, q);
    Shift(accumulator / 2048, accumulator % 2048, p * q);
    assert (p * 2048) * q == 2048 * (p * q) by { Swap(p, q); }
  }

  lemma Swap(p: nat, q: nat)
    ensures (p * 2048) * q == 2048 * (p * q)
  {}

  lemma Shift(a: nat, r: nat, x: nat)
    requires r < 2048
    ensures Digit(r + 2048 * a + 2048 * x, 2048) == r && Rest(r + 2048 * a + 2048 * x, 2048) == a + x
  {
    DivMod(a + x, r, 2048);
  }
}
