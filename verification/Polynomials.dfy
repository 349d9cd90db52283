/**
 Polynomials over the two-element field, as their coefficients with the highest first, and what a
 cyclic redundancy check is: the remainder of a long division.
 */
module Polynomials {
  import opened Bytes
  import opened Checksums

  function Zeros(n: nat): (z: seq<bool>)
    ensures |z| == n
  {
    seq(n, _ => false)
  }

  function Sum(a: seq<bool>, b: seq<bool>): (s: seq<bool>)
    requires |a| == |b|
    ensures |s| == |a|
  {
    seq(|a|, i requires 0 <= i < |a| => a[i] != b[i])
  }

  /** The coefficients below the highest of x^n + the sum of x^e for the exponents e. */
  function Generator(n: nat, exponents: set<nat>): (g: seq<bool>)
    ensures |g| == n
  {
    seq(n, i requires 0 <= i < n => n - 1 - i in exponents)
  }

  /** Long division by x^|g| + g: as long as the degree is too high, the generator is taken off the front. */
  function Remainder(p: seq<bool>, g: seq<bool>): (r: seq<bool>)
    requires |g| <= |p|
    ensures |r| == |g|
    decreases |p|
  {
    if |p| == |g| then p
    else
      var rest := p[1..];
      Remainder(if p[0] then Sum(rest[..|g|], g) + rest[|g|..] else rest, g)
  }

  // ------------------------------------------------- a register that divides as the bits come in

  function Turned(r: seq<bool>, bit: bool, g: seq<bool>): (t: seq<bool>)
    requires |r| == |g| > 0
    ensures |t| == |g|
  {
    if r[0] != bit then Sum(r[1..] + [false], g) else r[1..] + [false]
  }

  function Fed(r: seq<bool>, bits: seq<bool>, g: seq<bool>): (t: seq<bool>)
    requires |r| == |g| > 0
    ensures |t| == |g|
    decreases |bits|
  {
    if bits == [] then r else Fed(Turned(r, bits[0], g), bits[1..], g)
  }

  /** What the register holds in front of the bits, and the zeros that make room for the remainder. */
  function Dividend(r: seq<bool>, bits: seq<bool>): (p: seq<bool>)
    ensures |p| == |r| + |bits|
  {
    Sum(r + Zeros(|bits|), bits + Zeros(|r|))
  }

  /** One step of the division is one turn of the register. */
  lemma NextDividend(r: seq<bool>, bits: seq<bool>, g: seq<bool>)
    requires |r| == |g| && 0 < |g| && bits != []
    ensures var p := Dividend(r, bits);
      Dividend(Turned(r, bits[0], g), bits[1..]) == if p[0] then Sum(p[1..][..|g|], g) + p[1..][|g|..] else p[1..]
  {
    var p, n := Dividend(r, bits), |g|;
    var rest := p[1..];
    var next := Dividend(Turned(r, bits[0], g), bits[1..]);
    var want := if p[0] then Sum(rest[..n], g) + rest[n..] else rest;
    assert |next| == |want| == |rest|;
    forall i | 0 <= i < |next|
      ensures next[i] == want[i]
    {
      assert rest[i] == p[i + 1];
      if i < n { assert (r[1..] + [false])[i] == if i + 1 < n then r[i + 1] else false; }
    }
  }

  /** The register ends with the remainder. */
  lemma {:induction false} FedDivides(r: seq<bool>, bits: seq<bool>, g: seq<bool>)
    requires |r| == |g| > 0
    ensures Fed(r, bits, g) == Remainder(Dividend(r, bits), g)
    decreases |bits|
  {
    var p := Dividend(r, bits);
    if bits == [] {
      assert p == r;
    } else {
      FedDivides(Turned(r, bits[0], g), bits[1..], g);
      NextDividend(r, bits, g);
    }
  }

  lemma {:induction false} FedOn(r: seq<bool>, a: seq<bool>, b: seq<bool>, g: seq<bool>)
    requires |r| == |g| > 0
    ensures Fed(r, a + b, g) == Fed(Fed(r, a, g), b, g)
    decreases |a|
  {
    if a == [] {
      assert a + b == b;
    } else {
      assert (a + b)[1..] == a[1..] + b;
      FedOn(Turned(r, a[0], g), a[1..], b, g);
    }
  }

  /** Bits may also be added to the register at once, and turned out by zeros. */
  lemma Spread(r: seq<bool>, b: seq<bool>, g: seq<bool>)
    requires |b| <= |r| == |g| && 0 < |g|
    ensures Fed(r, b, g) == Fed(Sum(r, b + Zeros(|r| - |b|)), Zeros(|b|), g)
  {
    var s := Sum(r, b + Zeros(|r| - |b|));
    FedDivides(r, b, g);
    FedDivides(s, Zeros(|b|), g);
    assert Dividend(r, b) == Dividend(s, Zeros(|b|));
  }

  // ------------------------------------------------- registers that are numbers

  /** A register of width |g| whose turn is a turn of its coefficients. */
  ghost predicate Turns<W(!new)>(bits: W -> seq<bool>, turn: W -> W, g: seq<bool>) {
    |g| > 0 && forall w :: |bits(w)| == |g| && bits(turn(w)) == Turned(bits(w), false, g)
  }

  lemma {:induction false} RepeatFeeds<W(!new)>(bits: W -> seq<bool>, turn: W -> W, g: seq<bool>, w: W, n: nat)
    requires Turns(bits, turn, g)
    ensures bits(Repeat(turn, w, n)) == Fed(bits(w), Zeros(n), g)
  {
    if n > 0 {
      RepeatFeeds(bits, turn, g, w, n - 1);
      FedOn(bits(w), Zeros(n - 1), [false], g);
      assert Zeros(n) == Zeros(n - 1) + [false];
    }
  }

  /** The bits of all the bytes, in the order in which they are taken in. */
  function Message<B>(of: B -> seq<bool>, data: seq<B>): seq<bool> {
    if data == [] then [] else Message(of, data[..|data| - 1]) + of(data[|data| - 1])
  }

  /** A step takes in the bits of its byte. */
  ghost predicate Feeds<W(!new), B(!new)>(bits: W -> seq<bool>, of: B -> seq<bool>, step: (W, B) -> W, g: seq<bool>) {
    |g| > 0 && (forall w :: |bits(w)| == |g|) && forall w, b :: bits(step(w, b)) == Fed(bits(w), of(b), g)
  }

  /** Whatever the width and the order of the bits: the register over all of the data is a remainder. */
  lemma {:induction false} FoldDivides<W(!new), B(!new)>(bits: W -> seq<bool>, of: B -> seq<bool>, step: (W, B) -> W,
                                                         g: seq<bool>, start: W, data: seq<B>)
    requires Feeds(bits, of, step, g)
    ensures bits(Fold(step, start, data)) == Remainder(Dividend(bits(start), Message(of, data)), g)
  {
    FoldFeeds(bits, of, step, g, start, data);
    FedDivides(bits(start), Message(of, data), g);
  }

  lemma {:induction false} FoldFeeds<W(!new), B(!new)>(bits: W -> seq<bool>, of: B -> seq<bool>, step: (W, B) -> W,
                                                       g: seq<bool>, start: W, data: seq<B>)
    requires Feeds(bits, of, step, g)
    ensures bits(Fold(step, start, data)) == Fed(bits(start), Message(of, data), g)
  {
    if data != [] {
      var n := |data| - 1;
      FoldFeeds(bits, of, step, g, start, data[..n]);
      FedOn(bits(start), Message(of, data[..n]), of(data[n]), g);
    }
  }

  // ------------------------------------------------- numbers, highest bit first

  function HighFirst(w: nat, n: nat): (s: seq<bool>)
    ensures |s| == n
  {
    if n == 0 then [] else HighFirst(w / 2, n - 1) + [w % 2 == 1]
  }

  lemma XorParts(a: nat, b: nat, n: nat)
    requires n > 0
    ensures XorBits(a, b, n) / 2 == XorBits(a / 2, b / 2, n - 1)
    ensures XorBits(a, b, n) % 2 == 1 <==> (a % 2 == 1) != (b % 2 == 1)
  {}

  lemma {:induction false} HighXor(a: nat, b: nat, n: nat)
    ensures HighFirst(XorBits(a, b, n), n) == Sum(HighFirst(a, n), HighFirst(b, n))
  {
    hide XorBits;
    if n > 0 {
      XorParts(a, b, n);
      HighXor(a / 2, b / 2, n - 1);
    }
  }

  /** The lowest bits do not depend on those above them. */
  lemma {:induction false} HighDrop(w: nat, n: nat)
    ensures HighFirst(w, n + 1)[1..] == HighFirst(w, n)
  {
    if n > 0 { HighDrop(w / 2, n - 1); }
  }

  lemma Doubled(a: nat, q: nat)
    ensures (2 * a) * q == 2 * (a * q) && a * q >= 0
  {}

  /** A multiple of 2^n added above changes nothing. */
  lemma {:induction false} HighMod(w: nat, q: nat, n: nat)
    ensures HighFirst(w + (Ones(n) + 1) * q, n) == HighFirst(w, n)
  {
    if n > 0 {
      var p := (Ones(n - 1) + 1) * q;
      Doubled(Ones(n - 1) + 1, q);
      assert (w + 2 * p) / 2 == w / 2 + p && (w + 2 * p) % 2 == w % 2;
      HighMod(w / 2, q, n - 1);
    }
  }

  lemma {:induction false} HighTop(w: nat, n: nat)
    requires w <= Ones(n + 1)
    ensures HighFirst(w, n + 1)[0] <==> w > Ones(n)
  {
    if n > 0 { HighTop(w / 2, n - 1); }
  }

  /** Doubling moves every bit up. */
  lemma HighDouble(w: nat, q: nat, n: nat)
    requires n > 0 && (Ones(n) + 1) * q <= w * 2
    ensures HighFirst(w * 2 - (Ones(n) + 1) * q, n) == HighFirst(w, n)[1..] + [false]
  {
    HighMod(w * 2 - (Ones(n) + 1) * q, q, n);
    HighDrop(w, n - 1);
    assert HighFirst(w * 2, n) == HighFirst(w, n - 1) + [false];
  }

  /** The digits of a number in two parts. */
  lemma {:induction false} HighSplit(high: nat, low: nat, m: nat, k: nat)
    requires low <= Ones(k)
    ensures HighFirst(high * (Ones(k) + 1) + low, m + k) == HighFirst(high, m) + HighFirst(low, k)
  {
    if k > 0 {
      HalfSplit(high, Ones(k - 1) + 1, low);
      HighSplit(high, low / 2, m, k - 1);
    }
  }

  lemma HalfSplit(high: nat, p: nat, low: nat)
    ensures (high * (2 * p) + low) / 2 == high * p + low / 2 && (high * (2 * p) + low) % 2 == low % 2
  {
    assert high * (2 * p) == 2 * (high * p);
  }

  lemma {:induction false} HighZero(n: nat)
    ensures HighFirst(0, n) == Zeros(n)
  {
    if n > 0 { HighZero(n - 1); }
  }

  /** Four bits, one by one. */
  lemma HighMore(w: nat, m: nat)
    ensures HighFirst(w, m + 4) == HighFirst(w / 16, m) + [w / 8 % 2 == 1, w / 4 % 2 == 1, w / 2 % 2 == 1, w % 2 == 1]
    ensures HighFirst(w / 16, 0) == []
  {
    var a := w / 2;
    var b := a / 2;
    var c := b / 2;
    assert b == w / 4 && c == w / 8 && c / 2 == w / 16;
    hide HighFirst;
    HighOne(w, m + 3);
    HighOne(a, m + 2);
    HighOne(b, m + 1);
    HighOne(c, m);
  }

  lemma HighOne(w: nat, n: nat)
    ensures HighFirst(w, n + 1) == HighFirst(w / 2, n) + [w % 2 == 1]
  {}

  lemma HighEight(w: nat)
    ensures HighFirst(w, 8) == [w / 128 % 2 == 1, w / 64 % 2 == 1, w / 32 % 2 == 1, w / 16 % 2 == 1,
                                w / 8 % 2 == 1, w / 4 % 2 == 1, w / 2 % 2 == 1, w % 2 == 1]
  {
    hide HighFirst;
    HighMore(w, 4);
    HighMore(w / 16, 0);
    assert w / 16 / 2 == w / 32 && w / 16 / 4 == w / 64 && w / 16 / 8 == w / 128;
  }

  // ------------------------------------------------- numbers, lowest bit first

  function LowFirst(w: nat, n: nat): (s: seq<bool>)
    ensures |s| == n
  {
    if n == 0 then [] else [w % 2 == 1] + LowFirst(w / 2, n - 1)
  }

  lemma {:induction false} LowXor(a: nat, b: nat, n: nat)
    ensures LowFirst(XorBits(a, b, n), n) == Sum(LowFirst(a, n), LowFirst(b, n))
  {
    hide XorBits;
    if n > 0 {
      XorParts(a, b, n);
      LowXor(a / 2, b / 2, n - 1);
    }
  }

  lemma {:induction false} LowZeros(w: nat, n: nat, more: nat)
    requires w <= Ones(n)
    ensures LowFirst(w, n + more) == LowFirst(w, n) + Zeros(more)
  {
    if n > 0 {
      LowZeros(w / 2, n - 1, more);
    } else if more > 0 {
      LowZeros(0, 0, more - 1);
    }
  }

  lemma {:induction false} LowZero(n: nat)
    ensures LowFirst(0, n) == Zeros(n)
  {
    if n > 0 { LowZero(n - 1); }
  }

  lemma LowFour(w: nat)
    ensures LowFirst(w, 4) == [w % 2 == 1, w / 2 % 2 == 1, w / 4 % 2 == 1, w / 8 % 2 == 1]
  {
    LowMore(w, 0);
  }

  lemma LowMore(w: nat, m: nat)
    ensures LowFirst(w, 4 + m) == [w % 2 == 1, w / 2 % 2 == 1, w / 4 % 2 == 1, w / 8 % 2 == 1] + LowFirst(w / 16, m)
    ensures LowFirst(w / 16, 0) == []
  {
    var a := w / 2;
    var b := a / 2;
    var c := b / 2;
    assert b == w / 4 && c == w / 8 && c / 2 == w / 16;
    hide LowFirst;
    LowOne(w, m + 3);
    LowOne(a, m + 2);
    LowOne(b, m + 1);
    LowOne(c, m);
    Together(w % 2 == 1, a % 2 == 1, b % 2 == 1, c % 2 == 1, LowFirst(c / 2, m));
  }

  lemma Together(a: bool, b: bool, c: bool, d: bool, s: seq<bool>)
    ensures [a] + ([b] + ([c] + ([d] + s))) == [a, b, c, d] + s
  {}

  lemma LowOne(w: nat, n: nat)
    ensures LowFirst(w, n + 1) == [w % 2 == 1] + LowFirst(w / 2, n)
  {}

  lemma LowEight(w: nat)
    ensures LowFirst(w, 8) == [w % 2 == 1, w / 2 % 2 == 1, w / 4 % 2 == 1, w / 8 % 2 == 1,
                               w / 16 % 2 == 1, w / 32 % 2 == 1, w / 64 % 2 == 1, w / 128 % 2 == 1]
  {
    hide LowFirst;
    LowMore(w, 4);
    LowMore(w / 16, 0);
    assert w / 16 / 2 == w / 32 && w / 16 / 4 == w / 64 && w / 16 / 8 == w / 128;
  }
}
