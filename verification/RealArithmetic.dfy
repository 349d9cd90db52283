/**
 Products and quotients of reals, by name, so that a proof can hide them and reason with
 the few laws below instead of non-linear arithmetic.
 */
module RealArithmetic {
  function Times(a: real, k: real): real { a * k }

  function Over(a: real, d: real): real
    requires d != 0.0
  {
    a / d
  }

  function Min(a: real, b: real): real { if a < b then a else b }

  function Max(a: real, b: real): real { if a < b then b else a }

  function Abs(a: real): real { if a < 0.0 then -a else a }

  /** clampf */
  function Clamp(value: real, low: real, high: real): real {
    if value < low then low else if value > high then high else value
  }

  lemma TimesUnits(a: real)
    ensures Times(a, 0.0) == 0.0 == Times(0.0, a) && Times(a, 1.0) == a == Times(1.0, a)
  {}

  lemma TimesSwap(a: real, k: real)
    ensures Times(a, k) == Times(k, a)
  {}

  lemma TimesSum(a: real, b: real, k: real)
    ensures Times(a + b, k) == Times(a, k) + Times(b, k)
    ensures Times(a - b, k) == Times(a, k) - Times(b, k)
    ensures Times(-a, k) == -Times(a, k)
  {}

  lemma TimesOrder(a: real, b: real, k: real)
    requires a <= b && 0.0 <= k
    ensures Times(a, k) <= Times(b, k)
  {
    Product(b - a, k);
  }

  lemma Product(x: real, k: real)
    requires 0.0 <= x && 0.0 <= k
    ensures 0.0 <= x * k
  {}

  /** A quotient is the largest factor that stays within the dividend. */
  lemma OverLargest(a: real, d: real, k: real)
    requires d > 0.0
    ensures Times(d, Over(a, d)) == a
    ensures k <= Over(a, d) <==> Times(d, k) <= a
    ensures Over(a, d) <= k <==> a <= Times(d, k)
  {
    var q := a / d;
    assert q * d == a;
    if k < q { Positive(q - k, d); } else if k > q { Positive(k - q, d); }
  }

  lemma Positive(x: real, d: real)
    requires 0.0 < x && 0.0 < d
    ensures 0.0 < x * d
  {}

  /** The magnitude of a product grows with that of a factor. */
  lemma TimesWithin(a: real, k: real)
    requires 0.0 <= k <= 1.0
    ensures Min(0.0, a) <= Times(a, k) <= Max(0.0, a)
  {
    if 0.0 <= a { Product(a, k); Product(a, 1.0 - k); } else { Product(-a, k); Product(-a, 1.0 - k); }
  }
}
