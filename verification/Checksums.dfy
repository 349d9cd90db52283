/**
 What the checksums of the firmware have in common: a register that takes in byte after byte, each
 by a number of turns.  If no step loses anything, one wrong byte never goes unnoticed.
 */
module Checksums {
  function Repeat<W>(turn: W -> W, w: W, n: nat): W { if n == 0 then w else turn(Repeat(turn, w, n - 1)) }

  /** The register after all of `data`. */
  function Fold<W, B>(step: (W, B) -> W, start: W, data: seq<B>): W {
    if data == [] then start else step(Fold(step, start, data[..|data| - 1]), data[|data| - 1])
  }

  ghost predicate Injective<W(!new)>(turn: W -> W) { forall a, b :: turn(a) == turn(b) ==> a == b }

  /** A step determines the register before it, given the byte, and the byte, given the register. */
  ghost predicate Lossless<W(!new), B(!new)>(step: (W, B) -> W) {
    && (forall a, b, x :: step(a, x) == step(b, x) ==> a == b)
    && (forall a, x, y :: step(a, x) == step(a, y) ==> x == y)
  }

  lemma {:induction false} RepeatInjective<W(!new)>(turn: W -> W, a: W, b: W, n: nat)
    requires Injective(turn)
    ensures Repeat(turn, a, n) == Repeat(turn, b, n) ==> a == b
  {
    if n > 0 { RepeatInjective(turn, a, b, n - 1); }
  }

  lemma FoldStep<W, B>(step: (W, B) -> W, start: W, data: seq<B>, b: B)
    ensures Fold(step, start, []) == start && Fold(step, start, data + [b]) == step(Fold(step, start, data), b)
  {
    assert (data + [b])[..|data|] == data;
  }

  /** Folding one piece after the other is folding the whole. */
  lemma {:induction false} Chained<W, B>(step: (W, B) -> W, start: W, a: seq<B>, b: seq<B>)
    ensures Fold(step, start, a + b) == Fold(step, Fold(step, start, a), b)
  {
    if b == [] {
      assert a + b == a;
    } else {
      assert (a + b)[..|a + b| - 1] == a + b[..|b| - 1];
      Chained(step, start, a, b[..|b| - 1]);
    }
  }

  /** Data of any length that differ in exactly one byte leave different registers. */
  lemma {:induction false} SingleByteDetected<W(!new), B(!new)>(step: (W, B) -> W, start: W, p: seq<B>, q: seq<B>, k: nat)
    requires Lossless(step) && |p| == |q| && k < |p| && p[k] != q[k]
    requires forall i :: 0 <= i < |p| && i != k ==> p[i] == q[i]
    ensures Fold(step, start, p) != Fold(step, start, q)
    decreases |p|
  {
    var n := |p| - 1;
    if k == n {
      assert p[..n] == q[..n];
    } else {
      SingleByteDetected(step, start, p[..n], q[..n], k);
    }
  }
}
