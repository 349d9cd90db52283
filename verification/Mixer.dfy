/**
 The motor mixer of flight_control_update (src/control/flight_control.c), over the reals:
 four corrections that sum to zero are scaled and laid on a common base so that every
 motor stays between idle and full power.
 */
module Mixer {
  import opened RealArithmetic

  function Lowest(c: seq<real>): (m: real)
    requires |c| > 0
    ensures forall i :: 0 <= i < |c| ==> m <= c[i]
    ensures m in c
  {
    if |c| == 1 then c[0] else Min(Lowest(c[..|c| - 1]), c[|c| - 1])
  }

  function Highest(c: seq<real>): (m: real)
    requires |c| > 0
    ensures forall i :: 0 <= i < |c| ==> c[i] <= m
    ensures m in c
  {
    if |c| == 1 then c[0] else Max(Highest(c[..|c| - 1]), c[|c| - 1])
  }

  /** The base the throttle asks for. */
  function Requested(throttle: real, idle: real): real { idle + Times(throttle, 100.0 - idle) / 100.0 }

  predicate Balanced(c: seq<real>) { |c| == 4 && c[0] + c[1] + c[2] + c[3] == 0.0 }

  /** With scale `k` on base `b` every motor is within [idle, 100]. */
  predicate Feasible(c: seq<real>, b: real, k: real, idle: real) {
    forall i :: 0 <= i < |c| ==> idle <= b + Times(c[i], k) <= 100.0
  }

  /** Airmode may move the base: the corrections have to fit into the span of the motors. */
  function AirScale(low: real, high: real, idle: real): real
    requires idle < 100.0
  {
    if high - low > 100.0 - idle then Over(100.0 - idle, high - low) else 1.0
  }

  function AirBase(low: real, high: real, scale: real, requested: real, idle: real): real {
    Clamp(requested, idle - Times(low, scale), 100.0 - Times(high, scale))
  }

  /** Before airmode the throttle owns the base. */
  function GroundScale(low: real, high: real, base: real, idle: real): real {
    var below := if low < 0.0 then Min(1.0, Over(base - idle, -low)) else 1.0;
    var above := if high > 0.0 then Min(below, Over(100.0 - base, high)) else below;
    Clamp(above, 0.0, 1.0)
  }

  function Scale(c: seq<real>, throttle: real, idle: real, airmode: bool): real
    requires |c| > 0 && idle < 100.0
  {
    if airmode then AirScale(Lowest(c), Highest(c), idle)
    else GroundScale(Lowest(c), Highest(c), Requested(throttle, idle), idle)
  }

  function Base(c: seq<real>, throttle: real, idle: real, airmode: bool): real
    requires |c| > 0 && idle < 100.0
  {
    if airmode then
      AirBase(Lowest(c), Highest(c), Scale(c, throttle, idle, airmode), Requested(throttle, idle), idle)
    else Requested(throttle, idle)
  }

  lemma RequestedInRange(throttle: real, idle: real)
    requires 0.0 <= throttle <= 100.0 && 0.0 <= idle <= 100.0
    ensures idle <= Requested(throttle, idle) <= 100.0
  {
    hide Times;
    TimesOrder(0.0, throttle, 100.0 - idle);
    TimesOrder(throttle, 100.0, 100.0 - idle);
    TimesUnits(100.0 - idle);
    TimesHundred(100.0 - idle);
  }

  lemma TimesHundred(a: real)
    ensures Times(100.0, a) == 100.0 * a
  {}

  /** Balanced corrections lie on both sides of zero. */
  lemma Straddle(c: seq<real>)
    requires Balanced(c)
    ensures Lowest(c) <= 0.0 <= Highest(c)
  {}

  /** Feasibility is decided by the extreme corrections. */
  lemma FeasibleAt(c: seq<real>, b: real, k: real, idle: real)
    requires |c| > 0 && 0.0 <= k
    ensures Feasible(c, b, k, idle) <==>
              idle <= b + Times(Lowest(c), k) && b + Times(Highest(c), k) <= 100.0
  {
    hide Times, Lowest, Highest;
    forall n | 0 <= n < |c|
      ensures Times(Lowest(c), k) <= Times(c[n], k) <= Times(Highest(c), k)
    {
      TimesOrder(Lowest(c), c[n], k);
      TimesOrder(c[n], Highest(c), k);
    }
  }

  /** The corrections fit into the motors' span exactly up to AirScale. */
  lemma AirScaleLargest(low: real, high: real, idle: real, k: real)
    requires low <= 0.0 <= high && 0.0 <= idle < 100.0 && 0.0 <= k <= 1.0
    ensures 0.0 < AirScale(low, high, idle) <= 1.0
    ensures k <= AirScale(low, high, idle) <==> Times(high, k) - Times(low, k) <= 100.0 - idle
  {
    hide Times, Over;
    var span, room := high - low, 100.0 - idle;
    TimesSum(high, low, k);
    TimesUnits(span);
    if span > room {
      OverLargest(room, span, k);
      OverLargest(room, span, 1.0);
      OverLargest(room, span, 0.0);
    } else {
      TimesWithin(span, k);
    }
  }

  /** In airmode: feasible, no larger scale on any base, no feasible base nearer to the request. */
  lemma AirOptimal(c: seq<real>, throttle: real, idle: real)
    requires Balanced(c) && 0.0 <= idle < 100.0
    ensures var k := Scale(c, throttle, idle, true); var b := Base(c, throttle, idle, true);
      && 0.0 < k <= 1.0 && Feasible(c, b, k, idle)
      && (forall k', b' :: 0.0 <= k' <= 1.0 && Feasible(c, b', k', idle) ==> k' <= k)
      && (forall b' :: Feasible(c, b', k, idle) ==>
            Abs(b - Requested(throttle, idle)) <= Abs(b' - Requested(throttle, idle)))
  {
    hide Times, Over, Lowest, Highest, Requested, AirScale, Feasible;
    Straddle(c);
    var low, high := Lowest(c), Highest(c);
    AirScaleLargest(low, high, idle, 1.0);
    var k := AirScale(low, high, idle);
    AirScaleLargest(low, high, idle, k);
    var b := Base(c, throttle, idle, true);
    FeasibleAt(c, b, k, idle);
    forall k', b' | 0.0 <= k' <= 1.0 && Feasible(c, b', k', idle)
      ensures k' <= k
    {
      FeasibleAt(c, b', k', idle);
      AirScaleLargest(low, high, idle, k');
    }
    forall b' | Feasible(c, b', k, idle)
      ensures Abs(b - Requested(throttle, idle)) <= Abs(b' - Requested(throttle, idle))
    {
      FeasibleAt(c, b', k, idle);
    }
  }

  /** A scale fits on the throttle's base exactly up to GroundScale. */
  lemma GroundScaleLargest(c: seq<real>, base: real, idle: real, k: real)
    requires Balanced(c) && idle <= base <= 100.0 && 0.0 <= k <= 1.0
    ensures 0.0 <= GroundScale(Lowest(c), Highest(c), base, idle) <= 1.0
    ensures k <= GroundScale(Lowest(c), Highest(c), base, idle) <==> Feasible(c, base, k, idle)
  {
    hide Times, Over, Lowest, Highest, Feasible;
    Straddle(c);
    FeasibleAt(c, base, k, idle);
    var low, high := Lowest(c), Highest(c);
    TimesSum(low, 0.0, k);
    TimesUnits(k);
    if low < 0.0 {
      OverLargest(base - idle, -low, k);
      OverLargest(base - idle, -low, 0.0);
      TimesUnits(-low);
    }
    if high > 0.0 {
      OverLargest(100.0 - base, high, k);
      OverLargest(100.0 - base, high, 0.0);
      TimesUnits(high);
    }
  }

  lemma SumIsBase(c: seq<real>, b: real, k: real)
    requires Balanced(c)
    ensures (b + Times(c[0], k)) + (b + Times(c[1], k)) + (b + Times(c[2], k)) + (b + Times(c[3], k)) == 4.0 * b
  {
    hide Times;
    TimesSum(c[0], c[1], k);
    TimesSum(c[0] + c[1], c[2], k);
    TimesSum(c[0] + c[1] + c[2], c[3], k);
    TimesUnits(k);
  }

  /** The mixer with its loops: the extreme corrections, scale and base, then the outputs. */
  method Mix(correction: seq<real>, throttle: real, idle: real, airmode: bool)
    returns (base: real, scale: real, outputs: seq<real>)
    requires Balanced(correction) && 0.0 <= idle < 100.0 && 0.0 <= throttle <= 100.0
    ensures base == Base(correction, throttle, idle, airmode) && scale == Scale(correction, throttle, idle, airmode)
    ensures |outputs| == 4 && forall i :: 0 <= i < 4 ==> outputs[i] == base + Times(correction[i], scale)
    ensures forall i :: 0 <= i < 4 ==> idle <= outputs[i] <= 100.0
    ensures outputs[0] + outputs[1] + outputs[2] + outputs[3] == 4.0 * base
  {
    hide Times, Over, Lowest, Highest, AirScale, AirBase, GroundScale, Feasible, Requested;
    var lowest, highest := Extremes(correction);
    var requested := Requested(throttle, idle);
    RequestedInRange(throttle, idle);
    if airmode {
      scale := AirScale(lowest, highest, idle);
      base := AirBase(lowest, highest, scale, requested, idle);
      AirOptimal(correction, throttle, idle);
    } else {
      base := requested;
      scale := GroundScale(lowest, highest, base, idle);
      GroundScaleLargest(correction, base, idle, 0.0);
      GroundScaleLargest(correction, base, idle, scale);
    }
    outputs := [];
    var i := 0;
    while i < 4
      invariant 0 <= i <= 4 && |outputs| == i
      invariant forall j :: 0 <= j < i ==> outputs[j] == base + Times(correction[j], scale)
    {
      outputs := outputs + [base + Times(correction[i], scale)];
      i := i + 1;
    }
    SumIsBase(correction, base, scale);
    InRange(correction, base, scale, idle);
  }

  lemma InRange(c: seq<real>, b: real, k: real, idle: real)
    requires Feasible(c, b, k, idle)
    ensures forall i :: 0 <= i < |c| ==> idle <= b + Times(c[i], k) <= 100.0
  {}

  /** The loop over the corrections. */
  method Extremes(correction: seq<real>) returns (lowest: real, highest: real)
    requires |correction| == 4
    ensures lowest == Lowest(correction) && highest == Highest(correction)
  {
    lowest, highest := correction[0], correction[0];
    var i := 1;
    while i < 4
      invariant 1 <= i <= 4
      invariant lowest == Lowest(correction[..i]) && highest == Highest(correction[..i])
    {
      assert correction[..i + 1][..i] == correction[..i];
      lowest := Min(lowest, correction[i]);
      highest := Max(highest, correction[i]);
      i := i + 1;
    }
    assert correction[..4] == correction;
  }

  /** Before airmode: the throttle's base, and no larger scale fits on it. */
  lemma GroundOptimal(c: seq<real>, throttle: real, idle: real)
    requires Balanced(c) && 0.0 <= idle < 100.0 && 0.0 <= throttle <= 100.0
    ensures var k := Scale(c, throttle, idle, false); var b := Base(c, throttle, idle, false);
      && 0.0 <= k <= 1.0 && b == Requested(throttle, idle) && Feasible(c, b, k, idle)
      && forall k' :: 0.0 <= k' <= 1.0 && Feasible(c, b, k', idle) ==> k' <= k
  {
    hide Times, Over, Lowest, Highest, Requested, GroundScale, Feasible;
    RequestedInRange(throttle, idle);
    var b := Requested(throttle, idle);
    GroundScaleLargest(c, b, idle, 0.0);
    GroundScaleLargest(c, b, idle, Scale(c, throttle, idle, false));
    forall k' | 0.0 <= k' <= 1.0 && Feasible(c, b, k', idle)
      ensures k' <= Scale(c, throttle, idle, false)
    {
      GroundScaleLargest(c, b, idle, k');
    }
  }
}
