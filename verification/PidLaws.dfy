/**
 What the output of one axis of the rate controller does (pid() of src/control/flight_control.c):
 its signs, its order and its size.
 */
module PidLaws {
  import opened RealArithmetic
  import opened PidLoop

  /** No gain works the wrong way round. */
  predicate Proper(i: Input) {
    i.Valid() && 0.0 <= i.gains.kp && 0.0 <= i.gains.kd && 0.0 <= i.feedforward && 0.0 <= i.tpa && 0.0 <= i.boost
  }

  lemma ProductSign(a: real, b: real)
    ensures 0.0 <= a && 0.0 <= b ==> 0.0 <= Times(a, b)
    ensures 0.0 < a && 0.0 < b ==> 0.0 < Times(a, b)
    ensures 0.0 <= a && b <= 0.0 ==> Times(a, b) <= 0.0
    ensures 0.0 < a && b < 0.0 ==> Times(a, b) < 0.0
    ensures Times(a, -b) == -Times(a, b)
  {
    if 0.0 <= a && 0.0 <= b { Product(a, b); }
    if 0.0 < a && 0.0 < b { Positive(a, b); }
    if 0.0 <= a && b <= 0.0 { Product(a, -b); }
    if 0.0 < a && b < 0.0 { Positive(a, -b); }
  }

  lemma Grows(k: real, a: real, b: real)
    requires 0.0 <= k && a <= b
    ensures Times(k, a) <= Times(k, b)
  {
    Product(k, b - a);
  }

  /** On its own the proportional part has the sign of the error and the size of its gain, up to the limit. */
  lemma ErrorDrives(s: State, i: Input)
    requires i.Valid() && 0.0 < i.gains.kp && 0.0 < i.tpa && 0.0 < i.limit
    requires !i.integralEnabled && i.gains.kd == 0.0 && i.feedforward == 0.0
    ensures 0.0 < Output(s, i) <==> i.rate < i.setpoint
    ensures Output(s, i) < 0.0 <==> i.setpoint < i.rate
    ensures Abs(Output(s, i)) == Min(i.limit, Times(Times(i.gains.kp, i.tpa), Abs(i.setpoint - i.rate)))
  {
    hide Times, Activity, Dterm;
    var e, k := i.Error(), Times(i.gains.kp, i.tpa);
    ProductSign(i.gains.kp, i.tpa);
    ProductSign(k, e);
    TimesUnits(i.tpa);
    TimesUnits(Boost(s, i));
    TimesUnits(Dterm(s, i));
    TimesUnits(k);
  }

  // ------------------------------------------------- a higher setpoint

  lemma SmoothstepGrows(m: real, n: real)
    requires 0.0 <= m <= n <= 1.0
    ensures Smoothstep(m) <= Smoothstep(n)
  {
    Product(n, 1.0 - n);
    Product(m, 1.0 - m);
    Product(n - m, n - m);
    var x := 3.0 * (n + m) - 2.0 * (n * n + n * m + m * m);
    assert 0.0 <= x;
    Product(n - m, x);
    assert (n * n) * (3.0 - 2.0 * n) - (m * m) * (3.0 - 2.0 * m) == (n - m) * x;
  }

  /** The factor that feedforward applies: 70 % at the centre, all of it at full stick. */
  function Weight(setpoint: real, maxRate: real): real
    requires 0.0 < maxRate
  {
    0.70 + 0.30 * Smoothstep(Clamp(Over(Abs(setpoint), maxRate), 0.0, 1.0))
  }

  lemma WeightGrows(a: real, b: real, maxRate: real)
    requires 0.0 < maxRate && 0.0 <= a <= b
    ensures 0.7 <= Weight(a, maxRate) <= Weight(b, maxRate) <= 1.0
  {
    hide Over, Smoothstep;
    QuotientGrows(a, b, maxRate);
    var m, n := Clamp(Over(a, maxRate), 0.0, 1.0), Clamp(Over(b, maxRate), 0.0, 1.0);
    SmoothstepGrows(m, n);
    SmoothstepInRange(m);
    SmoothstepInRange(n);
  }

  lemma QuotientGrows(a: real, b: real, d: real)
    requires 0.0 < d && a <= b
    ensures Over(a, d) <= Over(b, d)
  {
    hide Over;
    OverLargest(a, d, Over(a, d));
    OverLargest(b, d, Over(a, d));
  }

  lemma LeadIs(gain: real, setpoint: real, maxRate: real)
    requires 0.0 < maxRate
    ensures Feedforward(gain, setpoint, maxRate) == Times(Times(gain, setpoint), Weight(setpoint, maxRate))
    ensures Feedforward(gain, -setpoint, maxRate) == -Feedforward(gain, setpoint, maxRate)
  {
    hide Over, Smoothstep;
    TimesUnits(setpoint);
    TimesUnits(-setpoint);
    TimesUnits(Weight(setpoint, maxRate));
    ProductSign(gain, setpoint);
    TimesSum(Times(gain, setpoint), 0.0, Weight(setpoint, maxRate));
  }

  /** Feedforward never works against a rising setpoint. */
  lemma LeadGrows(gain: real, a: real, b: real, maxRate: real)
    requires 0.0 < maxRate && 0.0 <= gain && a <= b
    ensures Feedforward(gain, a, maxRate) <= Feedforward(gain, b, maxRate)
  {
    hide Times, Weight, Feedforward;
    LeadIs(gain, a, maxRate);
    LeadIs(gain, b, maxRate);
    LeadIs(gain, -a, maxRate);
    LeadIs(gain, -b, maxRate);
    if 0.0 <= a {
      LeadGrowsUp(gain, a, b, maxRate);
    } else if b <= 0.0 {
      LeadGrowsUp(gain, -b, -a, maxRate);
    } else {
      LeadGrowsUp(gain, 0.0, b, maxRate);
      LeadGrowsUp(gain, 0.0, -a, maxRate);
      LeadIs(gain, 0.0, maxRate);
    }
  }

  lemma LeadGrowsUp(gain: real, a: real, b: real, maxRate: real)
    requires 0.0 < maxRate && 0.0 <= gain && 0.0 <= a <= b
    ensures Feedforward(gain, a, maxRate) <= Feedforward(gain, b, maxRate)
  {
    hide Times, Weight, Feedforward;
    LeadIs(gain, a, maxRate);
    LeadIs(gain, b, maxRate);
    WeightGrows(a, b, maxRate);
    Grows(gain, a, b);
    ProductSign(gain, a);
    Grows(Times(gain, a), Weight(a, maxRate), Weight(b, maxRate));
    TimesOrder(Times(gain, a), Times(gain, b), Weight(b, maxRate));
  }

  lemma ProportionalGrows(i: Input, j: Input)
    requires Proper(i) && j.gains == i.gains && j.tpa == i.tpa && i.Error() <= j.Error()
    ensures Proportional(i) <= Proportional(j)
  {
    hide Times;
    ProductSign(i.gains.kp, i.tpa);
    Grows(Times(i.gains.kp, i.tpa), i.Error(), j.Error());
  }

  /** What the integral gains from an error, without the relaxation of a fast stick. */
  lemma GainGrows(s: State, i: Input, j: Input)
    requires i.Valid() && j.gains == i.gains && j.dt == i.dt && i.Error() <= j.Error()
    requires IntegralFactor(s, i) == IntegralFactor(s, j) == 1.0
    ensures Gain(s, i) <= Gain(s, j)
  {
    hide Times, IntegralFactor;
    Grows(i.gains.ki, i.Error(), j.Error());
    TimesOrder(Times(i.gains.ki, i.Error()), Times(i.gains.ki, j.Error()), i.dt);
    TimesUnits(Times(Times(i.gains.ki, i.Error()), i.dt));
    TimesUnits(Times(Times(i.gains.ki, j.Error()), i.dt));
  }

  lemma IntegralGrows(s: State, i: Input, j: Input)
    requires Proper(i) && InRange(s) && i.Error() <= j.Error() && !i.relaxIntegral
    requires j == i.(setpoint := j.setpoint, rate := j.rate)
    ensures Integral(s, i) <= Integral(s, j)
  {
    hide Times, Relaxed, Gain;
    GainGrows(s, i, j);
    GainSign(s, i);
    GainSign(s, j);
    ErrorSides(s.integral, i.Error());
    ErrorSides(s.integral, j.Error());
  }

  lemma ErrorSides(a: real, e: real)
    ensures Times(a, e) < 0.0 <==> (0.0 < a && e < 0.0) || (a < 0.0 && 0.0 < e)
  {
    if Times(a, e) < 0.0 { Opposes(a, e); }
    if 0.0 < a && e < 0.0 { ProductSign(a, e); }
    if a < 0.0 && 0.0 < e {
      ProductSign(e, a);
      TimesSwap(a, e);
    }
  }

  /** With the state held, the output does not fall when the setpoint rises: always without the relaxation of
      the integral, and with it whenever the integral does not fall. */
  lemma SetpointRaises(s: State, i: Input, setpoint: real)
    requires Proper(i) && InRange(s) && i.setpoint <= setpoint
    requires var j := i.(setpoint := setpoint); i.relaxIntegral ==> Integral(s, i) <= Integral(s, j)
    ensures Output(s, i) <= Output(s, i.(setpoint := setpoint))
  {
    hide Times, Feedforward, Integral, Activity, Dterm;
    var j := i.(setpoint := setpoint);
    ProportionalGrows(i, j);
    if !i.relaxIntegral { IntegralGrows(s, i, j); }
    LeadGrows(i.feedforward, i.setpoint, setpoint, i.maxRate);
    DampingHeld(s, i, setpoint);
  }

  lemma DampingHeld(s: State, i: Input, setpoint: real)
    requires i.Valid()
    ensures Damping(s, i) == Damping(s, i.(setpoint := setpoint))
  {}

  /** With the relaxation the condition is needed: here a higher setpoint gives a lower output. */
  lemma RelaxedMayFall()
    ensures Proper(RELAXED) && InRange(ZERO) && Output(ZERO, RELAXED.(setpoint := 20.0)) < Output(ZERO, RELAXED)
  {
    hide Times, Integral, Dterm, Activity, Over;
    var i, j := RELAXED, RELAXED.(setpoint := 20.0);
    RelaxedIntegrals();
    NothingElse(i);
    NothingElse(j);
  }

  lemma NothingElse(i: Input)
    requires i.Valid() && i.gains.kp == 0.0 && i.gains.kd == 0.0 && i.feedforward == 0.0
    ensures Output(ZERO, i) == Clamp(Integral(ZERO, i), -i.limit, i.limit)
  {
    hide Times, Integral, Dterm, Activity, Over;
    TimesUnits(i.tpa);
    TimesUnits(i.Error());
    TimesUnits(Boost(ZERO, i));
    TimesUnits(Dterm(ZERO, i));
  }

  lemma RelaxedIntegrals()
    ensures Integral(ZERO, RELAXED) == 10.0 && Integral(ZERO, RELAXED.(setpoint := 20.0)) == 0.0
  {
    hide Times;
    TimesUnits(0.0);
    TimesUnits(10.0);
    TimesUnits(20.0);
    TimesUnits(30.0);
  }

  const RELAXED := Input(Gains(0.0, 1.0, 0.0), 0.0, -10.0, 0.0, 100.0, 1.0, 25.0, 1.0, 0.0, true, true, false,
                         Smoothing(0.0, 0.0, 0.0, 0.0, 0.0))

  // ------------------------------------------------- a higher rate

  lemma IntegralFalls(s: State, i: Input, rate: real)
    requires Proper(i) && InRange(s) && i.rate <= rate
    ensures Integral(s, i.(rate := rate)) <= Integral(s, i)
  {
    hide Times, Gain;
    var j := i.(rate := rate);
    ErrorSides(s.integral, i.Error());
    ErrorSides(s.integral, j.Error());
    GainSign(s, i);
    GainSign(s, j);
    if IntegralFactor(s, i) == IntegralFactor(s, j) { SameFactor(s, j, i, IntegralFactor(s, i)); }
  }

  lemma SameFactor(s: State, i: Input, j: Input, factor: real)
    requires i.Valid() && j.gains == i.gains && j.dt == i.dt && i.Error() <= j.Error()
    requires IntegralFactor(s, i) == factor == IntegralFactor(s, j)
    ensures Gain(s, i) <= Gain(s, j)
  {
    assert 0.0 <= factor;
    hide Times, IntegralFactor;
    Grows(i.gains.ki, i.Error(), j.Error());
    TimesOrder(Times(i.gains.ki, i.Error()), Times(i.gains.ki, j.Error()), i.dt);
    TimesOrder(Times(Times(i.gains.ki, i.Error()), i.dt), Times(Times(i.gains.ki, j.Error()), i.dt), factor);
  }

  lemma DtermFalls(s: State, i: Input, rate: real)
    requires i.Valid() && i.rate <= rate
    ensures Dterm(s, i.(rate := rate)) <= Dterm(s, i)
  {
    hide Times, Over;
    var j := i.(rate := rate);
    QuotientGrows(s.previousRate - rate, s.previousRate - i.rate, i.dt);
    Grows(i.smooth.dterm, Derivative(s, j) - s.dterm, Derivative(s, i) - s.dterm);
  }

  /** With the state held and no dynamic boost of the D term, the output does not rise when the rate does. */
  lemma RateLowers(s: State, i: Input, rate: real)
    requires Proper(i) && InRange(s) && i.rate <= rate && i.boost == 0.0
    ensures Output(s, i.(rate := rate)) <= Output(s, i)
  {
    hide Times, Feedforward, Integral, Activity, Dterm;
    var j := i.(rate := rate);
    ProportionalGrows(j, i);
    IntegralFalls(s, i, rate);
    DtermFalls(s, i, rate);
    TimesUnits(Activity(s, i));
    TimesUnits(Activity(s, j));
    TimesUnits(Times(i.gains.kd, i.tpa));
    ProductSign(i.gains.kd, i.tpa);
    Grows(Times(i.gains.kd, i.tpa), Dterm(s, j), Dterm(s, i));
  }

  /** With the boost the condition is needed: while the D term still pushes up, a higher rate boosts it. */
  lemma BoostMayRaise()
    ensures Proper(BOOSTED) && InRange(RISING) && Output(RISING, BOOSTED) < Output(RISING, BOOSTED.(rate := 500.0))
  {
    hide Times, Dterm, TargetActivity, Damping, Output;
    OnlyDamping(RISING, BOOSTED);
    OnlyDamping(RISING, BOOSTED.(rate := 500.0));
    DtermAt(BOOSTED);
    DtermAt(BOOSTED.(rate := 500.0));
    BoostTargets();
    DampingAt(BOOSTED, 990.0, 0.025);
    DampingAt(BOOSTED.(rate := 500.0), 985.0, 1.0);
  }

  lemma BoostTargets()
    ensures TargetActivity(BOOSTED, 990.0) == 0.025 && TargetActivity(BOOSTED.(rate := 500.0), 985.0) == 1.0
  {}

  lemma OnlyDamping(s: State, i: Input)
    requires i.Valid() && i.gains.kp == 0.0 && !i.integralEnabled && i.feedforward == 0.0
    ensures Output(s, i) == Clamp(Damping(s, i), -i.limit, i.limit)
  {
    hide Times, Damping;
    TimesUnits(i.tpa);
    TimesUnits(i.Error());
  }

  lemma DampingAt(i: Input, dterm: real, target: real)
    requires i.Valid() && i.gains.kd == 0.01 && i.tpa == 1.0 && i.boost == 100.0 && i.smooth.attack == 1.0
    requires dterm == Dterm(RISING, i) && target == TargetActivity(i, dterm) && 0.0 < target
    ensures Damping(RISING, i) == 0.01 * (1.0 + target) * dterm
  {
    hide Dterm, TargetActivity;
    assert Activity(RISING, i) == target by { TimesUnits(target); }
    hide Activity;
    TimesUnits(target);
    assert Boost(RISING, i) == 1.0 + target;
    hide Boost;
    TimesUnits(0.01);
  }

  lemma DtermAt(i: Input)
    requires i.Valid() && i.dt == 1.0 && i.smooth.dterm == 0.01
    ensures Dterm(RISING, i) == 1000.0 + 0.01 * (-i.rate - 1000.0)
  {
    hide Over;
    TimesUnits(Over(-i.rate, 1.0));
    OverLargest(-i.rate, 1.0, 0.0);
    assert Derivative(RISING, i) == -i.rate;
  }

  const BOOSTED := Input(Gains(0.0, 0.0, 0.01), 0.0, 0.0, 0.0, 100.0, 1.0, 35.0, 1.0, 100.0, false, false, false,
                         Smoothing(1.0, 0.01, 1.0, 1.0, 1.0))

  const RISING := State(0.0, 0.0, 1000.0, 0.0, 0.0)

  lemma BoostAtLeastOne(s: State, i: Input)
    requires Proper(i) && InRange(s)
    ensures 1.0 <= Boost(s, i)
  {
    Bounded(s, i);
    hide Times, Activity;
    ProductSign(i.boost * 0.01, Activity(s, i));
  }

  /** Whatever the boost: a rate that has risen since the last update, and was not falling before, has the
      D term push the output down, and one that has fallen has it push up. */
  lemma DampingOpposes(s: State, i: Input)
    requires Proper(i) && InRange(s)
    ensures s.previousRate <= i.rate && s.dterm <= 0.0 ==> Damping(s, i) <= 0.0 && Output(s, i) <= Output(s, Undamped(i))
    ensures i.rate <= s.previousRate && 0.0 <= s.dterm ==> 0.0 <= Damping(s, i) && Output(s, Undamped(i)) <= Output(s, i)
    ensures s.previousRate < i.rate && s.dterm <= 0.0 && 0.0 < i.gains.kd && 0.0 < i.tpa && 0.0 < i.smooth.dterm ==>
              Damping(s, i) < 0.0
  {
    DtermSign(s, i);
    BoostAtLeastOne(s, i);
    UndampedParts(s, i);
    hide Times, Feedforward, Integral, Boost, Dterm, Activity;
    var k := Times(i.gains.kd, i.tpa);
    ProductSign(i.gains.kd, i.tpa);
    ProductSign(k, Boost(s, i));
    ProductSign(Times(k, Boost(s, i)), Dterm(s, i));
  }

  function Undamped(i: Input): Input { i.(gains := i.gains.(kd := 0.0)) }

  lemma UndampedParts(s: State, i: Input)
    requires i.Valid()
    ensures var u := Undamped(i);
      u.Valid() && Damping(s, u) == 0.0 && Proportional(u) == Proportional(i) && Integral(s, u) == Integral(s, i) && Lead(u) == Lead(i)
  {
    var u := Undamped(i);
    hide Feedforward, Clamp, Activity, Dterm;
    TimesUnits(i.tpa);
    TimesUnits(Boost(s, u));
    TimesUnits(Dterm(s, u));
  }

  lemma DtermSign(s: State, i: Input)
    requires i.Valid()
    ensures s.previousRate <= i.rate && s.dterm <= 0.0 ==> Dterm(s, i) <= 0.0
    ensures i.rate <= s.previousRate && 0.0 <= s.dterm ==> 0.0 <= Dterm(s, i)
    ensures s.previousRate < i.rate && s.dterm <= 0.0 && 0.0 < i.smooth.dterm ==> Dterm(s, i) < 0.0
  {
    hide Times, Over;
    var d := Derivative(s, i);
    OverLargest(s.previousRate - i.rate, i.dt, 0.0);
    TimesUnits(i.dt);
    Blend(s.dterm, d, i.smooth.dterm);
    if d < 0.0 && 0.0 < i.smooth.dterm && s.dterm <= 0.0 {
      TimesSum(d, s.dterm, i.smooth.dterm);
      TimesSwap(i.smooth.dterm, d - s.dterm);
      TimesSwap(d, i.smooth.dterm);
      TimesSwap(s.dterm, i.smooth.dterm);
      ProductSign(i.smooth.dterm, d);
      TimesWithin(s.dterm, i.smooth.dterm);
    }
  }

  // ------------------------------------------------- thresholds

  /** The dynamic boost waits for 150 degrees per second or 900 degrees per second squared, and is
      full from 500 or 4500 on. */
  lemma BoostThresholds(i: Input, dterm: real)
    ensures TargetActivity(i, dterm) == 0.0 <==> Abs(i.rate) <= 150.0 && Abs(dterm) <= 900.0
    ensures TargetActivity(i, dterm) == 1.0 <==> 500.0 <= Abs(i.rate) || 4500.0 <= Abs(dterm)
  {}

  /** The integral is not relaxed by a setpoint that stands still, and stops for one that runs 20 degrees
      per second ahead of its average. */
  lemma RelaxThresholds(s: State, i: Input)
    requires i.relaxIntegral && !(Times(s.integral, i.Error()) < 0.0)
    ensures IntegralFactor(s, i) == 1.0 <==> i.setpoint == Relaxed(s, i)
    ensures IntegralFactor(s, i) == 0.0 <==> 20.0 <= Abs(i.setpoint - Relaxed(s, i))
  {
    hide Times, Relaxed;
  }

  /** Without relaxation and saturation the integral takes in error times gain times time, within its limit. */
  lemma IntegralAccumulates(s: State, i: Input)
    requires i.Valid() && i.integralEnabled && !i.saturated && !i.relaxIntegral
    ensures Integral(s, i) == Clamp(s.integral + i.gains.ki * (i.setpoint - i.rate) * i.dt, -30.0, 30.0)
  {
    assert IntegralFactor(s, i) == 1.0;
    assert Gain(s, i) == i.gains.ki * (i.setpoint - i.rate) * i.dt;
  }

  // ------------------------------------------------- the first answer

  lemma LeadSign(gain: real, setpoint: real, maxRate: real)
    requires 0.0 < maxRate && 0.0 <= gain
    ensures 0.0 <= setpoint ==> 0.0 <= Feedforward(gain, setpoint, maxRate)
    ensures setpoint <= 0.0 ==> Feedforward(gain, setpoint, maxRate) <= 0.0
  {
    LeadIs(gain, 0.0, maxRate);
    TimesUnits(gain);
    TimesUnits(Weight(0.0, maxRate));
    hide Times, Feedforward, Weight;
    if 0.0 <= setpoint { LeadGrows(gain, 0.0, setpoint, maxRate); }
    if setpoint <= 0.0 { LeadGrows(gain, setpoint, 0.0, maxRate); }
  }

  /** From nothing, an axis that is to turn one way and does not, or turns the other way, pushes that way. */
  lemma FirstPush(i: Input)
    requires Proper(i) && 0.0 < i.gains.kp && 0.0 < i.tpa && 0.0 < i.limit && !i.saturated
    ensures i.rate <= 0.0 <= i.setpoint && i.rate < i.setpoint ==> 0.0 < Output(ZERO, i)
    ensures i.setpoint <= 0.0 <= i.rate && i.setpoint < i.rate ==> Output(ZERO, i) < 0.0
    ensures i.setpoint == 0.0 == i.rate ==> Output(ZERO, i) == 0.0
  {
    hide Times, Over, Feedforward, Gain, Activity;
    var e, k := i.Error(), Times(i.gains.kp, i.tpa);
    ProductSign(i.gains.kp, i.tpa);
    ProductSign(k, e);
    TimesUnits(k);
    TimesUnits(e);
    GainSign(ZERO, i);
    LeadSign(i.feedforward, i.setpoint, i.maxRate);
    DampingOpposes(ZERO, i);
  }
}
