/**
 One axis of the rate controller: pid() of src/control/flight_control.c, over the reals,
 with its state updated in place.
 */
module PidLoop {
  import opened RealArithmetic

  const INTEGRAL_LIMIT := 30.0

  datatype Gains = Gains(kp: real, ki: real, kd: real)

  /** Smoothing factors; each is dt / (tau + dt). */
  datatype Smoothing = Smoothing(gyro: real, dterm: real, relax: real, attack: real, release: real) {
    predicate Valid() {
      0.0 <= gyro <= 1.0 && 0.0 <= dterm <= 1.0 && 0.0 <= relax <= 1.0 && 0.0 <= attack <= 1.0 && 0.0 <= release <= 1.0
    }
  }

  datatype State = State(integral: real, previousRate: real, dterm: real, activity: real, relaxed: real)

  const ZERO := State(0.0, 0.0, 0.0, 0.0, 0.0)

  datatype Input = Input(gains: Gains, setpoint: real, rate: real, feedforward: real, maxRate: real, dt: real,
                         limit: real, tpa: real, boost: real, integralEnabled: bool, relaxIntegral: bool,
                         saturated: bool, smooth: Smoothing) {
    predicate Valid() { 0.0 < dt && 0.0 < maxRate && 0.0 <= limit && 0.0 <= gains.ki && smooth.Valid() }

    function Error(): real { setpoint - rate }
  }

  /** What the loop keeps in its state. */
  predicate InRange(s: State) { -INTEGRAL_LIMIT <= s.integral <= INTEGRAL_LIMIT && 0.0 <= s.activity <= 1.0 }

  function Relaxed(s: State, i: Input): real {
    if i.relaxIntegral then s.relaxed + Times(i.smooth.relax, i.setpoint - s.relaxed) else s.relaxed
  }

  /** A fast stick holds the integral back. */
  function IntegralFactor(s: State, i: Input): real {
    if Times(s.integral, i.Error()) < 0.0 || !i.relaxIntegral then 1.0
    else Clamp(1.0 - Abs(i.setpoint - Relaxed(s, i)) / 20.0, 0.0, 1.0)
  }

  function Gain(s: State, i: Input): real {
    Times(Times(Times(i.gains.ki, i.Error()), i.dt), IntegralFactor(s, i))
  }

  function Integral(s: State, i: Input): real {
    if !i.integralEnabled then 0.0
    else if !i.saturated || Times(s.integral, i.Error()) < 0.0 then
      Clamp(s.integral + Gain(s, i), -INTEGRAL_LIMIT, INTEGRAL_LIMIT)
    else s.integral
  }

  function Derivative(s: State, i: Input): real
    requires i.Valid()
  {
    Over(s.previousRate - i.rate, i.dt)
  }

  function Dterm(s: State, i: Input): real
    requires i.Valid()
  {
    s.dterm + Times(i.smooth.dterm, Derivative(s, i) - s.dterm)
  }

  function TargetActivity(i: Input, dterm: real): real {
    Max(Clamp((Abs(i.rate) - 150.0) / 350.0, 0.0, 1.0), Clamp((Abs(dterm) - 900.0) / 3600.0, 0.0, 1.0))
  }

  function Activity(s: State, i: Input): real
    requires i.Valid()
  {
    var target := TargetActivity(i, Dterm(s, i));
    s.activity + Times(if target > s.activity then i.smooth.attack else i.smooth.release, target - s.activity)
  }

  function Smoothstep(n: real): real { Times(Times(n, n), 3.0 - 2.0 * n) }

  /** progressive_feedforward */
  function Feedforward(gain: real, setpoint: real, maxRate: real): real
    requires 0.0 < maxRate
  {
    if gain == 0.0 then 0.0
    else
      var n := Clamp(Over(Abs(setpoint), maxRate), 0.0, 1.0);
      Times(Times(gain, setpoint), 0.70 + 0.30 * Smoothstep(n))
  }

  function Next(s: State, i: Input): State
    requires i.Valid()
  {
    State(Integral(s, i), i.rate, Dterm(s, i), Activity(s, i), Relaxed(s, i))
  }

  /** The share of the error, of its derivative, and of the setpoint itself in the output. */
  function Proportional(i: Input): real { Times(Times(i.gains.kp, i.tpa), i.Error()) }

  function Boost(s: State, i: Input): real
    requires i.Valid()
  {
    1.0 + Times(i.boost * 0.01, Activity(s, i))
  }

  function Damping(s: State, i: Input): real
    requires i.Valid()
  {
    Times(Times(Times(i.gains.kd, i.tpa), Boost(s, i)), Dterm(s, i))
  }

  function Lead(i: Input): real
    requires i.Valid()
  {
    Feedforward(i.feedforward, i.setpoint, i.maxRate)
  }

  function Output(s: State, i: Input): real
    requires i.Valid()
  {
    Clamp(Proportional(i) + Integral(s, i) + Damping(s, i) + Lead(i), -i.limit, i.limit)
  }

  lemma Blend(a: real, target: real, k: real)
    requires 0.0 <= k <= 1.0
    ensures Min(a, target) <= a + Times(k, target - a) <= Max(a, target)
  {
    TimesSwap(k, target - a);
    TimesWithin(target - a, k);
    hide Times;
  }

  /** The integral stays within its limit, the activity within [0, 1], the output within its limit. */
  lemma Bounded(s: State, i: Input)
    requires InRange(s) && i.Valid()
    ensures InRange(Next(s, i)) && -i.limit <= Output(s, i) <= i.limit
    ensures !i.integralEnabled ==> Next(s, i).integral == 0.0
  {
    hide Times, Over, TargetActivity;
    var t := TargetActivity(i, Dterm(s, i));
    TargetInRange(i, Dterm(s, i));
    Blend(s.activity, t, if t > s.activity then i.smooth.attack else i.smooth.release);
  }

  lemma TargetInRange(i: Input, d: real)
    ensures 0.0 <= TargetActivity(i, d) <= 1.0
  {}

  /** While the mixer is saturated the integral never moves further from zero on its own side. */
  lemma AntiWindup(s: State, i: Input)
    requires InRange(s) && i.Valid() && i.saturated && i.integralEnabled
    ensures Times(s.integral, i.Error()) >= 0.0 ==> Next(s, i).integral == s.integral
    ensures 0.0 <= s.integral ==> Next(s, i).integral <= s.integral
    ensures s.integral <= 0.0 ==> s.integral <= Next(s, i).integral
  {
    hide Times, Relaxed;
    if Times(s.integral, i.Error()) < 0.0 {
      Opposes(s.integral, i.Error());
      GainSign(s, i);
    }
  }

  lemma Opposes(a: real, e: real)
    requires Times(a, e) < 0.0
    ensures (0.0 < a && e < 0.0) || (a < 0.0 && 0.0 < e)
  {
    if 0.0 <= a && 0.0 <= e { Product(a, e); }
    if a <= 0.0 && e <= 0.0 { Product(-a, -e); }
  }

  lemma GainSign(s: State, i: Input)
    requires i.Valid()
    ensures i.Error() <= 0.0 ==> Gain(s, i) <= 0.0
    ensures 0.0 <= i.Error() ==> 0.0 <= Gain(s, i)
  {
    hide Relaxed;
    var k := i.gains.ki;
    var a := Times(k, i.Error());
    var b := Times(a, i.dt);
    var f := IntegralFactor(s, i);
    assert 0.0 <= f;
    if i.Error() <= 0.0 {
      Product(k, -i.Error());
      Product(-a, i.dt);
      Product(-b, f);
    } else {
      Product(k, i.Error());
      Product(a, i.dt);
      Product(b, f);
    }
  }

  lemma SmoothstepInRange(n: real)
    requires 0.0 <= n <= 1.0
    ensures 0.0 <= Smoothstep(n) <= 1.0
  {
    Product(n, n);
    Product(n * n, 3.0 - 2.0 * n);
    var m := 1.0 - n;
    Product(m, m);
    Product(m * m, 1.0 + 2.0 * n);
    assert 1.0 - (n * n) * (3.0 - 2.0 * n) == (m * m) * (1.0 + 2.0 * n);
  }

  /** Feedforward is between 70 % and all of what its gain asks for. */
  lemma FeedforwardInRange(gain: real, setpoint: real, maxRate: real)
    requires 0.0 < maxRate
    ensures var full := Times(gain, setpoint); var ff := Feedforward(gain, setpoint, maxRate);
      (0.0 <= full ==> 0.7 * full <= ff <= full) && (full <= 0.0 ==> full <= ff <= 0.7 * full)
  {
    var full := Times(gain, setpoint);
    var n := Clamp(Over(Abs(setpoint), maxRate), 0.0, 1.0);
    SmoothstepInRange(n);
    TimesUnits(setpoint);
    var m := 0.70 + 0.30 * Smoothstep(n);
    hide Over, Smoothstep, Times;
    TimesSwap(full, m);
    Scaled(full, 0.7, m);
    Scaled(full, m, 1.0);
    TimesUnits(full);
    SevenTenths(full);
  }

  lemma SevenTenths(a: real)
    ensures Times(a, 0.7) == 0.7 * a
  {}

  lemma Scaled(a: real, k: real, m: real)
    requires k <= m
    ensures 0.0 <= a ==> Times(a, k) <= Times(a, m)
    ensures a <= 0.0 ==> Times(a, m) <= Times(a, k)
  {
    if 0.0 <= a { Product(a, m - k); } else { Product(-a, m - k); }
  }

  /** The axis whose state pid() updates. */
  class Axis {
    var integral: real
    var previousRate: real
    var dterm: real
    var activity: real
    var relaxed: real

    constructor ()
      ensures Value() == ZERO
    {
      integral, previousRate, dterm, activity, relaxed := 0.0, 0.0, 0.0, 0.0, 0.0;
    }

    function Value(): State
      reads this
    {
      State(integral, previousRate, dterm, activity, relaxed)
    }

    method Reset()
      modifies this
      ensures Value() == ZERO
    {
      integral, previousRate, dterm, activity, relaxed := 0.0, 0.0, 0.0, 0.0, 0.0;
    }

    /** pid() */
    method Run(i: Input) returns (output: real)
      requires i.Valid()
      modifies this
      ensures Value() == Next(old(Value()), i) && output == Output(old(Value()), i)
    {
      hide Times, Over, TargetActivity, Feedforward;
      var error := i.setpoint - i.rate;
      var opposed := Times(integral, error) < 0.0;
      var factor := 1.0;
      if i.relaxIntegral {
        relaxed := relaxed + Times(i.smooth.relax, i.setpoint - relaxed);
        factor := Clamp(1.0 - Abs(i.setpoint - relaxed) / 20.0, 0.0, 1.0);
      }
      if !i.integralEnabled {
        integral := 0.0;
      } else if !i.saturated || opposed {
        if opposed { factor := 1.0; }
        integral := Clamp(integral + Times(Times(Times(i.gains.ki, error), i.dt), factor),
                          -INTEGRAL_LIMIT, INTEGRAL_LIMIT);
      }
      var derivative := Over(previousRate - i.rate, i.dt);
      previousRate := i.rate;
      dterm := dterm + Times(i.smooth.dterm, derivative - dterm);
      var target := TargetActivity(i, dterm);
      activity := activity +
        Times(if target > activity then i.smooth.attack else i.smooth.release, target - activity);
      var boost := 1.0 + Times(i.boost * 0.01, activity);
      var p := Times(Times(i.gains.kp, i.tpa), error);
      var d := Times(Times(Times(i.gains.kd, i.tpa), boost), dterm);
      output := Clamp(p + integral + d + Feedforward(i.feedforward, i.setpoint, i.maxRate), -i.limit, i.limit);
    }
  }
}
