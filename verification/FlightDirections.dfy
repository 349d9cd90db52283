/**
 Which motors answer which stick and which turn (flight_control_update of
 src/control/flight_control.c): the torques of the four motors, and the signs from the
 receiver to the outputs.
 */
module FlightDirections {
  import opened RealArithmetic
  import opened FlightControl
  import opened PidLaws
  import P = PidLoop
  import Mixer

  // ------------------------------------------------- what the four motors do together

  /** The outputs of the three loops, yaw as the motors turn. */
  datatype Torque = Torque(roll: real, pitch: real, yaw: real)

  function TorqueOf(s: State, i: Frame): Torque
    requires s.config.Valid()
  {
    AxesValid(s, i);
    var a := AxesOf(s, i);
    var yaw := P.Output(s.controller.yaw, a.yaw);
    Torque(P.Output(s.controller.roll, a.roll), P.Output(s.controller.pitch, a.pitch), if s.config.reversed then -yaw else yaw)
  }

  /** How much of a correction reaches the motors. */
  function Reach(s: State, i: Frame): real
    requires s.config.Valid()
  {
    Times(Authority(s, i), Mixer.Scale(Steered(s, i), Throttle(i), s.config.idle, Airmode(s, i)))
  }

  lemma CorrectionTorque(roll: real, pitch: real, yaw: real, authority: real, k: real)
    ensures var c, r := Corrections(roll, pitch, yaw, authority), Times(authority, k);
      && Times(c[2], k) + Times(c[3], k) - Times(c[0], k) - Times(c[1], k) == 4.0 * Times(roll, r)
      && Times(c[1], k) + Times(c[3], k) - Times(c[0], k) - Times(c[2], k) == 4.0 * Times(pitch, r)
      && Times(c[1], k) + Times(c[2], k) - Times(c[0], k) - Times(c[3], k) == 4.0 * Times(yaw, r)
  {}

  /** Motors 0 and 1 are on the right, 2 and 3 on the left, 0 and 2 behind, 1 and 3 in front: the left ones
      roll the craft to the right, the front ones pitch it up, and the diagonal 1, 2 yaws it, each in
      proportion to the output of its loop. */
  lemma MotorTorques(s: State, i: Frame)
    requires s.config.Valid()
    ensures var t, r := TorqueOf(s, i), Reach(s, i);
      && Percent(s, i, 2) + Percent(s, i, 3) - Percent(s, i, 0) - Percent(s, i, 1) == 4.0 * Times(t.roll, r)
      && Percent(s, i, 1) + Percent(s, i, 3) - Percent(s, i, 0) - Percent(s, i, 2) == 4.0 * Times(t.pitch, r)
      && Percent(s, i, 1) + Percent(s, i, 2) - Percent(s, i, 0) - Percent(s, i, 3) == 4.0 * Times(t.yaw, r)
  {
    var t, k := TorqueOf(s, i), Mixer.Scale(Steered(s, i), Throttle(i), s.config.idle, Airmode(s, i));
    SteeredIs(s, i);
    hide AxesOf, P.Output, Mixer.Scale, Mixer.Base, Times, Authority, Corrections, Steered;
    CorrectionTorque(t.roll, t.pitch, t.yaw, Authority(s, i), k);
  }

  lemma SteeredIs(s: State, i: Frame)
    requires s.config.Valid()
    ensures var t := TorqueOf(s, i); Steered(s, i) == Corrections(t.roll, t.pitch, t.yaw, Authority(s, i))
  {
    hide AxesOf, P.Output, Corrections, Authority;
  }

  // ------------------------------------------------- from the sticks to the setpoints

  function RollStick(i: Frame): nat { i.channels[if i.settings.aetr then 0 else 1] }

  function PitchStick(i: Frame): nat { i.channels[if i.settings.aetr then 1 else 2] }

  function ThrottleStick(i: Frame): nat { i.channels[if i.settings.aetr then 2 else 0] }

  function YawStick(i: Frame): nat { i.channels[3] }

  /** The throttle is 0 % up to 1000 microseconds, 100 % from 2000 on, and in proportion between. */
  lemma ThrottleScale(i: Frame)
    ensures ThrottleStick(i) <= 1000 ==> Throttle(i) == 0.0
    ensures 2000 <= ThrottleStick(i) ==> Throttle(i) == 100.0
    ensures 1000 <= ThrottleStick(i) <= 2000 ==> 10.0 * Throttle(i) == ThrottleStick(i) as real - 1000.0
  {}

  lemma StickScale(us: nat)
    ensures us <= 1000 ==> Stick(us) == -1.0
    ensures 2000 <= us ==> Stick(us) == 1.0
    ensures 1000 <= us <= 2000 ==> 500.0 * Stick(us) == us as real - 1500.0
  {}

  /** The curve of a stick: odd in it, none of it at the centre, all of it at the ends, softened between by up
      to the exponential share. */
  lemma CurveShape(x: real, expo: real)
    requires -1.0 <= x <= 1.0 && 0.0 <= expo <= 0.9
    ensures Curved(-x, expo) == -Curved(x, expo)
    ensures 0.0 <= x ==> Times(1.0 - expo, x) <= Curved(x, expo) <= x
    ensures x <= 0.0 ==> x <= Curved(x, expo) <= Times(1.0 - expo, x)
    ensures x == 1.0 ==> Curved(x, expo) == 1.0
  {
    hide Times;
    CurveIs(x, expo);
    CurveIs(-x, expo);
    Softened(if 0.0 <= x then x else -x, expo);
    CubeOdd(x);
    TimesSwap(expo, -Cube(x));
    TimesSwap(expo, Cube(x));
    TimesSum(Cube(x), 0.0, expo);
    TimesSwap(1.0 - expo, x);
    TimesSwap(1.0 - expo, -x);
    TimesSum(x, 0.0, 1.0 - expo);
    TimesUnits(1.0);
    TimesUnits(expo);
    TimesUnits(1.0 - expo);
  }

  function Cube(x: real): real { Times(x, Times(x, x)) }

  lemma CurveIs(x: real, expo: real)
    ensures Curved(x, expo) == Times(1.0 - expo, x) + Times(expo, Cube(x))
    ensures Times(1.0 - expo, x) == x - Times(expo, x)
  {}

  lemma CubeOdd(x: real)
    ensures Cube(-x) == -Cube(x)
  {
    hide Times;
    TimesSum(x, 0.0, -x);
    TimesSwap(x, -x);
    TimesSum(x, 0.0, x);
    TimesSum(x, 0.0, Times(x, x));
  }

  lemma Softened(y: real, expo: real)
    requires 0.0 <= y <= 1.0 && 0.0 <= expo <= 0.9
    ensures 0.0 <= Times(expo, Cube(y)) <= Times(expo, y)
  {
    hide Times;
    TimesWithin(y, y);
    TimesWithin(y, Times(y, y));
    ProductSign(expo, Cube(y));
    Grows(expo, Cube(y), y);
  }

  /** The rate that a stick asks for: in the direction of the stick, the whole rate at its ends. */
  lemma StickRate(us: nat, maxRate: real, expo: real)
    requires 0.0 < maxRate && 0.0 <= expo <= 0.9
    ensures 1500 < us <==> 0.0 < RateSetpoint(us, maxRate, expo)
    ensures us < 1500 <==> RateSetpoint(us, maxRate, expo) < 0.0
    ensures 2000 <= us ==> RateSetpoint(us, maxRate, expo) == maxRate
    ensures us <= 1000 ==> RateSetpoint(us, maxRate, expo) == -maxRate
  {
    hide Times, Curved, Stick;
    StickScale(us);
    var x := Stick(us);
    CurveShape(x, expo);
    CurveShape(1.0, expo);
    ProductSign(1.0 - expo, x);
    ProductSign(maxRate, Curved(x, expo));
    TimesSwap(maxRate, Curved(x, expo));
    TimesUnits(maxRate);
    TimesSum(1.0, 0.0, maxRate);
  }

  // ------------------------------------------------- from the sticks and the gyro to the torques

  /** What the three loops are asked for and told. */
  lemma LoopsAskedFor(s: State, i: Frame)
    requires s.config.Valid()
    ensures var a, c := AxesOf(s, i), s.config;
      && a.roll.setpoint == RateSetpoint(RollStick(i), c.rollRate, c.expo)
      && a.pitch.setpoint == -RateSetpoint(PitchStick(i), c.pitchRate, c.expo)
      && a.yaw.setpoint == RateSetpoint(YawStick(i), c.yawRate, c.expo)
    ensures var a, c := AxesOf(s, i), s.config;
      && a.roll.gains == c.rollGains && a.pitch.gains == c.pitchGains && a.yaw.gains == c.yawGains
      && a.roll.feedforward == c.rollFf && a.pitch.feedforward == c.pitchFf && a.yaw.feedforward == c.yawFf
      && a.roll.maxRate == c.rollRate && a.pitch.maxRate == c.pitchRate && a.yaw.maxRate == c.yawRate
    ensures var a, g := AxesOf(s, i), i.gyro.Minus(s.calibration.bias);
      && (!s.controller.gyroX.initialized ==> a.roll.rate == g.x)
      && (!s.controller.gyroY.initialized ==> a.pitch.rate == g.y)
      && (!s.controller.gyroZ.initialized ==> a.yaw.rate == g.z)
  {
    hide Coefficients, RateSetpoint, TpaFactor, Throttle;
  }

  /** No loop asks for more than its share of the motors: 35 % for roll and pitch, 25 % for yaw. */
  lemma TorqueLimits(s: State, i: Frame)
    requires s.config.Valid() && P.InRange(s.controller.roll) && P.InRange(s.controller.pitch) && P.InRange(s.controller.yaw)
    ensures var t := TorqueOf(s, i); Abs(t.roll) <= 35.0 && Abs(t.pitch) <= 35.0 && Abs(t.yaw) <= 25.0
  {
    AxesValid(s, i);
    var a := AxesOf(s, i);
    assert a.roll.limit == 35.0 && a.pitch.limit == 35.0 && a.yaw.limit == 25.0;
    hide AxesOf, P.Output;
    P.Bounded(s.controller.roll, a.roll);
    P.Bounded(s.controller.pitch, a.pitch);
    P.Bounded(s.controller.yaw, a.yaw);
  }

  /** Gains as they are meant: none negative, and every axis reacts to its error. */
  predicate Tuned(c: Config, i: Frame) {
    && 0.0 < c.rollGains.kp && 0.0 < c.pitchGains.kp && 0.0 < c.yawGains.kp
    && 0.0 <= c.rollGains.kd && 0.0 <= c.pitchGains.kd && 0.0 <= c.yawGains.kd
    && 0.0 <= c.rollFf && 0.0 <= c.pitchFf && 0.0 <= c.yawFf && 0.0 <= i.settings.boost
    && 0.0 < TpaFactor(Throttle(i), c)
  }

  lemma LoopsProper(s: State, i: Frame)
    requires s.config.Valid() && Tuned(s.config, i) && !s.controller.saturated
    ensures var a := AxesOf(s, i);
      && Pushes(a.roll) && Pushes(a.pitch) && Pushes(a.yaw)
  {
    AxesValid(s, i);
    hide Coefficients, RateSetpoint, TpaFactor, Throttle, Filtered;
  }

  predicate Pushes(i: P.Input) { Proper(i) && 0.0 < i.gains.kp && 0.0 < i.tpa && 0.0 < i.limit && !i.saturated }

  /** A sign: right or up, left or down, neither. */
  function Sign(x: real): int { if 0.0 < x then 1 else if x < 0.0 then -1 else 0 }

  /** The stick asks for direction `d` and the craft does not turn that way, or the stick is centred and the
      craft turns against it. */
  predicate Wanted(stick: real, rate: real, d: int) {
    (d != 0 && Sign(stick) == d && Sign(rate) != d) || (stick == 0.0 && Sign(rate) == -d)
  }

  function Deflection(us: nat): real { us as real - 1500.0 }

  /** The first flying update: a stick moved to the right, or a craft that rolls to the left, has the motors
      roll it right; a pitch stick pulled back, or a craft that pitches down, has them pitch it up; a yaw
      stick moved to the right yaws it right, with the motors turning the other way if they are reversed. */
  lemma FirstAnswer(s: State, i: Frame, d: int)
    requires s.config.Valid() && Tuned(s.config, i) && s.controller == RESET
    ensures var t, g := TorqueOf(s, i), i.gyro.Minus(s.calibration.bias);
      && (Wanted(Deflection(RollStick(i)), g.x, d) ==> Sign(t.roll) == d)
      && (Wanted(-Deflection(PitchStick(i)), g.y, d) ==> Sign(t.pitch) == d)
      && (Wanted(Deflection(YawStick(i)), g.z, d) ==> Sign(t.yaw) == if s.config.reversed then -d else d)
  {
    LoopsAskedFor(s, i);
    LoopsProper(s, i);
    var a, c, g := AxesOf(s, i), s.config, i.gyro.Minus(s.calibration.bias);
    StickRate(RollStick(i), c.rollRate, c.expo);
    StickRate(PitchStick(i), c.pitchRate, c.expo);
    StickRate(YawStick(i), c.yawRate, c.expo);
    hide AxesOf, RateSetpoint, TpaFactor, P.Output, RollStick, PitchStick, YawStick, Proper, Wanted, Throttle, Pushes;
    AxisAnswers(a.roll, Deflection(RollStick(i)), d);
    AxisAnswers(a.pitch, -Deflection(PitchStick(i)), d);
    AxisAnswers(a.yaw, Deflection(YawStick(i)), d);
  }

  lemma AxisAnswers(i: P.Input, stick: real, d: int)
    requires Pushes(i) && Sign(i.setpoint) == Sign(stick)
    ensures Wanted(stick, i.rate, d) ==> Sign(P.Output(P.ZERO, i)) == d
  {
    hide P.Output, Proper;
    FirstPush(i);
  }

  /** In airmode some of every correction reaches the motors. */
  lemma AirReaches(s: State, i: Frame)
    requires s.config.Valid() && Airmode(s, i)
    ensures 0.0 < Reach(s, i) <= 1.0
  {
    SteeredBalanced(s, i);
    var c, k := Steered(s, i), Mixer.Scale(Steered(s, i), Throttle(i), s.config.idle, true);
    hide Steered, Mixer.Scale, Mixer.Base, Throttle, Times;
    Mixer.AirOptimal(c, Throttle(i), s.config.idle);
    TimesUnits(k);
  }

  /** Which motors are higher follows the torques. */
  lemma MotorsFollow(s: State, i: Frame)
    requires s.config.Valid() && 0.0 < Reach(s, i)
    ensures var t := TorqueOf(s, i);
      && Sign(Percent(s, i, 2) + Percent(s, i, 3) - Percent(s, i, 0) - Percent(s, i, 1)) == Sign(t.roll)
      && Sign(Percent(s, i, 1) + Percent(s, i, 3) - Percent(s, i, 0) - Percent(s, i, 2)) == Sign(t.pitch)
      && Sign(Percent(s, i, 1) + Percent(s, i, 2) - Percent(s, i, 0) - Percent(s, i, 3)) == Sign(t.yaw)
  {
    MotorTorques(s, i);
    var t, r := TorqueOf(s, i), Reach(s, i);
    hide TorqueOf, Reach, Percent, Times;
    SignTimes(t.roll, r);
    SignTimes(t.pitch, r);
    SignTimes(t.yaw, r);
  }

  lemma SignTimes(x: real, r: real)
    requires 0.0 < r
    ensures Sign(Times(x, r)) == Sign(x)
  {
    hide Times;
    TimesSwap(x, r);
    ProductSign(r, x);
    TimesUnits(r);
  }

  // ------------------------------------------------- thresholds

  /** Ready to arm: a valid link, the arm channel in its range, and the throttle stick at 1050 microseconds or below. */
  lemma ReadyMeans(i: Frame)
    ensures ReadyToArm(i) <==>
      i.valid && i.settings.armMin <= i.channels[i.settings.armChannel] <= i.settings.armMax && ThrottleStick(i) <= 1050
  {}

  /** Airmode begins when the throttle stick has reached 1100 microseconds once; until then the authority of the
      loops grows with the stick, from none at 1000. */
  lemma AirmodeBegins(s: State, i: Frame)
    ensures Airmode(s, i) <==> s.controller.airmode || 1100 <= ThrottleStick(i)
    ensures Airmode(s, i) ==> Authority(s, i) == 1.0
    ensures !Airmode(s, i) && ThrottleStick(i) <= 1000 ==> Authority(s, i) == 0.0
    ensures !Airmode(s, i) && 1000 <= ThrottleStick(i) ==> 100.0 * Authority(s, i) == ThrottleStick(i) as real - 1000.0
  {}

  /** A gyro that turns at 10 degrees per second or is off by 3 from the first sample of the calibration. */
  predicate Moving(c: Calibration, gyro: Vec) {
    || 10.0 <= Abs(gyro.x) || 10.0 <= Abs(gyro.y) || 10.0 <= Abs(gyro.z)
    || 3.0 <= Abs(gyro.x - c.reference.x) || 3.0 <= Abs(gyro.y - c.reference.y) || 3.0 <= Abs(gyro.z - c.reference.z)
  }

  /** Of a calibration that has begun, samples are taken in only while the craft does not move, and the
      sixteenth moving one in a row starts it again. */
  lemma {:induction false} MovingRestarts(c: Calibration, samples: seq<Vec>)
    requires c.count > 0 && c.outliers == 0 && |samples| <= 16
    requires forall i :: 0 <= i < |samples| ==> Moving(c, samples[i])
    ensures var t := Taken(c, samples);
      if |samples| == 16 then t.count == 0 && t.sum == NULL && t.outliers == 0
      else t == c.(outliers := |samples|)
  {
    if samples != [] {
      var n := |samples| - 1;
      MovingRestarts(c, samples[..n]);
    }
  }

  lemma StillCounts(c: Calibration, gyro: Vec)
    requires c.count > 0 && !Moving(c, gyro)
    ensures Sampled(c, gyro) == c.(count := c.count + 1, sum := c.sum.Plus(gyro), outliers := 0)
  {}

  /** A calibration counts as failed after five seconds, until one succeeds. */
  lemma CalibrationFails(s: State, i: Frame)
    requires !s.calibrated && i.now < 0x1_0000_0000 && s.calibration.startedUs < 0x1_0000_0000
    ensures var u := Calibrate(s, i);
      u.calibration.failed <==>
        !u.calibrated && (s.calibration.failed || (i.now - s.calibration.startedUs) % 0x1_0000_0000 >= 5_000_000)
  {
    hide Throttle, ArmSwitch, Stationary;
  }

  /** The integrals are held after an update whose corrections were scaled below 99.9 %. */
  lemma SaturationNoted(s: State, i: Frame)
    requires s.config.Valid()
    ensures Flown(s, i).saturated <==> 1000.0 * Mixer.Scale(Steered(s, i), Throttle(i), s.config.idle, Airmode(s, i)) < 999.0
    ensures AxesOf(s, i).roll.saturated == AxesOf(s, i).pitch.saturated == AxesOf(s, i).yaw.saturated == s.controller.saturated
  {
    hide Steered, Mixer.Scale, Throttle, P.Output, P.Next, Coefficients, TpaFactor, RateSetpoint;
  }

  // ------------------------------------------------- attenuation, filters and DSHOT

  /** The gains are attenuated above the breakpoint only, by the whole attenuation at full throttle. */
  lemma Attenuation(throttle: real, c: Config)
    requires c.Valid() && 0.0 <= throttle <= 100.0
    ensures throttle <= c.breakpoint ==> TpaFactor(throttle, c) == 1.0
    ensures c.breakpoint < 100.0 && throttle == 100.0 ==> TpaFactor(throttle, c) == 1.0 - c.tpa
    ensures 1.0 - c.tpa <= TpaFactor(throttle, c) <= 1.0
    ensures c.tpa < 1.0 ==> 0.0 < TpaFactor(throttle, c)
  {
    if c.tpa > 0.0 && throttle > c.breakpoint {
      var x, d := throttle - c.breakpoint, 100.0 - c.breakpoint;
      hide Times, Over;
      OverLargest(Times(c.tpa, x), d, 0.0);
      OverLargest(Times(c.tpa, x), d, c.tpa);
      OverLargest(Times(c.tpa, x), d, Over(Times(c.tpa, x), d));
      ProductSign(c.tpa, x);
      Grows(c.tpa, x, d);
      TimesUnits(d);
      TimesSwap(c.tpa, d);
    }
  }

  /** The smoothing factor of a time constant is an implicit Euler step: what has been reached lies
      behind the input by the time constant times the rate of change. */
  lemma ImplicitEuler(value: real, input: real, tau: real, dt: real)
    requires 0.0 < dt && 0.0 <= tau
    ensures var next := value + Times(Over(dt, tau + dt), input - value); Times(tau, next - value) == Times(dt, input - next)
  {
    var a, u := Over(dt, tau + dt), input - value;
    assert Times(a, tau + dt) == dt;
    assert a * tau == dt - a * dt;
    assert Times(tau, Times(a, u)) == (a * tau) * u;
    assert (dt - a * dt) * u == dt * (u - a * u);
  }

  /** The time constants of the filters: of a cut-off frequency for gyro, D term and yaw setpoint, 3 ms and
      90 ms for the activity. */
  lemma TimeConstants(dt: real, gyroHz: real, dtermHz: real)
    requires 0.0 < dt && 0.0 < gyroHz && 0.0 < dtermHz
    ensures var f := Coefficients(dt, gyroHz, dtermHz);
      && 0.0 < Tau(gyroHz) && 0.0 < Tau(dtermHz) && 0.0 < Tau(8.0)
      && f.gyro == Over(dt, Tau(gyroHz) + dt) && f.dterm == Over(dt, Tau(dtermHz) + dt) && f.relax == Over(dt, Tau(8.0) + dt)
      && f.attack == Over(dt, 0.003 + dt) && f.release == Over(dt, 0.090 + dt)
    ensures Times(2.0 * PI * gyroHz, Tau(gyroHz)) == 1.0 && Times(2.0 * PI * dtermHz, Tau(dtermHz)) == 1.0
  {
    hide Over, Times;
    TauPositive(gyroHz);
    TauPositive(dtermHz);
    TauPositive(8.0);
    OverLargest(1.0, 2.0 * PI * gyroHz, 0.0);
    OverLargest(1.0, 2.0 * PI * dtermHz, 0.0);
  }

  /** DSHOT: 0 stops, and every other percentage is the step of 48 to 2047 that it has reached. */
  lemma DshotSteps(percent: real)
    ensures percent <= 0.0 ==> Dshot(percent) == 0
    ensures 100.0 <= percent ==> Dshot(percent) == 2047
    ensures 0.0 < percent <= 100.0 ==>
      (Dshot(percent) - 48) as real * 100.0 <= percent * 1999.0 < (Dshot(percent) - 47) as real * 100.0
  {}

  // ------------------------------------------------- the bias

  function Total(samples: seq<Vec>): Vec {
    if samples == [] then NULL else Total(samples[..|samples| - 1]).Plus(samples[|samples| - 1])
  }

  function Taken(c: Calibration, samples: seq<Vec>): Calibration {
    if samples == [] then c else Sampled(Taken(c, samples[..|samples| - 1]), samples[|samples| - 1])
  }

  /** A craft that is held still: every sample counts. */
  predicate Held(samples: seq<Vec>) {
    forall i :: 0 < i < |samples| ==> samples[i].Below(10.0) && samples[i].Minus(samples[0]).Below(3.0)
  }

  lemma {:induction false} SamplesTaken(c: Calibration, samples: seq<Vec>)
    requires c.count == 0 && c.sum == NULL && Held(samples)
    ensures var t := Taken(c, samples); t.count == |samples| && t.sum == Total(samples) && (samples != [] ==> t.reference == samples[0])
  {
    if samples != [] {
      var n := |samples| - 1;
      SamplesTaken(c, samples[..n]);
    }
  }

  /** The bias is the mean of the samples of a craft that is held still. */
  lemma BiasIsMean(s: State, samples: seq<Vec>)
    requires s.calibration.count == 0 && s.calibration.sum == NULL && Held(samples) && |samples| == CALIBRATION_SAMPLES
    ensures var f, n := Finish(s, Taken(s.calibration, samples), true), CALIBRATION_SAMPLES as real;
      var b, t := f.calibration.bias, Total(samples);
      f.calibrated && Times(n, b.x) == t.x && Times(n, b.y) == t.y && Times(n, b.z) == t.z
  {
    SamplesTaken(s.calibration, samples);
    var t, n := Total(samples), CALIBRATION_SAMPLES as real;
    hide Times, Over, Taken, Total;
    OverLargest(t.x, n, 0.0);
    OverLargest(t.y, n, 0.0);
    OverLargest(t.z, n, 0.0);
  }
}
