/**
 Gyro calibration, arming and the flight loop of flight_control_update
 (src/control/flight_control.c) with the boot interlock (src/control/boot_arm_guard.h),
 over the reals.
 */
module FlightControl {
  import opened Bytes
  import opened RealArithmetic
  import P = PidLoop
  import Mixer

  const CALIBRATION_SAMPLES := 8000
  const MAX_OUTLIERS := 16
  const CALIBRATION_TIMEOUT_US := 5_000_000
  const PI := 3.14159265358979323846

  datatype Vec = Vec(x: real, y: real, z: real) {
    function Plus(v: Vec): Vec { Vec(x + v.x, y + v.y, z + v.z) }
    function Minus(v: Vec): Vec { Vec(x - v.x, y - v.y, z - v.z) }
    function Mean(n: nat): Vec
      requires n > 0
    {
      Vec(Over(x, n as real), Over(y, n as real), Over(z, n as real))
    }
    predicate Below(m: real) { Abs(x) < m && Abs(y) < m && Abs(z) < m }
  }

  const NULL := Vec(0.0, 0.0, 0.0)

  /** boot_arm_guard_t */
  datatype Guard = Guard(checked: bool, blocked: bool)

  datatype Calibration = Calibration(forArm: bool, count: nat, outliers: nat, startedUs: nat, failed: bool,
                                     sum: Vec, reference: Vec, bias: Vec)

  /** pt1_filter_t */
  datatype Pt1 = Pt1(value: real, initialized: bool)

  datatype Controller = Controller(roll: P.State, pitch: P.State, yaw: P.State,
                                   gyroX: Pt1, gyroY: Pt1, gyroZ: Pt1, saturated: bool, airmode: bool)

  const UNFILTERED := Pt1(0.0, false)

  /** reset_controller */
  const RESET := Controller(P.ZERO, P.ZERO, P.ZERO, UNFILTERED, UNFILTERED, UNFILTERED, false, false)

  /** The values the flight_control_set_ functions accept. */
  datatype Config = Config(rollGains: P.Gains, pitchGains: P.Gains, yawGains: P.Gains,
                           rollRate: real, pitchRate: real, yawRate: real, expo: real,
                           rollFf: real, pitchFf: real, yawFf: real,
                           tpa: real, breakpoint: real, idle: real, reversed: bool) {
    predicate Valid() {
      && 0.0 <= rollGains.ki && 0.0 <= pitchGains.ki && 0.0 <= yawGains.ki
      && 0.0 < rollRate && 0.0 < pitchRate && 0.0 < yawRate && 0.0 <= expo <= 0.9
      && 0.0 <= tpa <= 1.0 && 0.0 <= breakpoint <= 100.0 && 1.0 <= idle <= 10.0
    }
  }

  datatype Settings = Settings(aetr: bool, armChannel: nat, armMin: nat, armMax: nat,
                               gyroHz: real, dtermHz: real, boost: real) {
    predicate Valid() { armChannel < 16 && 0.0 < gyroHz && 0.0 < dtermHz }
  }

  datatype Input = Input(valid: bool, channels: seq<nat>, gyro: Vec, dt: real, now: nat, settings: Settings) {
    predicate Valid() { |channels| == 16 && settings.Valid() }
  }

  type Frame = i: Input | i.Valid() witness
    Input(false, seq(16, _ => 0), NULL, 0.0, 0, Settings(false, 4, 0, 0, 1.0, 1.0, 0.0))

  datatype State = State(guard: Guard, calibration: Calibration, controller: Controller,
                         calibrated: bool, armed: bool, switchWasLow: bool, config: Config)

  function Throttle(i: Frame): real {
    Clamp((i.channels[if i.settings.aetr then 2 else 0] as real - 1000.0) / 10.0, 0.0, 100.0)
  }

  predicate ArmSwitch(i: Frame) {
    i.valid && i.settings.armMin <= i.channels[i.settings.armChannel] <= i.settings.armMax
  }

  /** A valid link, the arm switch on and the throttle at most 5 %. */
  predicate ReadyToArm(i: Frame) { ArmSwitch(i) && Throttle(i) <= 5.0 }

  // ------------------------------------------------- boot interlock and calibration

  /** boot_arm_guard_update: only the first valid frame decides. */
  function Guarded(g: Guard, valid: bool, armActive: bool): Guard {
    if !g.checked && valid then Guard(true, armActive) else g
  }

  function Restarted(c: Calibration): Calibration { c.(count := 0, outliers := 0, sum := NULL) }

  /** begin_calibration */
  function BeginCalibration(s: State, forArm: bool, now: nat): State {
    s.(calibrated := false, armed := false, controller := RESET,
       calibration := Calibration(forArm, 0, 0, now, false, NULL, NULL, NULL))
  }

  predicate Stationary(c: Calibration, gyro: Vec) { gyro.Below(10.0) && gyro.Minus(c.reference).Below(3.0) }

  /** One gyro sample is taken into the calibration. */
  function Sampled(c: Calibration, gyro: Vec): Calibration {
    if c.count == 0 then c.(reference := gyro, sum := c.sum.Plus(gyro), count := 1)
    else if Stationary(c, gyro) then c.(outliers := 0, sum := c.sum.Plus(gyro), count := c.count + 1)
    else if c.outliers + 1 >= MAX_OUTLIERS then Restarted(c)
    else c.(outliers := c.outliers + 1)
  }

  /** An update while the gyro is not calibrated. */
  function Calibrate(s: State, i: Frame): State {
    var c0 := s.calibration;
    var c1 := if c0.forArm && !ReadyToArm(i) then Restarted(c0).(forArm := false) else c0;
    var c2 := if Sub32(i.now, c1.startedUs) >= CALIBRATION_TIMEOUT_US then c1.(failed := true) else c1;
    if c2.forArm || !ArmSwitch(i) then Finish(s, Sampled(c2, i.gyro), c2.count > 0)
    else s.(armed := false, calibration := c2)
  }

  /** Enough samples: the bias is their mean, and a calibration for arming arms. */
  function Finish(s: State, c: Calibration, more: bool): State {
    if more && c.count >= CALIBRATION_SAMPLES then
      s.(calibration := c.(bias := c.sum.Mean(c.count), failed := false, forArm := false),
         calibrated := true, armed := c.forArm, controller := if c.forArm then RESET else s.controller)
    else s.(armed := false, calibration := c)
  }

  // ------------------------------------------------- flying

  function Tau(hz: real): real
    requires 0.0 < hz
  {
    Over(1.0, 2.0 * PI * hz)
  }

  /** update_filter_coefficients */
  function Coefficients(dt: real, gyroHz: real, dtermHz: real): P.Smoothing
    requires 0.0 < dt && 0.0 < gyroHz && 0.0 < dtermHz
  {
    TauPositive(gyroHz);
    TauPositive(dtermHz);
    TauPositive(8.0);
    P.Smoothing(Over(dt, Tau(gyroHz) + dt), Over(dt, Tau(dtermHz) + dt), Over(dt, Tau(8.0) + dt),
                Over(dt, 0.003 + dt), Over(dt, 0.090 + dt))
  }

  lemma TauPositive(hz: real)
    requires 0.0 < hz
    ensures 0.0 < Tau(hz)
  {
    OverLargest(1.0, 2.0 * PI * hz, 0.0);
    if Tau(hz) <= 0.0 { TimesOrder(Tau(hz), 0.0, 2.0 * PI * hz); }
  }

  lemma Share(dt: real, tau: real)
    requires 0.0 < dt && 0.0 <= tau
    ensures 0.0 <= Over(dt, tau + dt) <= 1.0
  {
    hide Times;
    OverLargest(dt, tau + dt, 0.0);
    OverLargest(dt, tau + dt, 1.0);
    TimesUnits(tau + dt);
  }

  lemma CoefficientsValid(dt: real, gyroHz: real, dtermHz: real)
    requires 0.0 < dt && 0.0 < gyroHz && 0.0 < dtermHz
    ensures Coefficients(dt, gyroHz, dtermHz).Valid()
  {
    hide Over, Times, Tau;
    TauPositive(gyroHz);
    TauPositive(dtermHz);
    TauPositive(8.0);
    Share(dt, Tau(gyroHz));
    Share(dt, Tau(dtermHz));
    Share(dt, Tau(8.0));
    Share(dt, 0.003);
    Share(dt, 0.090);
  }

  /** pt1 */
  function Filtered(f: Pt1, alpha: real, input: real): Pt1 {
    if !f.initialized then Pt1(input, true) else f.(value := f.value + Times(alpha, input - f.value))
  }

  function Stick(us: nat): real { Clamp((us as real - 1500.0) / 500.0, -1.0, 1.0) }

  function Curved(x: real, expo: real): real { Times(1.0 - expo, x) + Times(expo, Times(x, Times(x, x))) }

  /** rate_setpoint */
  function RateSetpoint(us: nat, maxRate: real, expo: real): real { Times(Curved(Stick(us), expo), maxRate) }

  function TpaFactor(throttle: real, config: Config): real {
    if config.tpa > 0.0 && throttle > config.breakpoint && config.breakpoint < 100.0 then
      1.0 - Over(Times(config.tpa, throttle - config.breakpoint), 100.0 - config.breakpoint)
    else 1.0
  }

  function Airmode(s: State, i: Frame): bool { s.controller.airmode || Throttle(i) >= 10.0 }

  function Authority(s: State, i: Frame): real {
    if Airmode(s, i) then 1.0 else Clamp(Throttle(i) / 10.0, 0.0, 1.0)
  }

  /** Quad X: rear right, front right, rear left, front left. */
  function Corrections(roll: real, pitch: real, yaw: real, authority: real): seq<real> {
    [Times(-roll - pitch - yaw, authority), Times(-roll + pitch + yaw, authority),
     Times(roll - pitch + yaw, authority), Times(roll + pitch - yaw, authority)]
  }

  /** dshot_from_percent */
  function Dshot(percent: real): nat {
    if percent <= 0.0 then 0 else 48 + (Min(percent, 100.0) * 1999.0 / 100.0).Floor
  }

  datatype Axes = Axes(roll: P.Input, pitch: P.Input, yaw: P.Input, x: Pt1, y: Pt1, z: Pt1)

  /** What the three loops are called with. */
  function AxesOf(s: State, i: Frame): Axes
    requires s.config.Valid()
  {
    var c, k := s.config, s.controller;
    var dt := Clamp(i.dt, 0.00005, 0.0005);
    var f := Coefficients(dt, i.settings.gyroHz, i.settings.dtermHz);
    var g := i.gyro.Minus(s.calibration.bias);
    var x, y, z := Filtered(k.gyroX, f.gyro, g.x), Filtered(k.gyroY, f.gyro, g.y), Filtered(k.gyroZ, f.gyro, g.z);
    var (rollCh, pitchCh) := if i.settings.aetr then (0, 1) else (1, 2);
    var tpa, air := TpaFactor(Throttle(i), c), Airmode(s, i);
    Axes(P.Input(c.rollGains, RateSetpoint(i.channels[rollCh], c.rollRate, c.expo), x.value, c.rollFf, c.rollRate,
                 dt, 35.0, tpa, i.settings.boost, air, false, k.saturated, f),
         P.Input(c.pitchGains, -RateSetpoint(i.channels[pitchCh], c.pitchRate, c.expo), y.value, c.pitchFf, c.pitchRate,
                 dt, 35.0, tpa, i.settings.boost, air, false, k.saturated, f),
         P.Input(c.yawGains, RateSetpoint(i.channels[3], c.yawRate, c.expo), z.value, c.yawFf, c.yawRate,
                 dt, 25.0, tpa, 0.0, air, true, k.saturated, f),
         x, y, z)
  }

  lemma AxesValid(s: State, i: Frame)
    requires s.config.Valid()
    ensures var a := AxesOf(s, i); a.roll.Valid() && a.pitch.Valid() && a.yaw.Valid()
  {
    CoefficientsValid(Clamp(i.dt, 0.00005, 0.0005), i.settings.gyroHz, i.settings.dtermHz);
    hide Coefficients, RateSetpoint, TpaFactor, Filtered, Throttle;
  }

  /** The corrections of one flying update. */
  function Steered(s: State, i: Frame): seq<real>
    requires s.config.Valid()
  {
    AxesValid(s, i);
    var a := AxesOf(s, i);
    var yaw := P.Output(s.controller.yaw, a.yaw);
    Corrections(P.Output(s.controller.roll, a.roll), P.Output(s.controller.pitch, a.pitch),
                if s.config.reversed then -yaw else yaw, Authority(s, i))
  }

  function Flown(s: State, i: Frame): Controller
    requires s.config.Valid()
  {
    AxesValid(s, i);
    var a := AxesOf(s, i);
    Controller(P.Next(s.controller.roll, a.roll), P.Next(s.controller.pitch, a.pitch), P.Next(s.controller.yaw, a.yaw),
               a.x, a.y, a.z,
               Mixer.Scale(Steered(s, i), Throttle(i), s.config.idle, Airmode(s, i)) < 0.999, Airmode(s, i))
  }

  /** The percentage of each motor before it becomes a DSHOT value. */
  function Percent(s: State, i: Frame, m: nat): real
    requires s.config.Valid() && m < 4
  {
    var c, t, air := Steered(s, i), Throttle(i), Airmode(s, i);
    Mixer.Base(c, t, s.config.idle, air) + Times(c[m], Mixer.Scale(c, t, s.config.idle, air))
  }

  const STOPPED: seq<nat> := [0, 0, 0, 0]

  function Motors(s: State, i: Frame): seq<nat>
    requires s.config.Valid()
  {
    [Dshot(Percent(s, i, 0)), Dshot(Percent(s, i, 1)), Dshot(Percent(s, i, 2)), Dshot(Percent(s, i, 3))]
  }

  datatype Outcome = Outcome(state: State, motors: seq<nat>)

  /** flight_control_update */
  function Update(s: State, i: Frame): Outcome
    requires s.config.Valid()
  {
    var u := s.(guard := Guarded(s.guard, i.valid, ArmSwitch(i)));
    if u.guard.blocked then Outcome(u.(armed := false, controller := RESET), STOPPED)
    else if !u.calibrated then Outcome(Calibrate(u, i), STOPPED)
    else if !ArmSwitch(i) then
      Outcome(u.(switchWasLow := true, armed := false, controller := RESET), STOPPED)
    else if !u.armed then
      Outcome(if !u.switchWasLow || Throttle(i) > 5.0 then u else BeginCalibration(u, true, i.now), STOPPED)
    else Outcome(u.(controller := Flown(u, i)), Motors(u, i))
  }

  // ------------------------------------------------- the other calls

  datatype Event =
    | Updated(i: Frame)
    | Calibrated(now: nat)          // flight_control_start_calibration
    | EmergencyStopped
    | PidReset                      // flight_control_reset_pid_state
    | Configured(config: Config)    // any of the flight_control_set_ functions

  function StartCalibration(s: State, now: nat): State { BeginCalibration(s, false, now).(switchWasLow := false) }

  function EmergencyStop(s: State): State { s.(armed := false, switchWasLow := false, controller := RESET) }

  function ResetPid(s: State): State { s.(controller := RESET.(airmode := s.armed && s.controller.airmode)) }

  function Configure(s: State, config: Config): State {
    if s.armed || !config.Valid() then s else s.(config := config, controller := RESET)
  }

  function Step(s: State, e: Event): State
    requires s.config.Valid()
  {
    match e
    case Updated(i) => Update(s, i).state
    case Calibrated(now) => StartCalibration(s, now)
    case EmergencyStopped => EmergencyStop(s)
    case PidReset => ResetPid(s)
    case Configured(config) => Configure(s, config)
  }

  /** flight_control_init */
  function Init(config: Config, now: nat): State {
    State(Guard(false, false), Calibration(false, 0, 0, now, false, NULL, NULL, NULL), RESET, false, false, false, config)
  }

  // ------------------------------------------------- the invariant

  predicate Calm(k: Controller) {
    P.InRange(k.roll) && P.InRange(k.pitch) && P.InRange(k.yaw) &&
    (!k.airmode ==> k.roll.integral == 0.0 && k.pitch.integral == 0.0 && k.yaw.integral == 0.0)
  }

  predicate Inv(s: State) {
    && s.config.Valid() && Calm(s.controller)
    && (s.armed ==> s.calibrated && s.guard.checked && !s.guard.blocked)
    && (s.calibrated ==> !s.calibration.forArm)
    && (s.calibration.forArm ==> s.guard.checked && !s.guard.blocked)
    && (s.controller.airmode ==> s.armed)
    && (s.guard.blocked ==> s.guard.checked)
    && (!s.calibrated ==> s.calibration.count < CALIBRATION_SAMPLES)
    && s.calibration.outliers < MAX_OUTLIERS
    && (!s.calibrated ==> CalibrationInv(s.calibration))
  }

  predicate Near(sum: real, reference: real, n: nat) {
    Abs(sum - Times(reference, n as real)) <= 3.0 * n as real
  }

  /** Every sample taken in lies within 3 degrees per second of the reference. */
  predicate CalibrationInv(c: Calibration) {
    if c.count == 0 then c.sum == NULL && c.outliers == 0
    else
      Near(c.sum.x, c.reference.x, c.count) && Near(c.sum.y, c.reference.y, c.count) &&
      Near(c.sum.z, c.reference.z, c.count)
  }

  lemma NearStep(sum: real, reference: real, n: nat, g: real)
    requires Near(sum, reference, n) && Abs(g - reference) < 3.0
    ensures Near(sum + g, reference, n + 1)
  {
    assert Times(reference, (n + 1) as real) == Times(reference, n as real) + reference;
  }

  lemma NearFirst(g: real)
    ensures Near(0.0 + g, g, 1)
  {
    TimesUnits(g);
    hide Times;
  }

  lemma SampledInv(c: Calibration, gyro: Vec)
    requires CalibrationInv(c) && c.outliers < MAX_OUTLIERS
    ensures CalibrationInv(Sampled(c, gyro)) && Sampled(c, gyro).outliers < MAX_OUTLIERS
    ensures Sampled(c, gyro).count <= c.count + 1 && Sampled(c, gyro).forArm == c.forArm
    ensures c.count == 0 ==> Sampled(c, gyro).count == 1
  {
    hide Near, Times;
    NearFirst(gyro.x);
    NearFirst(gyro.y);
    NearFirst(gyro.z);
    if c.count > 0 && Stationary(c, gyro) {
      NearStep(c.sum.x, c.reference.x, c.count, gyro.x);
      NearStep(c.sum.y, c.reference.y, c.count, gyro.y);
      NearStep(c.sum.z, c.reference.z, c.count, gyro.z);
    }
  }

  lemma CalibrateInv(s: State, i: Frame)
    requires Inv(s) && !s.calibrated && !s.guard.blocked
    ensures Inv(Calibrate(s, i))
  {
    hide Throttle, Near;
    var c0 := s.calibration;
    var c1 := if c0.forArm && !ReadyToArm(i) then Restarted(c0).(forArm := false) else c0;
    SampledInv(c1, i.gyro);
    SampledInv(c1.(failed := true), i.gyro);
  }

  lemma FlownCalm(s: State, i: Frame)
    requires Inv(s)
    ensures Calm(Flown(s, i)) && Flown(s, i).airmode == Airmode(s, i)
  {
    AxesValid(s, i);
    var a := AxesOf(s, i);
    assert a.roll.integralEnabled == Airmode(s, i) && a.pitch.integralEnabled == Airmode(s, i) &&
           a.yaw.integralEnabled == Airmode(s, i);
    hide AxesOf, P.Next, Mixer.Scale, Steered, Throttle;
    P.Bounded(s.controller.roll, a.roll);
    P.Bounded(s.controller.pitch, a.pitch);
    P.Bounded(s.controller.yaw, a.yaw);
  }

  lemma UpdateInv(s: State, i: Frame)
    requires Inv(s)
    ensures Inv(Update(s, i).state)
  {
    hide Calibrate, Flown, Motors, Throttle, CalibrationInv;
    assert CalibrationInv(Calibration(true, 0, 0, i.now, false, NULL, NULL, NULL)) by { ZeroCalibration(true, i.now); }
    var u := s.(guard := Guarded(s.guard, i.valid, ArmSwitch(i)));
    if u.guard.blocked {
    } else if !u.calibrated {
      CalibrateInv(u, i);
    } else if u.armed && ArmSwitch(i) {
      FlownCalm(u, i);
    }
  }

  lemma ZeroCalibration(forArm: bool, now: nat)
    ensures CalibrationInv(Calibration(forArm, 0, 0, now, false, NULL, NULL, NULL))
  {}

  lemma StepInv(s: State, e: Event)
    requires Inv(s)
    ensures Inv(Step(s, e))
  {
    hide Update, CalibrationInv;
    match e {
      case Updated(i) => UpdateInv(s, i);
      case Calibrated(now) => ZeroCalibration(false, now);
      case _ =>
    }
  }

  function Run(s: State, events: seq<Event>): (r: State)
    requires Inv(s)
    ensures Inv(r)
    decreases |events|
  {
    if events == [] then s
    else
      var n := |events| - 1;
      StepInv(Run(s, events[..n]), events[n]);
      Step(Run(s, events[..n]), events[n])
  }

  lemma InitInv(config: Config, now: nat)
    requires config.Valid()
    ensures Inv(Init(config, now))
  {
    ZeroCalibration(false, now);
  }

  // ------------------------------------------------- arming

  /** The unbroken stretch of updates, up to now, with a valid link, the switch on and the
      throttle low; a new calibration request breaks it. */
  function Stretch(events: seq<Event>): nat
    decreases |events|
  {
    if events == [] then 0
    else
      var n := |events| - 1;
      match events[n]
      case Updated(i) => if ReadyToArm(i) then 1 + Stretch(events[..n]) else 0
      case Calibrated(_) => 0
      case _ => Stretch(events[..n])
  }

  lemma {:induction false} StretchCovers(config: Config, now: nat, events: seq<Event>)
    requires config.Valid()
    ensures Inv(Init(config, now))
    ensures var s := Run(Init(config, now), events);
      s.calibration.forArm && !s.calibrated ==> s.calibration.count + 1 <= Stretch(events)
    decreases |events|
  {
    InitInv(config, now);
    if events != [] {
      var n := |events| - 1;
      StretchCovers(config, now, events[..n]);
      StretchStep(Run(Init(config, now), events[..n]), events[n], Stretch(events[..n]));
    }
  }

  lemma StretchStep(s: State, e: Event, stretch: nat)
    requires Inv(s) && (s.calibration.forArm && !s.calibrated ==> s.calibration.count + 1 <= stretch)
    ensures var u := Step(s, e);
      var next := match e
        case Updated(i) => if ReadyToArm(i) then 1 + stretch else 0
        case Calibrated(_) => 0
        case _ => stretch;
      && (u.calibration.forArm && !u.calibrated ==> u.calibration.count + 1 <= next)
      && (u.armed && !s.armed ==> CALIBRATION_SAMPLES + 1 <= next)
  {
    hide Throttle, Flown, Motors, Calm, CalibrationInv;
    if e.Updated? && !s.calibrated {
      var c := s.calibration;
      SampledCount(c, e.i.gyro);
      SampledCount(c.(failed := true), e.i.gyro);
      SampledCount(Restarted(c).(forArm := false), e.i.gyro);
      SampledCount(Restarted(c).(forArm := false, failed := true), e.i.gyro);
    }
  }

  lemma SampledCount(c: Calibration, gyro: Vec)
    ensures Sampled(c, gyro).count <= c.count + 1 && Sampled(c, gyro).forArm == c.forArm
  {}

  /** The craft arms only at the end of an unbroken stretch of more than 8000 updates with a
      valid link, the switch on and the throttle at most 5 %. */
  lemma ArmsOnlyAfterStretch(config: Config, now: nat, events: seq<Event>)
    requires config.Valid() && events != []
    ensures Inv(Init(config, now))
    ensures Run(Init(config, now), events).armed && !Run(Init(config, now), events[..|events| - 1]).armed ==>
      CALIBRATION_SAMPLES < Stretch(events)
  {
    hide Inv, Step;
    var n := |events| - 1;
    InitInv(config, now);
    StretchCovers(config, now, events[..n]);
    StretchStep(Run(Init(config, now), events[..n]), events[n], Stretch(events[..n]));
  }

  // ------------------------------------------------- the boot interlock

  /** Event `k` is the first valid frame. */
  predicate FirstFrame(events: seq<Event>, k: nat) {
    k < |events| && events[k].Updated? && events[k].i.valid &&
    forall j :: 0 <= j < k && events[j].Updated? ==> !events[j].i.valid
  }

  lemma {:induction false} GuardDecides(s: State, events: seq<Event>)
    requires Inv(s) && !s.guard.checked
    ensures var g := Run(s, events).guard;
      && (g.checked <==> exists k: nat :: FirstFrame(events, k))
      && (g.blocked <==> exists k: nat :: FirstFrame(events, k) && ArmSwitch(events[k].i))
    decreases |events|
  {
    hide Inv, Step, ArmSwitch;
    InvGuard(s);
    if events != [] {
      var n := |events| - 1;
      var front := events[..n];
      GuardDecides(s, front);
      InvBlocked(Run(s, front));
      StepGuard(Run(s, front), events[n]);
      forall k: nat | FirstFrame(front, k) ensures FirstFrame(events, k) {}
      forall k: nat | FirstFrame(events, k) && k < n ensures FirstFrame(front, k) {}
      if !Run(s, front).guard.checked && events[n].Updated? && events[n].i.valid {
        NoFrame(front);
        assert FirstFrame(events, n);
      }
    }
  }

  lemma InvGuard(s: State)
    requires Inv(s) && !s.guard.checked
    ensures !s.guard.blocked
  {}

  lemma {:induction false} NoFrame(events: seq<Event>)
    requires forall k: nat :: !FirstFrame(events, k)
    ensures forall j :: 0 <= j < |events| && events[j].Updated? ==> !events[j].i.valid
    decreases |events|
  {
    if events != [] {
      var n := |events| - 1;
      forall k: nat ensures !FirstFrame(events[..n], k) { assert !FirstFrame(events, k); }
      NoFrame(events[..n]);
      assert !FirstFrame(events, n);
    }
  }

  lemma StepGuard(s: State, e: Event)
    requires s.config.Valid()
    ensures Step(s, e).guard == if e.Updated? then Guarded(s.guard, e.i.valid, ArmSwitch(e.i)) else s.guard
  {
    hide Calibrate, Flown, Motors, Throttle;
    if e.Updated? { CalibrateGuard(s.(guard := Guarded(s.guard, e.i.valid, ArmSwitch(e.i))), e.i); }
  }

  lemma CalibrateGuard(s: State, i: Frame)
    ensures Calibrate(s, i).guard == s.guard
  {
    hide Sampled, ReadyToArm, ArmSwitch;
  }

  /** Once the interlock blocks, nothing arms the craft. */
  lemma {:induction false} BlockedForever(s: State, events: seq<Event>)
    requires Inv(s) && s.guard.blocked
    ensures Run(s, events).guard == s.guard && !Run(s, events).armed
    decreases |events|
  {
    hide Inv, Step;
    InvBlocked(s);
    if events != [] {
      var n := |events| - 1;
      BlockedForever(s, events[..n]);
      InvBlocked(Run(s, events[..n]));
      StepGuard(Run(s, events[..n]), events[n]);
      InvBlocked(Run(s, events));
    }
  }

  lemma InvBlocked(s: State)
    requires Inv(s)
    ensures s.config.Valid() && (s.guard.blocked ==> s.guard.checked && !s.armed)
  {}

  // ------------------------------------------------- what the motors get

  /** An update that leaves the craft disarmed outputs four zeros. */
  lemma DisarmedIsStopped(s: State, i: Frame)
    requires Inv(s) && !Update(s, i).state.armed
    ensures Update(s, i).motors == STOPPED
  {
    hide Calibrate, Flown, Motors, Throttle;
  }

  lemma SteeredBalanced(s: State, i: Frame)
    requires s.config.Valid()
    ensures Mixer.Balanced(Steered(s, i))
  {
    AxesValid(s, i);
    hide AxesOf, P.Output, Throttle, Times;
    var a := AxesOf(s, i);
    var yaw := P.Output(s.controller.yaw, a.yaw);
    CorrectionsBalanced(P.Output(s.controller.roll, a.roll), P.Output(s.controller.pitch, a.pitch),
                        if s.config.reversed then -yaw else yaw, Authority(s, i));
  }

  lemma CorrectionsBalanced(roll: real, pitch: real, yaw: real, authority: real)
    ensures Mixer.Balanced(Corrections(roll, pitch, yaw, authority))
  {
    hide Times;
    TimesSum(-roll - pitch - yaw, -roll + pitch + yaw, authority);
    TimesSum(roll - pitch + yaw, roll + pitch - yaw, authority);
    TimesSum(-2.0 * roll, 2.0 * roll, authority);
    TimesUnits(authority);
  }

  /** Flying, every motor is between idle and full power, and their mean is the mixer's base. */
  lemma FlyingMotors(s: State, i: Frame)
    requires Inv(s)
    ensures var c, t, air := Steered(s, i), Throttle(i), Airmode(s, i);
      && Mixer.Balanced(c) && 0.0 <= t <= 100.0
      && (forall m: nat :: m < 4 ==> s.config.idle <= Percent(s, i, m) <= 100.0)
      && Percent(s, i, 0) + Percent(s, i, 1) + Percent(s, i, 2) + Percent(s, i, 3) ==
           4.0 * Mixer.Base(c, t, s.config.idle, air)
  {
    SteeredBalanced(s, i);
    var c, t, air, idle := Steered(s, i), Throttle(i), Airmode(s, i), s.config.idle;
    var b, k := Mixer.Base(c, t, idle, air), Mixer.Scale(c, t, idle, air);
    hide Steered, Mixer.Base, Mixer.Scale, Times, Airmode;
    if air { Mixer.AirOptimal(c, t, idle); } else { Mixer.GroundOptimal(c, t, idle); }
    Mixer.InRange(c, b, k, idle);
    Mixer.SumIsBase(c, b, k);
  }

  lemma DshotInRange(percent: real, idle: real)
    requires 1.0 <= idle <= percent <= 100.0
    ensures 67 <= Dshot(idle) <= Dshot(percent) <= 2047
  {
    assert idle * 1999.0 / 100.0 <= percent * 1999.0 / 100.0;
  }

  // ------------------------------------------------- the integral and airmode

  /** The motors turn exactly if the craft was armed and the switch is still on over a valid link,
      and exactly then an armed craft stays armed. */
  lemma MotorsTurn(s: State, i: Frame)
    requires Inv(s)
    ensures Update(s, i).motors != STOPPED <==> s.armed && ArmSwitch(i)
    ensures s.armed ==> (Update(s, i).state.armed <==> ArmSwitch(i))
    ensures Update(s, i).state.armed ==> i.valid && ArmSwitch(i)
  {
    if s.armed && ArmSwitch(i) {
      var u := s.(guard := Guarded(s.guard, i.valid, ArmSwitch(i)));
      FlyingMotors(u, i);
      DshotInRange(Percent(u, i, 0), s.config.idle);
    }
    hide Flown, Percent, Calm, CalibrationInv, Throttle, Sampled;
  }

  /** On every run: no integral before airmode has latched, and never beyond 30. */
  lemma IntegralQuiet(config: Config, now: nat, events: seq<Event>)
    requires config.Valid()
    ensures Inv(Init(config, now)) && Calm(Run(Init(config, now), events).controller)
    ensures var s := Run(Init(config, now), events);
      (s.controller.airmode ==> s.armed) && (s.armed ==> s.calibrated && !s.guard.blocked)
  {
    InitInv(config, now);
    var s := Run(Init(config, now), events);
    assert Inv(s);
    hide Run;
  }

  /** Airmode stays on as long as the craft stays armed. */
  lemma AirmodeLatched(s: State, e: Event)
    requires Inv(s) && s.controller.airmode && Step(s, e).armed
    ensures Step(s, e).controller.airmode
  {
    hide Calibrate, Motors, Throttle, CalibrationInv, Calm;
  }

  // ------------------------------------------------- the gyro bias

  /** A finished calibration's bias is within 3 degrees per second of its first sample. */
  lemma BiasNearReference(s: State, i: Frame)
    requires Inv(s) && !s.calibrated && Calibrate(s, i).calibrated
    ensures var c := Calibrate(s, i).calibration;
      c.count == CALIBRATION_SAMPLES && Abs(c.bias.x - c.reference.x) <= 3.0 &&
      Abs(c.bias.y - c.reference.y) <= 3.0 && Abs(c.bias.z - c.reference.z) <= 3.0
  {
    var c0 := s.calibration;
    var c1 := if c0.forArm && !ReadyToArm(i) then Restarted(c0).(forArm := false) else c0;
    SampledInv(c1, i.gyro);
    SampledInv(c1.(failed := true), i.gyro);
    var c := Calibrate(s, i).calibration;
    hide Throttle, Times, Over;
    MeanNear(c.sum.x, c.reference.x);
    MeanNear(c.sum.y, c.reference.y);
    MeanNear(c.sum.z, c.reference.z);
  }

  lemma MeanNear(sum: real, reference: real)
    ensures Near(sum, reference, CALIBRATION_SAMPLES) ==> Abs(Over(sum, 8000.0) - reference) <= 3.0
  {
    assert Times(reference, 8000.0) == 8000.0 * reference;
  }

  // ------------------------------------------------- the emergency stop

  /** In no update is the arm switch off or the link lost. */
  predicate SwitchHeld(events: seq<Event>) {
    forall k :: 0 <= k < |events| && events[k].Updated? ==> ArmSwitch(events[k].i)
  }

  predicate Disarmed(s: State) { !s.armed && !s.calibration.forArm && !s.switchWasLow }

  lemma {:induction false} StaysDisarmed(s: State, events: seq<Event>)
    requires Inv(s) && Disarmed(s) && SwitchHeld(events)
    ensures Disarmed(Run(s, events))
    decreases |events|
  {
    hide Inv;
    if events != [] {
      var n := |events| - 1;
      StaysDisarmed(s, events[..n]);
      InvBlocked(Run(s, events[..n]));
      HeldStep(Run(s, events[..n]), events[n]);
    }
  }

  lemma HeldStep(s: State, e: Event)
    requires s.config.Valid() && Disarmed(s) && (e.Updated? ==> ArmSwitch(e.i))
    ensures Disarmed(Step(s, e))
  {
    hide Throttle, Flown, Motors, Sampled;
  }

  /** A still craft, the link valid, the switch on, the throttle down. */
  const STEADY: Frame := Input(true, seq(16, _ => 1000), NULL, 0.0001, 0, Settings(true, 4, 1000, 1000, 1.0, 1.0, 0.0))

  function Copies(n: nat): (events: seq<Event>)
    ensures SwitchHeld(events)
  {
    SteadyReady();
    seq(n, _ => Updated(STEADY))
  }

  lemma SteadyReady()
    ensures ReadyToArm(STEADY)
  {}

  /** A calibration for arming is running. */
  predicate Arming(s: State) { s.calibration.forArm && !s.calibrated }

  lemma SteadyStep(s: State)
    requires Inv(s) && Arming(s)
    ensures var c := s.calibration; var u := Step(s, Updated(STEADY));
      if c.count == 0 || Stationary(c, NULL) then
        if c.count + 1 == CALIBRATION_SAMPLES then u.armed
        else Arming(u) && u.calibration.count == c.count + 1 && Stationary(u.calibration, NULL)
      else if c.outliers + 1 == MAX_OUTLIERS then Arming(u) && u.calibration.count == 0
      else Arming(u) && u.calibration.count == c.count && u.calibration.outliers == c.outliers + 1 &&
           u.calibration.reference == c.reference
  {
    SteadyReady();
    hide Flown, Motors, CalibrationInv, Calm, ReadyToArm;
  }

  lemma {:induction false} SteadyArms(s: State, n: nat)
    requires Inv(s) && Arming(s) && (s.calibration.count == 0 || Stationary(s.calibration, NULL))
    requires s.calibration.count + n <= CALIBRATION_SAMPLES
    ensures var u := Run(s, Copies(n));
      if s.calibration.count + n == CALIBRATION_SAMPLES then u.armed
      else Arming(u) && u.calibration.count == s.calibration.count + n &&
           (u.calibration.count == 0 || Stationary(u.calibration, NULL))
    decreases n
  {
    hide Step, Stationary;
    if n == 0 {
      InvCount(s);
    } else {
      assert Copies(n)[..n - 1] == Copies(n - 1);
      InvCount(s);
      SteadyArms(s, n - 1);
      SteadyStep(Run(s, Copies(n - 1)));
    }
  }

  lemma InvCount(s: State)
    requires Inv(s) && !s.calibrated
    ensures s.calibration.count < CALIBRATION_SAMPLES && s.calibration.outliers < MAX_OUTLIERS
  {}

  lemma {:induction false} SteadyRestarts(s: State, n: nat)
    requires Inv(s) && Arming(s) && s.calibration.count > 0 && !Stationary(s.calibration, NULL)
    requires s.calibration.outliers + n <= MAX_OUTLIERS
    ensures var u := Run(s, Copies(n));
      Arming(u) &&
      if s.calibration.outliers + n == MAX_OUTLIERS then u.calibration.count == 0
      else u.calibration.count == s.calibration.count && u.calibration.reference == s.calibration.reference &&
           u.calibration.outliers == s.calibration.outliers + n
    decreases n
  {
    hide Step;
    InvCount(s);
    if n > 0 {
      assert Copies(n)[..n - 1] == Copies(n - 1);
      SteadyRestarts(s, n - 1);
      SteadyStep(Run(s, Copies(n - 1)));
    }
  }

  lemma {:induction false} RunConcat(s: State, a: seq<Event>, c: seq<Event>)
    requires Inv(s)
    ensures Run(s, a + c) == Run(Run(s, a), c)
    decreases |c|
  {
    hide Inv, Step;
    if c == [] {
      assert a + c == a;
    } else {
      var n := |c| - 1;
      assert (a + c)[..|a| + n] == a + c[..n];
      RunConcat(s, a, c[..n]);
    }
  }

  lemma CanArm(s: State) returns (events: seq<Event>)
    requires Inv(s) && Arming(s)
    ensures SwitchHeld(events) && Run(s, events).armed
  {
    hide Inv, Run, Stationary, Step;
    var c := s.calibration;
    InvCount(s);
    if c.count == 0 || Stationary(c, NULL) {
      events := Copies(CALIBRATION_SAMPLES - c.count);
      SteadyArms(s, CALIBRATION_SAMPLES - c.count);
    } else {
      var first, then' := Copies(MAX_OUTLIERS - c.outliers), Copies(CALIBRATION_SAMPLES);
      SteadyRestarts(s, MAX_OUTLIERS - c.outliers);
      SteadyArms(Run(s, first), CALIBRATION_SAMPLES);
      RunConcat(s, first, then');
      events := first + then';
    }
  }

  /** After an emergency stop the craft cannot arm again before the switch was off, exactly if
      the stop did not come during the calibration that precedes arming. */
  lemma EmergencyStopForcesCycle(s: State)
    requires Inv(s)
    ensures Inv(EmergencyStop(s))
    ensures (forall events :: SwitchHeld(events) ==> !Run(EmergencyStop(s), events).armed) <==>
            !s.calibration.forArm
  {
    StepInv(s, EmergencyStopped);
    var stopped := EmergencyStop(s);
    if s.calibration.forArm {
      var events := CanArm(stopped);
      assert SwitchHeld(events) && Run(stopped, events).armed;
    } else {
      forall events | SwitchHeld(events) ensures !Run(stopped, events).armed { StaysDisarmed(stopped, events); }
    }
  }

  // ------------------------------------------------- such a calibration is reached

  /** A still craft, the link valid, the switch off. */
  const QUIET: Frame := Input(true, seq(16, _ => 1000), NULL, 0.0001, 0, Settings(true, 4, 2000, 2000, 1.0, 1.0, 0.0))

  function Quiets(n: nat): seq<Event> { seq(n, _ => Updated(QUIET)) }

  predicate Booting(s: State, n: nat) {
    !s.calibrated && !s.calibration.forArm && !s.guard.blocked && s.calibration.count == n &&
    (n == 0 || Stationary(s.calibration, NULL))
  }

  predicate Booted(s: State) { s.calibrated && !s.armed && !s.guard.blocked }

  lemma QuietStep(s: State)
    requires Inv(s) && !s.guard.blocked
    ensures var u := Step(s, Updated(QUIET));
      && u.guard.checked && !u.guard.blocked
      && (Booting(s, s.calibration.count) ==>
            if s.calibration.count + 1 == CALIBRATION_SAMPLES then Booted(u) else Booting(u, s.calibration.count + 1))
      && (Booted(s) ==> Booted(u) && u.switchWasLow)
  {
    assert !ArmSwitch(QUIET);
    hide Flown, Motors, CalibrationInv, Calm, ReadyToArm, Throttle;
  }

  lemma {:induction false} QuietBoots(config: Config, now: nat, n: nat)
    requires config.Valid() && n <= CALIBRATION_SAMPLES
    ensures Inv(Init(config, now))
    ensures var u := Run(Init(config, now), Quiets(n)); if n == CALIBRATION_SAMPLES then Booted(u) else Booting(u, n)
    decreases n
  {
    InitInv(config, now);
    hide Step, Stationary, Inv;
    if n > 0 {
      assert Quiets(n)[..n - 1] == Quiets(n - 1);
      QuietBoots(config, now, n - 1);
      QuietStep(Run(Init(config, now), Quiets(n - 1)));
    }
  }

  /** From start-up some run comes to a calibration for arming, so that the exception in
      EmergencyStopForcesCycle is a real one. */
  lemma ReachesArming(config: Config, now: nat) returns (events: seq<Event>)
    requires config.Valid()
    ensures Inv(Init(config, now)) && Arming(Run(Init(config, now), events))
  {
    var n := CALIBRATION_SAMPLES;
    QuietBoots(config, now, n);
    hide Step, Inv;
    var s := Init(config, now);
    assert Quiets(n + 1)[..n] == Quiets(n);
    QuietStep(Run(s, Quiets(n)));
    var low := Run(s, Quiets(n + 1));
    SwitchStep(low);
    events := Quiets(n + 1) + [Updated(STEADY)];
    assert events[..n + 1] == Quiets(n + 1);
  }

  lemma SwitchStep(s: State)
    requires Inv(s) && Booted(s) && s.switchWasLow && s.guard.checked
    ensures Arming(Step(s, Updated(STEADY)))
  {
    SteadyReady();
    hide Flown, Motors, CalibrationInv, Calm;
  }
}
