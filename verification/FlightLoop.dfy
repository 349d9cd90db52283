/**
 The static variables of src/control/flight_control.c updated in place, with the three
 axis controllers as objects, against the specification in FlightControl.
 */
module FlightLoop {
  import opened Bytes
  import opened RealArithmetic
  import P = PidLoop
  import Mixer
  import F = FlightControl

  class Loop {
    var guard: F.Guard
    var calibration: F.Calibration
    var calibrated: bool
    var armed: bool
    var switchWasLow: bool
    var config: F.Config
    var gyroX: F.Pt1
    var gyroY: F.Pt1
    var gyroZ: F.Pt1
    var saturated: bool
    var airmode: bool
    const roll: P.Axis
    const pitch: P.Axis
    const yaw: P.Axis
    const motors: array<nat>

    /** flight_control_init */
    constructor (c: F.Config, now: nat)
      requires c.Valid()
      ensures Valid() && Value() == F.Init(c, now) && motors[..] == F.STOPPED
      ensures fresh(roll) && fresh(pitch) && fresh(yaw) && fresh(motors)
    {
      guard := F.Guard(false, false);
      calibration := F.Calibration(false, 0, 0, now, false, F.NULL, F.NULL, F.NULL);
      calibrated, armed, switchWasLow, config := false, false, false, c;
      gyroX, gyroY, gyroZ := F.UNFILTERED, F.UNFILTERED, F.UNFILTERED;
      saturated, airmode := false, false;
      roll := new P.Axis();
      pitch := new P.Axis();
      yaw := new P.Axis();
      motors := new nat[4](_ => 0);
      new;
      F.InitInv(c, now);
    }

    ghost predicate Valid()
      reads this, roll, pitch, yaw
    {
      motors.Length == 4 && roll != pitch && roll != yaw && pitch != yaw && F.Inv(Value())
    }

    function Control(): F.Controller
      reads this, roll, pitch, yaw
    {
      F.Controller(roll.Value(), pitch.Value(), yaw.Value(), gyroX, gyroY, gyroZ, saturated, airmode)
    }

    function Value(): F.State
      reads this, roll, pitch, yaw
    {
      F.State(guard, calibration, Control(), calibrated, armed, switchWasLow, config)
    }

    /** reset_controller */
    method ResetController()
      requires roll != pitch && roll != yaw && pitch != yaw
      modifies `gyroX, `gyroY, `gyroZ, `saturated, `airmode, roll, pitch, yaw
      ensures Control() == F.RESET
    {
      roll.Reset();
      pitch.Reset();
      yaw.Reset();
      gyroX, gyroY, gyroZ := F.UNFILTERED, F.UNFILTERED, F.UNFILTERED;
      saturated, airmode := false, false;
    }

    /** begin_calibration */
    method BeginCalibration(forArm: bool, now: nat)
      requires roll != pitch && roll != yaw && pitch != yaw
      modifies this, roll, pitch, yaw
      ensures Value() == F.BeginCalibration(old(Value()), forArm, now)
    {
      calibrated, armed := false, false;
      calibration := F.Calibration(forArm, 0, 0, now, false, F.NULL, F.NULL, F.NULL);
      ResetController();
    }

    /** The part of flight_control_update that runs while the gyro is not calibrated. */
    method Calibrate(i: F.Frame)
      requires roll != pitch && roll != yaw && pitch != yaw
      modifies this, roll, pitch, yaw
      ensures Value() == F.Calibrate(old(Value()), i)
    {
      hide F.Throttle, Over;
      armed := false;
      if calibration.forArm && !F.ReadyToArm(i) {
        calibration := calibration.(forArm := false, count := 0, outliers := 0, sum := F.NULL);
      }
      if Sub32(i.now, calibration.startedUs) >= F.CALIBRATION_TIMEOUT_US {
        calibration := calibration.(failed := true);
      }
      if calibration.forArm || !F.ArmSwitch(i) {
        var first := calibration.count == 0;
        calibration := F.Sampled(calibration, i.gyro);
        if !first && calibration.count >= F.CALIBRATION_SAMPLES {
          calibration := calibration.(bias := calibration.sum.Mean(calibration.count), failed := false);
          calibrated := true;
          if calibration.forArm {
            calibration := calibration.(forArm := false);
            armed := true;
            ResetController();
          }
        }
      }
    }

    /** The three loops. */
    method Steer(a: F.Axes) returns (r: real, p: real, y: real)
      requires roll != pitch && roll != yaw && pitch != yaw && a.roll.Valid() && a.pitch.Valid() && a.yaw.Valid()
      modifies roll, pitch, yaw
      ensures roll.Value() == P.Next(old(roll.Value()), a.roll) && r == P.Output(old(roll.Value()), a.roll)
      ensures pitch.Value() == P.Next(old(pitch.Value()), a.pitch) && p == P.Output(old(pitch.Value()), a.pitch)
      ensures yaw.Value() == P.Next(old(yaw.Value()), a.yaw) && y == P.Output(old(yaw.Value()), a.yaw)
    {
      hide P.Next, P.Output;
      r := roll.Run(a.roll);
      p := pitch.Run(a.pitch);
      y := yaw.Run(a.yaw);
    }

    /** The mixer's percentages become DSHOT values. */
    method Drive(outputs: seq<real>)
      requires |outputs| == 4 && motors.Length == 4
      modifies motors
      ensures motors[..] == [F.Dshot(outputs[0]), F.Dshot(outputs[1]), F.Dshot(outputs[2]), F.Dshot(outputs[3])]
    {
      hide F.Dshot;
      var m := 0;
      while m < 4
        invariant 0 <= m <= 4
        invariant forall j :: 0 <= j < m ==> motors[j] == F.Dshot(outputs[j])
      {
        motors[m] := F.Dshot(outputs[m]);
        m := m + 1;
      }
    }

    /** The loops, the mixer and the motors. */
    method Fly(i: F.Frame)
      requires Valid()
      modifies `gyroX, `gyroY, `gyroZ, `saturated, `airmode, roll, pitch, yaw, motors
      ensures Control() == F.Flown(old(Value()), i)
      ensures motors[..] == F.Motors(old(Value()), i)
    {
      hide F.AxesOf, P.Next, P.Output, F.Throttle, Times, Over, F.Dshot, Mixer.Base, Mixer.Scale, F.Corrections, F.Inv,
           P.Axis.Value, Mixer.Lowest, Mixer.Highest, Mixer.Balanced, F.Airmode, F.Authority;
      ghost var s := Value();
      IdleRange(s);
      F.AxesValid(s, i);
      F.SteeredBalanced(s, i);
      ThrottleRange(i);
      var throttle, air, authority := F.Throttle(i), F.Airmode(Value(), i), F.Authority(Value(), i);
      var a := F.AxesOf(Value(), i);
      var r, p, y := Steer(a);
      var correction := F.Corrections(r, p, if config.reversed then -y else y, authority);
      var base, scale, outputs := Mixer.Mix(correction, throttle, config.idle, air);
      Drive(outputs);
      gyroX, gyroY, gyroZ, airmode, saturated := a.x, a.y, a.z, air, scale < 0.999;
    }

    /** flight_control_update */
    method Update(i: F.Frame)
      requires Valid()
      modifies this, roll, pitch, yaw, motors
      ensures Valid() && Value() == F.Update(old(Value()), i).state && motors[..] == F.Update(old(Value()), i).motors
    {
      hide F.Inv, F.Flown, F.Motors, F.Calibrate, F.Throttle, F.BeginCalibration, F.ArmSwitch, P.Axis.Value;
      F.UpdateInv(Value(), i);
      motors[0], motors[1], motors[2], motors[3] := 0, 0, 0, 0;
      assert motors[..] == F.STOPPED;
      var armSwitch := F.ArmSwitch(i);
      if !guard.checked && i.valid {
        guard := F.Guard(true, armSwitch);
      }
      if guard.blocked {
        armed := false;
        ResetController();
        return;
      }
      if !calibrated {
        Calibrate(i);
        return;
      }
      if !armSwitch {
        switchWasLow, armed := true, false;
        ResetController();
        return;
      }
      if !armed {
        if !switchWasLow || F.Throttle(i) > 5.0 { return; }
        BeginCalibration(true, i.now);
        return;
      }
      Fly(i);
    }
  }

  lemma ThrottleRange(i: F.Frame)
    ensures 0.0 <= F.Throttle(i) <= 100.0
  {}

  lemma IdleRange(s: F.State)
    requires F.Inv(s)
    ensures 0.0 <= s.config.idle < 100.0 && s.config.Valid()
  {}
}
