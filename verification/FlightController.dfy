// components/flight_controller/flight_controller.c

module FlightControl {
  import opened Config
  import opened Machine
  import opened Globals
  import opened Clock
  import opened PidLaw
  import opened MotorMix
  import opened EscDriver
  import opened GamepadCallbacks

  /** The static variables of the flight controller, and the ESC driver it writes to. */
  datatype Flight = Flight(pitch: Pid, roll: Pid, yaw: Pid, lastUpdate: uint32, esc: Esc)

  function ResetIntegrals(f: Flight): Flight {
    f.(pitch := PidLaw.Reset(f.pitch), roll := PidLaw.Reset(f.roll), yaw := PidLaw.Reset(f.yaw))
  }

  function KillMotors(f: Flight): Flight { ResetIntegrals(f).(esc := WriteAll(f.esc, ARM_US)) }

  function Outputs(f: Flight, sp: Setpoint, att: Attitude, dt: real): (real, real, real) {
    (Stepped(f.pitch, sp.pitch, att.pitch, dt).1,
     Stepped(f.roll, sp.roll, att.roll, dt).1,
     Stepped(f.yaw, sp.yaw, att.yawRate, dt).1)
  }

  function Controlled(f: Flight, sp: Setpoint, att: Attitude, dt: real): Flight {
    var (pitch, roll, yaw) := Outputs(f, sp, att, dt);
    var m := Mix(sp.throttle, pitch, roll, yaw);
    f.(pitch := Stepped(f.pitch, sp.pitch, att.pitch, dt).0,
       roll := Stepped(f.roll, sp.roll, att.roll, dt).0,
       yaw := Stepped(f.yaw, sp.yaw, att.yawRate, dt).0,
       esc := Write(f.esc, [m.fl, m.fr, m.rl, m.rr]))
  }

  /** flight_controller_update: the clock is read and remembered even when the motors are then killed. */
  function FlightUpdated(f: Flight, sp: Setpoint, att: Attitude, now: uint32): Flight {
    var g := f.(lastUpdate := now);
    if sp.throttle <= SPIN_US then KillMotors(g)
    else Controlled(g, sp, att, GuardedDt(now, f.lastUpdate))
  }

  predicate FlightOk(f: Flight) {
    Configured(f.pitch) && Configured(f.roll) && Configured(f.yaw) && Coherent(f.esc)
  }

  lemma KillMotorsArms(f: Flight)
    requires FlightOk(f)
    ensures FlightOk(KillMotors(f)) && AllArmed(KillMotors(f).esc)
  {
    WriteReachesPins(f.esc, [ARM_US, ARM_US, ARM_US, ARM_US]);
  }

  lemma OutputsLimited(f: Flight, sp: Setpoint, att: Attitude, dt: real)
    requires FlightOk(f)
    ensures var (pitch, roll, yaw) := Outputs(f, sp, att, dt); Limited(pitch, roll, yaw)
  {
    StepKeepsConfigured(f.pitch, sp.pitch, att.pitch, dt);
    StepKeepsConfigured(f.roll, sp.roll, att.roll, dt);
    StepKeepsConfigured(f.yaw, sp.yaw, att.yawRate, dt);
  }

  lemma ControlledKeepsOk(f: Flight, sp: Setpoint, att: Attitude, dt: real)
    requires FlightOk(f)
    ensures FlightOk(Controlled(f, sp, att, dt))
    ensures var (pitch, roll, yaw) := Outputs(f, sp, att, dt);
            var m := Mix(sp.throttle, pitch, roll, yaw);
            Controlled(f, sp, att, dt).esc.pins
            == [UsToDuty(m.fl), UsToDuty(m.fr), UsToDuty(m.rl), UsToDuty(m.rr)]
  {
    StepKeepsConfigured(f.pitch, sp.pitch, att.pitch, dt);
    StepKeepsConfigured(f.roll, sp.roll, att.roll, dt);
    StepKeepsConfigured(f.yaw, sp.yaw, att.yawRate, dt);
    var (pitch, roll, yaw) := Outputs(f, sp, att, dt);
    var m := Mix(sp.throttle, pitch, roll, yaw);
    WriteReachesPins(f.esc, [m.fl, m.fr, m.rl, m.rr]);
  }

  /** Above the spin threshold some motor turns: the four demands average the throttle. */
  lemma SomeMotorSpins(f: Flight, sp: Setpoint, att: Attitude, dt: real)
    requires FlightOk(f) && sp.throttle > SPIN_US
    ensures !AllArmed(Controlled(f, sp, att, dt).esc)
  {
    ControlledKeepsOk(f, sp, att, dt);
    var (pitch, roll, yaw) := Outputs(f, sp, att, dt);
    MixSpinsOne(sp.throttle, pitch, roll, yaw);
    var m := Mix(sp.throttle, pitch, roll, yaw);
    if m.fl > ARM_US {
      DutyStrictlyMonotone(ARM_US, m.fl);
    } else if m.fr > ARM_US {
      DutyStrictlyMonotone(ARM_US, m.fr);
    } else if m.rl > ARM_US {
      DutyStrictlyMonotone(ARM_US, m.rl);
    } else {
      DutyStrictlyMonotone(ARM_US, m.rr);
    }
  }

  lemma MixSpinsOne(throttle: int, pitch: real, roll: real, yaw: real)
    requires throttle > SPIN_US
    ensures var m := Mix(throttle, pitch, roll, yaw);
            m.fl > ARM_US || m.fr > ARM_US || m.rl > ARM_US || m.rr > ARM_US
  {
    var d := Demanded(throttle, pitch, roll, yaw);
    assert d.fl + d.fr + d.rl + d.rr == 4.0 * throttle as real;
    assert d.fl > 1200.0 || d.fr > 1200.0 || d.rl > 1200.0 || d.rr > 1200.0;
  }

  // ----- Which controller drives which motors -----

  /** The pulses on the four pins, in the order front left, front right, rear left, rear right. */
  predicate PinsShow(e: Esc, fl: nat, fr: nat, rl: nat, rr: nat) {
    && PWM_MIN_US <= fl <= PWM_MAX_US && PWM_MIN_US <= fr <= PWM_MAX_US
    && PWM_MIN_US <= rl <= PWM_MAX_US && PWM_MIN_US <= rr <= PWM_MAX_US
    && e.pins == [UsToDuty(fl), UsToDuty(fr), UsToDuty(rl), UsToDuty(rr)]
  }

  /** No motor is asked for more or less than it can be given. */
  predicate WithinPulses(throttle: int, pitch: real, roll: real, yaw: real) {
    var t := throttle as real;
    && 1000.0 <= t + pitch + roll - yaw <= 1600.0 && 1000.0 <= t + pitch - roll + yaw <= 1600.0
    && 1000.0 <= t - pitch + roll + yaw <= 1600.0 && 1000.0 <= t - pitch - roll - yaw <= 1600.0
  }

  /**
   * Above the spin threshold, front against rear shows the step of the pitch controller, left against
   * right that of the roll controller, and one diagonal against the other that of the yaw controller,
   * each on its own setpoint and measurement, to less than 2 us; all four together show the throttle.
   */
  lemma MotorsShowControllers(f: Flight, sp: Setpoint, att: Attitude, now: uint32) returns (m: Motors)
    requires FlightOk(f) && sp.throttle > 1200
    ensures var g := FlightUpdated(f, sp, att, now);
            var dt := GuardedDt(now, f.lastUpdate);
            var (p, pitch) := Stepped(f.pitch, sp.pitch, att.pitch, dt);
            var (r, roll) := Stepped(f.roll, sp.roll, att.roll, dt);
            var (y, yaw) := Stepped(f.yaw, sp.yaw, att.yawRate, dt);
            && PinsShow(g.esc, m.fl, m.fr, m.rl, m.rr)
            && g.pitch == p && g.roll == r && g.yaw == y && g.lastUpdate == now
            && (WithinPulses(sp.throttle, pitch, roll, yaw) ==>
                  && 4 * sp.throttle - 4 < m.fl + m.fr + m.rl + m.rr <= 4 * sp.throttle
                  && Within(m.fl + m.fr - m.rl - m.rr, 4.0 * pitch, 2.0)
                  && Within(m.fl - m.fr + m.rl - m.rr, 4.0 * roll, 2.0)
                  && Within(m.fr + m.rl - m.fl - m.rr, 4.0 * yaw, 2.0))
  {
    var dt := GuardedDt(now, f.lastUpdate);
    var pitch := Stepped(f.pitch, sp.pitch, att.pitch, dt).1;
    var roll := Stepped(f.roll, sp.roll, att.roll, dt).1;
    var yaw := Stepped(f.yaw, sp.yaw, att.yawRate, dt).1;
    ControlledKeepsOk(f.(lastUpdate := now), sp, att, dt);
    m := Mix(sp.throttle, pitch, roll, yaw);
    if WithinPulses(sp.throttle, pitch, roll, yaw) {
      MixInverse(sp.throttle, pitch, roll, yaw);
    }
  }

  /** Whole pulses around a whole throttle tell the sign of any difference, however small. */
  lemma PairsTell(throttle: int, out: real)
    requires 1200 < throttle <= 1300 && -100.0 <= out <= 100.0
    ensures var high, low := ClampUs(throttle as real + out), ClampUs(throttle as real - out);
            (high > low <==> out > 0.0) && (high < low <==> out < 0.0)
  {
    if out > 0.0 {
      PairApart(throttle, out);
    } else if out < 0.0 {
      PairApart(throttle, -out);
      assert throttle as real - -out == throttle as real + out;
    }
  }

  lemma PairApart(throttle: int, out: real)
    requires 1200 < throttle <= 1300 && 0.0 < out <= 100.0
    ensures ClampUs(throttle as real + out) >= throttle > ClampUs(throttle as real - out)
  {
    var t := throttle as real;
    WholePart(t + out);
    WholePart(t - out);
  }

  lemma MixOfOne(throttle: int, out: real)
    ensures var high, low := ClampUs(throttle as real + out), ClampUs(throttle as real - out);
            && Mix(throttle, out, 0.0, 0.0) == Motors(high, high, low, low)
            && Mix(throttle, 0.0, out, 0.0) == Motors(high, low, high, low)
            && Mix(throttle, 0.0, 0.0, out) == Motors(low, high, high, low)
  {
    var t := throttle as real;
    assert Demanded(throttle, out, 0.0, 0.0) == Demand(t + out, t + out, t - out, t - out);
    assert Demanded(throttle, 0.0, out, 0.0) == Demand(t + out, t - out, t + out, t - out);
    assert Demanded(throttle, 0.0, 0.0, out) == Demand(t - out, t + out, t + out, t - out);
  }

  /** The pins after a control step whose three outputs are known. */
  lemma PinsOfOutputs(f: Flight, sp: Setpoint, att: Attitude, now: uint32, pitch: real, roll: real, yaw: real)
    requires FlightOk(f) && sp.throttle > 1200
    requires var dt := GuardedDt(now, f.lastUpdate);
             Outputs(f, sp, att, dt) == (pitch, roll, yaw)
    ensures var m := Mix(sp.throttle, pitch, roll, yaw);
            PinsShow(FlightUpdated(f, sp, att, now).esc, m.fl, m.fr, m.rl, m.rr)
  {
    var g := f.(lastUpdate := now);
    var dt := GuardedDt(now, f.lastUpdate);
    assert Outputs(g, sp, att, dt) == Outputs(f, sp, att, dt);
    ControlledKeepsOk(g, sp, att, dt);
  }

  /** What one controller does alone, seen from the mixer. */
  lemma OneOutput(p: Pid, setpoint: real, measurement: real, dt: real, throttle: int) returns (out: real)
    requires Responsive(p) && dt > 0.0 && 1200 < throttle <= 1300
    ensures out == Stepped(p, setpoint, measurement, dt).1
    ensures var high, low := ClampUs(throttle as real + out), ClampUs(throttle as real - out);
            (high > low <==> setpoint > measurement) && (high < low <==> setpoint < measurement)
  {
    out := Stepped(p, setpoint, measurement, dt).1;
    StepKeepsConfigured(p, setpoint, measurement, dt);
    OutputHasErrorSign(p, setpoint, measurement, dt);
    PairsTell(throttle, out);
  }

  /**
   * Pitch alone: with roll and yaw at rest, both front motors get one pulse and both rear motors one,
   * and the front is higher exactly when the setpoint is above the measured pitch.
   */
  lemma PitchAlone(f: Flight, sp: Setpoint, att: Attitude, now: uint32) returns (front: nat, rear: nat)
    requires FlightOk(f) && 1200 < sp.throttle <= 1300
    requires Responsive(f.pitch) && AtRest(f.roll, sp.roll, att.roll) && AtRest(f.yaw, sp.yaw, att.yawRate)
    ensures PinsShow(FlightUpdated(f, sp, att, now).esc, front, front, rear, rear)
    ensures (front > rear <==> sp.pitch > att.pitch) && (front < rear <==> sp.pitch < att.pitch)
  {
    var dt := GuardedDt(now, f.lastUpdate);
    RestIsSilent(f.roll, sp.roll, att.roll, dt);
    RestIsSilent(f.yaw, sp.yaw, att.yawRate, dt);
    var out := OneOutput(f.pitch, sp.pitch, att.pitch, dt, sp.throttle);
    PinsOfOutputs(f, sp, att, now, out, 0.0, 0.0);
    MixOfOne(sp.throttle, out);
    front, rear := ClampUs(sp.throttle as real + out), ClampUs(sp.throttle as real - out);
  }

  /** Roll alone: the same with the left pair against the right. */
  lemma RollAlone(f: Flight, sp: Setpoint, att: Attitude, now: uint32) returns (left: nat, right: nat)
    requires FlightOk(f) && 1200 < sp.throttle <= 1300
    requires Responsive(f.roll) && AtRest(f.pitch, sp.pitch, att.pitch) && AtRest(f.yaw, sp.yaw, att.yawRate)
    ensures PinsShow(FlightUpdated(f, sp, att, now).esc, left, right, left, right)
    ensures (left > right <==> sp.roll > att.roll) && (left < right <==> sp.roll < att.roll)
  {
    var dt := GuardedDt(now, f.lastUpdate);
    RestIsSilent(f.pitch, sp.pitch, att.pitch, dt);
    RestIsSilent(f.yaw, sp.yaw, att.yawRate, dt);
    var out := OneOutput(f.roll, sp.roll, att.roll, dt, sp.throttle);
    PinsOfOutputs(f, sp, att, now, 0.0, out, 0.0);
    MixOfOne(sp.throttle, out);
    left, right := ClampUs(sp.throttle as real + out), ClampUs(sp.throttle as real - out);
  }

  /** Yaw alone: front right and rear left against the other diagonal. */
  lemma YawAlone(f: Flight, sp: Setpoint, att: Attitude, now: uint32) returns (one: nat, other: nat)
    requires FlightOk(f) && 1200 < sp.throttle <= 1300
    requires Responsive(f.yaw) && AtRest(f.pitch, sp.pitch, att.pitch) && AtRest(f.roll, sp.roll, att.roll)
    ensures PinsShow(FlightUpdated(f, sp, att, now).esc, other, one, one, other)
    ensures (one > other <==> sp.yaw > att.yawRate) && (one < other <==> sp.yaw < att.yawRate)
  {
    var dt := GuardedDt(now, f.lastUpdate);
    RestIsSilent(f.pitch, sp.pitch, att.pitch, dt);
    RestIsSilent(f.roll, sp.roll, att.roll, dt);
    var out := OneOutput(f.yaw, sp.yaw, att.yawRate, dt, sp.throttle);
    PinsOfOutputs(f, sp, att, now, 0.0, 0.0, out);
    MixOfOne(sp.throttle, out);
    one, other := ClampUs(sp.throttle as real + out), ClampUs(sp.throttle as real - out);
  }

  /** Nothing is remembered across a cut-off. */
  predicate Forgotten(p: Pid) { p.integral == 0.0 && p.prevError == 0.0 }

  /** At or below the spin threshold the clock is read, the controllers forget, and the motors stop. */
  lemma LowThrottleRests(f: Flight, sp: Setpoint, att: Attitude, now: uint32)
    requires FlightOk(f) && sp.throttle <= 1200
    ensures var g := FlightUpdated(f, sp, att, now);
            && AllArmed(g.esc) && g.lastUpdate == now
            && Forgotten(g.pitch) && Forgotten(g.roll) && Forgotten(g.yaw)
            && SameGains(f, g)
  {
    KillMotorsArms(f.(lastUpdate := now));
  }

  predicate EqualGains(p: Pid, q: Pid) {
    p.kp == q.kp && p.ki == q.ki && p.kd == q.kd && p.outputLimit == q.outputLimit && p.integralLimit == q.integralLimit
  }

  predicate SameGains(f: Flight, g: Flight) {
    EqualGains(f.pitch, g.pitch) && EqualGains(f.roll, g.roll) && EqualGains(f.yaw, g.yaw)
  }

  class FlightController {
    const pidPitch: PidController
    const pidRoll: PidController
    const pidYaw: PidController
    const esc: EscPwm
    var lastUpdateUs: uint32

    ghost const Repr: set<object>

    ghost predicate Valid()
      reads this, Repr
    {
      && Repr == {this, pidPitch, pidRoll, pidYaw, esc, esc.lastUs, esc.duty}
      && pidPitch != pidRoll && pidPitch != pidYaw && pidRoll != pidYaw
      && esc.Valid()
    }

    ghost function State(): Flight
      reads this, Repr
      requires Valid()
    {
      Flight(pidPitch.State(), pidRoll.State(), pidYaw.State(), lastUpdateUs, esc.State())
    }

    constructor (driver: EscPwm, now: uint32)
      requires driver.Valid()
      ensures Valid() && esc == driver
      ensures fresh(Repr - {driver, driver.lastUs, driver.duty})
      ensures State() == Flight(FreshWith(PID_PITCH_GAINS), FreshWith(PID_ROLL_GAINS), FreshWith(PID_YAW_GAINS),
                                now, driver.State())
    {
      pidPitch := new PidController(PID_PITCH_GAINS.0, PID_PITCH_GAINS.1, PID_PITCH_GAINS.2);
      pidRoll := new PidController(PID_ROLL_GAINS.0, PID_ROLL_GAINS.1, PID_ROLL_GAINS.2);
      pidYaw := new PidController(PID_YAW_GAINS.0, PID_YAW_GAINS.1, PID_YAW_GAINS.2);
      esc := driver;
      lastUpdateUs := now;
      Repr := {this, pidPitch, pidRoll, pidYaw, driver, driver.lastUs, driver.duty};
    }

    method ResetAll()
      requires Valid()
      modifies pidPitch, pidRoll, pidYaw
      ensures Valid() && State() == ResetIntegrals(old(State()))
    {
      pidPitch.ResetState();
      pidRoll.ResetState();
      pidYaw.ResetState();
    }

    /** The cut-off that main.c and Update share. */
    method Kill()
      requires Valid()
      modifies Repr - {this}
      ensures Valid() && State() == KillMotors(old(State()))
    {
      esc.SetAllUs(ARM_US);
      ResetAll();
    }

    method Update(sp: Setpoint, att: Attitude, now: uint32)
      requires Valid()
      modifies Repr
      ensures Valid() && State() == FlightUpdated(old(State()), sp, att, now)
    {
      ghost var was := State();
      var dt := GuardedDt(now, lastUpdateUs);
      lastUpdateUs := now;
      if sp.throttle <= SPIN_US {
        ResetAll();
        esc.SetAllUs(ARM_US);
        return;
      }
      var outPitch := pidPitch.Update(sp.pitch, att.pitch, dt);
      var outRoll := pidRoll.Update(sp.roll, att.roll, dt);
      var outYaw := pidYaw.Update(sp.yaw, att.yawRate, dt);
      assert (outPitch, outRoll, outYaw) == Outputs(was, sp, att, dt);
      var motors := Mix(sp.throttle, outPitch, outRoll, outYaw);
      esc.SetMotorsUs(motors.fl, motors.fr, motors.rl, motors.rr);
    }
  }
}
