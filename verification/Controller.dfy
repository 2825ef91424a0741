// components/controller/controller.c: gamepad callbacks that publish setpoints.

module GamepadCallbacks {
  import opened Config

  datatype Axes = Axes(x: int, y: int, rx: int, ry: int)

  /** The globals guarded by setpoint_mutex. */
  datatype Setpoint = Setpoint(throttle: int, pitch: real, roll: real, yaw: real, killed: bool)

  const SAFE := Setpoint(ARM_US, 0.0, 0.0, 0.0, true)

  /** The private throttle accumulator and what has been published. */
  datatype Publisher = Publisher(throttleUs: int, shared: Setpoint)

  predicate StickRange(a: Axes) {
    && -512 <= a.x <= 511 && -512 <= a.y <= 511
    && -512 <= a.rx <= 511 && -512 <= a.ry <= 511
  }

  function Deadband(raw: int): int { if -STICK_DEADBAND < raw < STICK_DEADBAND then 0 else raw }

  function Abs(x: int): nat { if x < 0 then -x else x }

  function Rate(deflection: nat): int {
    (THROTTLE_ACCEL_MIN + deflection as real / STICK_MAX * (THROTTLE_ACCEL_MAX - THROTTLE_ACCEL_MIN)).Floor
  }

  function ClampThrottle(us: int): (c: int)
    ensures PWM_MIN_US <= c <= FLIGHT_MAX_US
    ensures PWM_MIN_US <= us <= FLIGHT_MAX_US ==> c == us
  {
    if us < PWM_MIN_US then PWM_MIN_US else if us > FLIGHT_MAX_US then FLIGHT_MAX_US else us
  }

  function Accumulated(us: int, raw: int): int {
    var val := Deadband(-raw);
    if val == 0 then us
    else ClampThrottle(if val > 0 then us + Rate(Abs(val)) else us - Rate(Abs(val)))
  }

  function Normalized(raw: int, full: real): real { Deadband(raw) as real / STICK_MAX * full }

  function Requested(us: int, a: Axes): Setpoint {
    Setpoint(us, Normalized(-a.ry, ANGLE_SETPOINT_MAX), Normalized(a.rx, ANGLE_SETPOINT_MAX),
             Normalized(a.x, YAW_RATE_MAX), false)
  }

  /** X button and disconnection: the accumulator always falls, the globals only if the mutex is taken. */
  function Killed(p: Publisher, taken: bool): Publisher {
    Publisher(ARM_US, if taken then SAFE else p.shared)
  }

  function Reported(p: Publisher, xButton: bool, a: Axes, taken: bool): Publisher {
    if xButton then Killed(p, taken)
    else
      var us := Accumulated(p.throttleUs, a.y);
      Publisher(us, if taken then Requested(us, a) else p.shared)
  }

  /** One callback moves the throttle by -1, 0, +1 or +2 us, +2 only at the very end of the stick. */
  lemma ThrottleSteps(us: int, raw: int)
    requires PWM_MIN_US <= us <= FLIGHT_MAX_US && -512 <= raw <= 511
    ensures var step := Accumulated(us, raw) - us;
            && -1 <= step <= 2
            && (step == 2 ==> raw == -512)
            && (raw == -512 && us <= FLIGHT_MAX_US - 2 ==> step == 2)
            && (step > 0 <==> raw <= -20 && us < FLIGHT_MAX_US)
            && (step < 0 <==> raw >= 20 && us > PWM_MIN_US)
  {
    RateInRange(Abs(raw));
  }

  lemma RateInRange(deflection: nat)
    requires deflection <= 512
    ensures Rate(deflection) == if deflection == 512 then 2 else 1
  {
  }

  lemma RequestedWithinSetpointRange(us: int, a: Axes)
    requires StickRange(a)
    ensures var s := Requested(us, a);
            && -ANGLE_SETPOINT_MAX <= s.pitch <= ANGLE_SETPOINT_MAX
            && -ANGLE_SETPOINT_MAX <= s.roll < ANGLE_SETPOINT_MAX
            && -YAW_RATE_MAX <= s.yaw < YAW_RATE_MAX
  {
  }

  // ----- Which stick moves what -----

  /** The effect of one stick axis on one setpoint: centred within 19 counts, then strictly rising to full scale. */
  lemma StickEffect(raw: int, full: real)
    requires full > 0.0
    ensures Normalized(raw, full) > 0.0 <==> raw >= 20
    ensures Normalized(raw, full) < 0.0 <==> raw <= -20
    ensures raw <= -20 || raw >= 20 ==> Normalized(raw, full) * 512.0 == raw as real * full
  {
    var d := Deadband(raw) as real / STICK_MAX;
    assert d > 0.0 <==> raw >= 20;
    assert d < 0.0 <==> raw <= -20;
    Signed(d, full);
    assert Normalized(raw, full) == d * full;
    if raw <= -20 || raw >= 20 {
      Rescaled(d, full);
      assert d * 512.0 == raw as real;
    }
  }

  lemma Signed(d: real, full: real)
    requires full > 0.0
    ensures (d * full > 0.0 <==> d > 0.0) && (d * full < 0.0 <==> d < 0.0)
  {
  }

  lemma Rescaled(d: real, full: real)
    ensures d * full * 512.0 == d * 512.0 * full
  {
  }

  /** What an ordinary report publishes, when it gets the mutex. */
  function NewSetpoint(p: Publisher, a: Axes): Setpoint { Reported(p, false, a, true).shared }

  /**
   * The right stick pushed forward (negative ry) asks for positive pitch, pushed right for positive
   * roll; the left stick pushed right for positive yaw. Nothing within the deadband asks for anything.
   */
  lemma SticksSteer(p: Publisher, a: Axes)
    ensures var s := NewSetpoint(p, a);
            && (s.pitch > 0.0 <==> a.ry <= -20) && (s.pitch < 0.0 <==> a.ry >= 20)
            && (s.roll > 0.0 <==> a.rx >= 20) && (s.roll < 0.0 <==> a.rx <= -20)
            && (s.yaw > 0.0 <==> a.x >= 20) && (s.yaw < 0.0 <==> a.x <= -20)
            && !s.killed && s.throttle == Reported(p, false, a, true).throttleUs
  {
    StickEffect(-a.ry, ANGLE_SETPOINT_MAX);
    StickEffect(a.rx, ANGLE_SETPOINT_MAX);
    StickEffect(a.x, YAW_RATE_MAX);
  }

  /** Outside the deadband more stick always means more setpoint. */
  lemma SticksSteerMonotonically(p: Publisher, a: Axes, b: Axes)
    ensures var s, t := NewSetpoint(p, a), NewSetpoint(p, b);
            && (b.ry < a.ry && (b.ry <= -20 || a.ry >= 20) ==> s.pitch < t.pitch)
            && (a.rx < b.rx && (a.rx <= -20 || b.rx >= 20) ==> s.roll < t.roll)
            && (a.x < b.x && (a.x <= -20 || b.x >= 20) ==> s.yaw < t.yaw)
  {
    MoreStick(-a.ry, -b.ry, ANGLE_SETPOINT_MAX);
    MoreStick(a.rx, b.rx, ANGLE_SETPOINT_MAX);
    MoreStick(a.x, b.x, YAW_RATE_MAX);
  }

  lemma MoreStick(raw: int, more: int, full: real)
    requires full > 0.0
    ensures raw < more && (raw <= -20 || more >= 20) ==> Normalized(raw, full) < Normalized(more, full)
  {
    if raw < more && (raw <= -20 || more >= 20) {
      StickEffect(raw, full);
      StickEffect(more, full);
      if Normalized(raw, full) != 0.0 && Normalized(more, full) != 0.0 {
        Ordered(raw, more, full);
      }
    }
  }

  lemma Ordered(raw: int, more: int, full: real)
    requires raw < more && full > 0.0
    ensures raw as real * full < more as real * full
  {
  }

  /** The end of the stick travel is full scale: 20 degrees of pitch and roll, 90 degrees per second of yaw. */
  lemma FullScale(p: Publisher, a: Axes)
    ensures a.ry == -512 ==> NewSetpoint(p, a).pitch == 20.0
    ensures a.rx == -512 ==> NewSetpoint(p, a).roll == -20.0
    ensures a.x == -512 ==> NewSetpoint(p, a).yaw == -90.0
  {
    StickEffect(-a.ry, ANGLE_SETPOINT_MAX);
    StickEffect(a.rx, ANGLE_SETPOINT_MAX);
    StickEffect(a.x, YAW_RATE_MAX);
  }

  /** Every published value depends on its own axis only, the throttle on the left stick and the accumulator. */
  lemma AxesAreIndependent(p: Publisher, a: Axes, q: Publisher, b: Axes)
    ensures var s, t := NewSetpoint(p, a), NewSetpoint(q, b);
            && (a.ry == b.ry ==> s.pitch == t.pitch)
            && (a.rx == b.rx ==> s.roll == t.roll)
            && (a.x == b.x ==> s.yaw == t.yaw)
            && (a.y == b.y && p.throttleUs == q.throttleUs ==> s.throttle == t.throttle)
  {
  }

  /** A kill, of either kind: neutral setpoints, throttle at the arming pulse, and the accumulator with it. */
  lemma KillPublishes(p: Publisher, a: Axes, taken: bool)
    ensures Killed(p, taken) == Reported(p, true, a, taken)
    ensures Killed(p, taken).throttleUs == 1000
    ensures var s := Killed(p, taken).shared;
            if taken then s.killed && s.throttle == 1000 && s.pitch == 0.0 && s.roll == 0.0 && s.yaw == 0.0
            else s == p.shared
  {
  }

  /** A report that does not get the mutex moves the accumulator only. */
  lemma MissedReport(p: Publisher, a: Axes)
    ensures Reported(p, false, a, false).shared == p.shared
    ensures Reported(p, false, a, false).throttleUs == NewSetpoint(p, a).throttle
  {
  }

  predicate InRange(p: Publisher) {
    PWM_MIN_US <= p.throttleUs <= FLIGHT_MAX_US && PWM_MIN_US <= p.shared.throttle <= FLIGHT_MAX_US
  }

  class Controller {
    var throttleUs: int
    var throttle: int
    var pitchSp: real
    var rollSp: real
    var yawSp: real
    var motorsKilled: bool

    ghost function State(): Publisher
      reads this
    {
      Publisher(throttleUs, Setpoint(throttle, pitchSp, rollSp, yawSp, motorsKilled))
    }

    constructor ()
      ensures State() == Publisher(SPIN_US, Setpoint(ARM_US, 0.0, 0.0, 0.0, false))
    {
      throttleUs := SPIN_US;
      throttle, pitchSp, rollSp, yawSp, motorsKilled := ARM_US, 0.0, 0.0, 0.0, false;
    }

    method AccumulateThrottle(raw: int) returns (us: int)
      modifies this`throttleUs
      ensures us == throttleUs == Accumulated(old(throttleUs), raw)
    {
      var val := Deadband(-raw);
      if val == 0 {
        return throttleUs;
      }
      var fraction := Abs(val) as real / STICK_MAX;
      var rate := THROTTLE_ACCEL_MIN + fraction * (THROTTLE_ACCEL_MAX - THROTTLE_ACCEL_MIN);
      if val > 0 {
        throttleUs := throttleUs + rate.Floor;
      } else {
        throttleUs := throttleUs - rate.Floor;
      }
      if throttleUs < PWM_MIN_US {
        throttleUs := PWM_MIN_US;
      }
      if throttleUs > FLIGHT_MAX_US {
        throttleUs := FLIGHT_MAX_US;
      }
      us := throttleUs;
    }

    method OnDisconnected(taken: bool)
      modifies this
      ensures State() == Killed(old(State()), taken)
    {
      throttleUs := ARM_US;
      if taken {
        throttle := ARM_US;
        pitchSp := 0.0;
        rollSp := 0.0;
        yawSp := 0.0;
        motorsKilled := true;
      }
    }

    method OnGamepadData(xButton: bool, a: Axes, taken: bool)
      modifies this
      ensures State() == Reported(old(State()), xButton, a, taken)
    {
      if xButton {
        throttleUs := ARM_US;
        if taken {
          motorsKilled := true;
          throttle := ARM_US;
          pitchSp := 0.0;
          rollSp := 0.0;
          yawSp := 0.0;
        }
        return;
      }
      var thr := AccumulateThrottle(a.y);
      var pit := Normalized(-a.ry, ANGLE_SETPOINT_MAX);
      var rol := Normalized(a.rx, ANGLE_SETPOINT_MAX);
      var yaw := Normalized(a.x, YAW_RATE_MAX);
      if taken {
        throttle := thr;
        pitchSp := pit;
        rollSp := rol;
        yawSp := yaw;
        motorsKilled := false;
      }
    }
  }
}
