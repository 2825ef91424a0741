// components/flight_controller/motor_mix.c

module MotorMix {
  import opened Config

  datatype Motors = Motors(fl: nat, fr: nat, rl: nat, rr: nat)

  /** The four sums before clamping. */
  datatype Demand = Demand(fl: real, fr: real, rl: real, rr: real)

  /** Clamp to the PWM range, then truncate to a whole microsecond. */
  function ClampUs(val: real): (us: nat)
    ensures PWM_MIN_US <= us <= PWM_MAX_US
  {
    if val < PWM_MIN_US as real then PWM_MIN_US
    else if val > PWM_MAX_US as real then PWM_MAX_US
    else val.Floor
  }

  function Demanded(throttle: int, pitch: real, roll: real, yaw: real): Demand {
    var t := throttle as real;
    Demand(t + pitch + roll - yaw, t + pitch - roll + yaw,
           t - pitch + roll + yaw, t - pitch - roll - yaw)
  }

  function Mix(throttle: int, pitch: real, roll: real, yaw: real): Motors {
    var d := Demanded(throttle, pitch, roll, yaw);
    Motors(ClampUs(d.fl), ClampUs(d.fr), ClampUs(d.rl), ClampUs(d.rr))
  }

  /** The value reaches the motor as its whole part, untouched by either bound. */
  predicate Unclamped(val: real) { ClampUs(val) == val.Floor }

  /** The upper bound is inactive: without it the result would be the same. */
  predicate BelowCeiling(val: real) {
    ClampUs(val) == if val < PWM_MIN_US as real then PWM_MIN_US else val.Floor
  }

  predicate Limited(pitch: real, roll: real, yaw: real) {
    -100.0 <= pitch <= 100.0 && -100.0 <= roll <= 100.0 && -100.0 <= yaw <= 100.0
  }

  /** 1300 + 3 * 100 == 1600: the ceiling is never in force. */
  lemma CeilingInactive(throttle: int, pitch: real, roll: real, yaw: real)
    requires throttle <= FLIGHT_MAX_US && Limited(pitch, roll, yaw)
    ensures var d := Demanded(throttle, pitch, roll, yaw);
            BelowCeiling(d.fl) && BelowCeiling(d.fr) && BelowCeiling(d.rl) && BelowCeiling(d.rr)
  {
  }

  /** The bound is exact: one more microsecond of throttle and the ceiling would act. */
  lemma CeilingExact()
    ensures Demanded(FLIGHT_MAX_US, 100.0, 100.0, -100.0).fl == PWM_MAX_US as real
    ensures !BelowCeiling(Demanded(FLIGHT_MAX_US + 1, 100.0, 100.0, -100.0).fl)
  {
    assert 1601.0.Floor == 1601;
  }

  lemma NothingClampedWithoutYaw(throttle: int, pitch: real, roll: real)
    requires SPIN_US < throttle <= FLIGHT_MAX_US && Limited(pitch, roll, 0.0)
    ensures var d := Demanded(throttle, pitch, roll, 0.0);
            Unclamped(d.fl) && Unclamped(d.fr) && Unclamped(d.rl) && Unclamped(d.rr)
  {
  }

  predicate NoneClamped(d: Demand) {
    Unclamped(d.fl) && Unclamped(d.fr) && Unclamped(d.rl) && Unclamped(d.rr)
  }

  predicate Within(x: int, y: real, bound: real) { -bound < x as real - y < bound }

  /** Mixing can be undone: throttle to 4 us, each axis to 2 us. */
  lemma MixInverse(throttle: int, pitch: real, roll: real, yaw: real)
    requires NoneClamped(Demanded(throttle, pitch, roll, yaw))
    ensures var m := Mix(throttle, pitch, roll, yaw);
            && 4 * throttle - 4 < m.fl + m.fr + m.rl + m.rr <= 4 * throttle
            && Within(m.fl + m.fr - m.rl - m.rr, 4.0 * pitch, 2.0)
            && Within(m.fl - m.fr + m.rl - m.rr, 4.0 * roll, 2.0)
            && Within(m.fr + m.rl - m.fl - m.rr, 4.0 * yaw, 2.0)
  {
    var d := Demanded(throttle, pitch, roll, yaw);
    WholePart(d.fl);
    WholePart(d.fr);
    WholePart(d.rl);
    WholePart(d.rr);
  }

  lemma WholePart(x: real)
    ensures x.Floor as real <= x < x.Floor as real + 1.0
  {
  }
}
