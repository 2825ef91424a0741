// components/flight_controller/pid.c

module PidLaw {
  import opened Config
  import opened Products

  datatype Pid = Pid(kp: real, ki: real, kd: real, integral: real, prevError: real,
                     outputLimit: real, integralLimit: real)

  function Limit(x: real, bound: real): (y: real)
    ensures bound >= 0.0 ==> -bound <= y <= bound
    ensures -bound <= x <= bound ==> y == x
  {
    if x > bound then bound else if x < -bound then -bound else x
  }

  function Fresh(kp: real, ki: real, kd: real): Pid {
    Pid(kp, ki, kd, 0.0, 0.0, PID_OUTPUT_LIMIT, PID_INTEGRAL_LIMIT)
  }

  function FreshWith(gains: (real, real, real)): Pid { Fresh(gains.0, gains.1, gains.2) }

  function Reset(p: Pid): Pid { p.(integral := 0.0, prevError := 0.0) }

  /** The sum of the three terms, before it is limited. */
  function Wanted(p: Pid, error: real, integral: real, dt: real): real {
    var slope := if dt > 0.0 then Times(p.kd, (error - p.prevError) / dt) else 0.0;
    Times(p.kp, error) + Times(p.ki, integral) + slope
  }

  /** One control step: the new state and the output. */
  function Stepped(p: Pid, setpoint: real, measurement: real, dt: real): (Pid, real) {
    var error := setpoint - measurement;
    var integral := Limit(p.integral + Times(error, dt), p.integralLimit);
    (p.(integral := integral, prevError := error), Limit(Wanted(p, error, integral, dt), p.outputLimit))
  }

  /** The limits compiled into every controller, and the integral they leave possible. */
  predicate Configured(p: Pid) {
    p.outputLimit == PID_OUTPUT_LIMIT && p.integralLimit == PID_INTEGRAL_LIMIT && p.integral == 0.0
  }

  lemma StepKeepsConfigured(p: Pid, setpoint: real, measurement: real, dt: real)
    requires Configured(p)
    ensures Configured(Stepped(p, setpoint, measurement, dt).0)
    ensures -100.0 <= Stepped(p, setpoint, measurement, dt).1 <= 100.0
  {
  }

  /** With PID_INTEGRAL_LIMIT at zero the integral gain cannot be felt. */
  lemma IntegralGainInert(p: Pid, ki: real, setpoint: real, measurement: real, dt: real)
    requires Configured(p)
    ensures Stepped(p.(ki := ki), setpoint, measurement, dt).1 == Stepped(p, setpoint, measurement, dt).1
    ensures Stepped(p.(ki := ki), setpoint, measurement, dt).0
         == Stepped(p, setpoint, measurement, dt).0.(ki := ki)
  {
    var error := setpoint - measurement;
    assert Limit(p.integral + Times(error, dt), 0.0) == 0.0;
    assert Times(ki, 0.0) == 0.0 && Times(p.ki, 0.0) == 0.0;
  }

  // ----- What the output answers to -----

  lemma Scale(k: real, x: real, y: real)
    requires k >= 0.0 && x <= y
    ensures Times(k, x) <= Times(k, y)
  {
  }

  lemma ScaleStrictly(k: real, x: real)
    requires k > 0.0
    ensures (Times(k, x) > 0.0 <==> x > 0.0) && (Times(k, x) < 0.0 <==> x < 0.0)
  {
  }

  lemma Ratio(x: real, y: real, dt: real)
    requires dt > 0.0 && x <= y
    ensures x / dt <= y / dt
  {
  }

  lemma RatioSign(x: real, dt: real)
    requires dt > 0.0
    ensures (x / dt > 0.0 <==> x > 0.0) && (x / dt < 0.0 <==> x < 0.0)
  {
  }

  /** An output value held to the compiled limit. */
  predicate HeldTo100(output: real, value: real) {
    && (-100.0 <= value <= 100.0 ==> output == value)
    && (value > 100.0 ==> output == 100.0)
    && (value < -100.0 ==> output == -100.0)
  }

  /**
   * The control law over two steps: with e the setpoint minus the measurement of each step, the second
   * output is kp e2 + kd (e2 - e1) / dt, held to the limit, whatever the controller was before. Without
   * a positive time step there is no derivative.
   */
  lemma TwoSteps(p: Pid, s1: real, m1: real, dt1: real, s2: real, m2: real, dt2: real)
    requires Configured(p)
    ensures var q := Stepped(p, s1, m1, dt1).0;
            HeldTo100(Stepped(q, s2, m2, dt2).1,
                      Times(p.kp, s2 - m2)
                      + if dt2 > 0.0 then Times(p.kd, ((s2 - m2) - (s1 - m1)) / dt2) else 0.0)
  {
    assert Times(p.ki, 0.0) == 0.0;
  }

  /** From a reset state the previous error counts as 0. */
  lemma FirstStep(p: Pid, s: real, m: real, dt: real)
    requires Configured(p) && dt > 0.0
    ensures HeldTo100(Stepped(Reset(p), s, m, dt).1, Times(p.kp, s - m) + Times(p.kd, (s - m) / dt))
  {
    assert Times(p.ki, 0.0) == 0.0;
  }

  lemma ErrorMonotone(p: Pid, s: real, m: real, t: real, n: real, dt: real)
    requires Configured(p) && p.kp >= 0.0 && p.kd >= 0.0 && dt > 0.0 && s - m <= t - n
    ensures Stepped(p, s, m, dt).1 <= Stepped(p, t, n, dt).1
  {
    assert Times(p.ki, 0.0) == 0.0;
    Scale(p.kp, s - m, t - n);
    Ratio(s - m - p.prevError, t - n - p.prevError, dt);
    Scale(p.kd, (s - m - p.prevError) / dt, (t - n - p.prevError) / dt);
  }

  /** Feedback is negative: raising the setpoint never lowers the output, raising the measurement never raises it. */
  lemma FeedbackIsNegative(p: Pid, setpoint: real, measurement: real, raise: real, dt: real)
    requires Configured(p) && p.kp >= 0.0 && p.kd >= 0.0 && dt > 0.0 && raise >= 0.0
    ensures Stepped(p, setpoint + raise, measurement, dt).1 >= Stepped(p, setpoint, measurement, dt).1
    ensures Stepped(p, setpoint, measurement + raise, dt).1 <= Stepped(p, setpoint, measurement, dt).1
  {
    ErrorMonotone(p, setpoint, measurement, setpoint + raise, measurement, dt);
    ErrorMonotone(p, setpoint, measurement + raise, setpoint, measurement, dt);
  }

  /** No earlier error can be felt: there is no derivative gain, or the controller was reset just before. */
  predicate NoKick(p: Pid) { p.kd == 0.0 || p.prevError == 0.0 }

  /** A controller whose output has the sign of the error. */
  predicate Responsive(p: Pid) { Configured(p) && p.kp > 0.0 && p.kd >= 0.0 && NoKick(p) }

  lemma OutputHasErrorSign(p: Pid, setpoint: real, measurement: real, dt: real)
    requires Responsive(p) && dt > 0.0
    ensures Stepped(p, setpoint, measurement, dt).1 > 0.0 <==> setpoint > measurement
    ensures Stepped(p, setpoint, measurement, dt).1 < 0.0 <==> setpoint < measurement
  {
    var error := setpoint - measurement;
    assert Times(p.ki, 0.0) == 0.0;
    ScaleStrictly(p.kp, error);
    RatioSign(error, dt);
    if p.kd > 0.0 {
      ScaleStrictly(p.kd, error / dt);
    }
  }

  /** A controller with nothing to correct: its setpoint is met, and there is no earlier error to differ from. */
  predicate AtRest(p: Pid, setpoint: real, measurement: real) {
    Configured(p) && setpoint == measurement && NoKick(p)
  }

  lemma RestIsSilent(p: Pid, setpoint: real, measurement: real, dt: real)
    requires AtRest(p, setpoint, measurement)
    ensures Stepped(p, setpoint, measurement, dt).1 == 0.0
  {
    assert Times(p.ki, 0.0) == 0.0 && Times(p.kp, 0.0) == 0.0;
    if dt > 0.0 {
      assert p.kd == 0.0 || (0.0 - p.prevError) / dt == 0.0;
      NoTerm(p.kd, (0.0 - p.prevError) / dt);
    }
  }

  lemma NoTerm(x: real, y: real)
    requires x == 0.0 || y == 0.0
    ensures Times(x, y) == 0.0
  {
  }

  class PidController {
    var kp: real
    var ki: real
    var kd: real
    var integral: real
    var prevError: real
    var outputLimit: real
    var integralLimit: real

    ghost function State(): Pid
      reads this
    {
      Pid(kp, ki, kd, integral, prevError, outputLimit, integralLimit)
    }

    constructor (kp: real, ki: real, kd: real)
      ensures State() == Fresh(kp, ki, kd)
    {
      this.kp, this.ki, this.kd := kp, ki, kd;
      integral, prevError := 0.0, 0.0;
      outputLimit, integralLimit := PID_OUTPUT_LIMIT, PID_INTEGRAL_LIMIT;
    }

    method Update(setpoint: real, measurement: real, dt: real) returns (output: real)
      modifies this`integral, this`prevError
      ensures (State(), output) == Stepped(old(State()), setpoint, measurement, dt)
    {
      ghost var was := State();
      var error := setpoint - measurement;
      var pTerm := Times(kp, error);

      integral := integral + Times(error, dt);
      if integral > integralLimit {
        integral := integralLimit;
      } else if integral < -integralLimit {
        integral := -integralLimit;
      }
      assert integral == Limit(was.integral + Times(error, dt), was.integralLimit);
      var iTerm := Times(ki, integral);

      var dTerm := 0.0;
      if dt > 0.0 {
        dTerm := Times(kd, (error - prevError) / dt);
      }
      prevError := error;

      output := pTerm + iTerm + dTerm;
      assert output == Wanted(was, error, integral, dt);
      if output > outputLimit {
        output := outputLimit;
      } else if output < -outputLimit {
        output := -outputLimit;
      }
      assert output == Limit(Wanted(was, error, integral, dt), was.outputLimit);
    }

    method ResetState()
      modifies this`integral, this`prevError
      ensures State() == Reset(old(State()))
    {
      integral, prevError := 0.0, 0.0;
    }

    method SetGains(kp: real, ki: real, kd: real)
      modifies this`kp, this`ki, this`kd
      ensures State() == old(State()).(kp := kp, ki := ki, kd := kd)
    {
      this.kp, this.ki, this.kd := kp, ki, kd;
    }
  }
}
