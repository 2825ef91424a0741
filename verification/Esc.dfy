// components/esc/esc.c: PWM output with a cache that suppresses repeated writes.

module EscDriver {
  import opened Config

  const MOTOR_COUNT := 4
  const PERIOD_US := 20000
  const MAX_DUTY := 65535

  /** What esc_set_us remembers, and what the LEDC channels are driven with. */
  datatype CacheAndPins = Esc(last: seq<nat>, pins: seq<nat>)

  type Esc = e: CacheAndPins | |e.last| == MOTOR_COUNT && |e.pins| == MOTOR_COUNT
    witness Esc([0, 0, 0, 0], [0, 0, 0, 0])

  function Clamp(us: nat): (c: nat)
    ensures PWM_MIN_US <= c <= PWM_MAX_US
  {
    if us < PWM_MIN_US then PWM_MIN_US else if us > PWM_MAX_US then PWM_MAX_US else us
  }

  function UsToDuty(us: nat): nat { Clamp(us) * MAX_DUTY / PERIOD_US }

  const ARMED: nat := UsToDuty(ARM_US)

  /** A wider pulse is a strictly larger duty, so pins tell pulses apart. */
  lemma DutyStrictlyMonotone(u: nat, v: nat)
    requires PWM_MIN_US <= u < v <= PWM_MAX_US
    ensures UsToDuty(u) < UsToDuty(v)
  {
    assert v * MAX_DUTY >= u * MAX_DUTY + MAX_DUTY;
    assert (u * MAX_DUTY + PERIOD_US) / PERIOD_US == u * MAX_DUTY / PERIOD_US + 1;
  }

  /** The duty is the pulse's whole share of the 20 ms period in 65535ths, after clamping to 1000..1600 us. */
  lemma DutyIsShare(us: nat)
    ensures us < 1000 ==> UsToDuty(us) == UsToDuty(1000)
    ensures us > 1600 ==> UsToDuty(us) == UsToDuty(1600)
    ensures 1000 <= us <= 1600 ==> UsToDuty(us) * 20000 <= us * 65535 < (UsToDuty(us) + 1) * 20000
  {
  }

  /** The cache is either still at its initial 0 or names the pulse on the pin. */
  predicate Coherent(e: Esc) {
    forall i :: 0 <= i < MOTOR_COUNT ==> e.last[i] == 0 || e.pins[i] == UsToDuty(e.last[i])
  }

  /** Writing one pulse per motor; a motor whose cached pulse is unchanged is skipped. */
  function Write(e: Esc, us: seq<nat>): Esc
    requires |us| == MOTOR_COUNT
  {
    Esc(seq(MOTOR_COUNT, i requires 0 <= i < MOTOR_COUNT => Clamp(us[i])),
        seq(MOTOR_COUNT, i requires 0 <= i < MOTOR_COUNT =>
          if e.last[i] == Clamp(us[i]) then e.pins[i] else UsToDuty(us[i])))
  }

  function WriteAll(e: Esc, us: nat): Esc { Write(e, [us, us, us, us]) }

  predicate AllArmed(e: Esc) { e.pins == [ARMED, ARMED, ARMED, ARMED] }

  /** The cache is invisible: every pin ends at the duty of the pulse asked for. */
  lemma WriteReachesPins(e: Esc, us: seq<nat>)
    requires Coherent(e) && |us| == MOTOR_COUNT
    ensures Coherent(Write(e, us))
    ensures forall i :: 0 <= i < MOTOR_COUNT ==> Write(e, us).pins[i] == UsToDuty(us[i])
  {
  }

  class EscPwm {
    const lastUs: array<nat>
    const duty: array<nat>

    ghost predicate Valid()
      reads this
    {
      lastUs.Length == duty.Length == MOTOR_COUNT && lastUs != duty
    }

    ghost function State(): Esc
      reads this, lastUs, duty
      requires Valid()
    {
      Esc(lastUs[..], duty[..])
    }

    /** esc_init: the channels start at the arming pulse, the cache at zero. */
    constructor ()
      ensures Valid() && fresh(lastUs) && fresh(duty)
      ensures State() == Esc([0, 0, 0, 0], [ARMED, ARMED, ARMED, ARMED])
    {
      lastUs := new nat[MOTOR_COUNT](i => 0);
      duty := new nat[MOTOR_COUNT](i => UsToDuty(ARM_US));
    }

    method SetUs(motor: int, pulse: nat)
      requires Valid()
      modifies lastUs, duty
      ensures motor < 0 || motor >= MOTOR_COUNT ==> State() == old(State())
      ensures 0 <= motor < MOTOR_COUNT ==>
                State() == Esc(old(State()).last[motor := Clamp(pulse)],
                               old(State()).pins[motor :=
                                 if old(lastUs[motor]) == Clamp(pulse) then old(duty[motor]) else UsToDuty(pulse)])
    {
      if motor < 0 || motor >= MOTOR_COUNT {
        return;
      }
      var us := pulse;
      if us < PWM_MIN_US {
        us := PWM_MIN_US;
      }
      if us > PWM_MAX_US {
        us := PWM_MAX_US;
      }
      if lastUs[motor] == us {
        return;
      }
      lastUs[motor] := us;
      duty[motor] := UsToDuty(us);
    }

    method SetMotorsUs(m1: nat, m2: nat, m3: nat, m4: nat)
      requires Valid()
      modifies lastUs, duty
      ensures State() == Write(old(State()), [m1, m2, m3, m4])
    {
      SetUs(0, m1);
      SetUs(1, m2);
      SetUs(2, m3);
      SetUs(3, m4);
      assert State().last == Write(old(State()), [m1, m2, m3, m4]).last;
      assert State().pins == Write(old(State()), [m1, m2, m3, m4]).pins;
    }

    method SetAllUs(pulse: nat)
      requires Valid()
      modifies lastUs, duty
      ensures State() == WriteAll(old(State()), pulse)
    {
      ghost var goal := WriteAll(State(), pulse);
      var i := 0;
      while i < MOTOR_COUNT
        invariant 0 <= i <= MOTOR_COUNT
        invariant forall j :: 0 <= j < i ==> lastUs[j] == goal.last[j] && duty[j] == goal.pins[j]
        invariant forall j :: i <= j < MOTOR_COUNT ==> lastUs[j] == old(lastUs[j]) && duty[j] == old(duty[j])
      {
        SetUs(i, pulse);
        assert lastUs[i] == State().last[i] && duty[i] == State().pins[i];
        assert forall j :: 0 <= j < MOTOR_COUNT && j != i ==>
                 lastUs[j] == State().last[j] && duty[j] == State().pins[j];
        i := i + 1;
      }
      assert State().last == goal.last && State().pins == goal.pins;
    }
  }
}
