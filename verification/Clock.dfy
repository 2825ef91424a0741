// The dt guard that main/main.c and flight_controller.c share: elapsed time of a
// 32-bit microsecond counter, in seconds, replaced by 10 ms when it is unusable.

module Clock {
  import opened Machine

  const TWO_TO_THE_32: int := 0x1_0000_0000

  /** Unsigned 32-bit subtraction, so a counter that wrapped still gives the elapsed time. */
  function ElapsedUs(now: uint32, last: uint32): (us: uint32) {
    (now - last) % TWO_TO_THE_32
  }

  function GuardedDt(now: uint32, last: uint32): (dt: real)
    ensures 0.0 < dt <= 0.1
  {
    var dt := ElapsedUs(now, last) as real / 1000000.0;
    if dt <= 0.0 || dt > 0.1 then 0.01 else dt
  }

  /** A counter that stood still, or advanced by more than a tenth of a second, counts as one period of 10 ms. */
  lemma GuardReplacesOthers(last: uint32, us: int)
    requires us == 0 || 100000 < us < TWO_TO_THE_32
    ensures GuardedDt((last + us) % TWO_TO_THE_32, last) == 0.01
  {
    var now := (last + us) % TWO_TO_THE_32;
    if last + us < TWO_TO_THE_32 {
      assert now == last + us;
    } else {
      assert now == last + us - TWO_TO_THE_32;
    }
    assert ElapsedUs(now, last) == us;
  }

  /** A counter that advanced by 1..100000 us, wrapping or not, is measured exactly. */
  lemma GuardMeasuresElapsed(last: uint32, us: int)
    requires 0 < us <= 100000
    ensures GuardedDt((last + us) % TWO_TO_THE_32, last) == us as real / 1000000.0
  {
    var now := (last + us) % TWO_TO_THE_32;
    if last + us < TWO_TO_THE_32 {
      assert now == last + us;
    } else {
      assert now == last + us - TWO_TO_THE_32;
    }
    assert ElapsedUs(now, last) == us;
  }
}
