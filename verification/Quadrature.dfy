// components/bluepad32_component/uni_mouse_quadrature.c: one encoder, its value, direction and
// phase, and the two pins it drives.

module Quadrature {
  import opened Machine

  datatype Direction = Negative | Positive

  type Phase = p: nat | p < 4

  /** Negating INT32_MIN is undefined, so it is no movement. */
  type Delta = d: int | -0x7fff_ffff <= d <= 0x7fff_ffff

  datatype Pins = Pins(a: bool, b: bool)

  datatype Encoder = Encoder(value: nat, dir: Direction, phase: Phase, pins: Pins)

  datatype Event = Tick | Update(delta: Delta)

  function PinsOf(phase: Phase): Pins { Pins(phase == 1 || phase == 2, phase == 2 || phase == 3) }

  function Turned(phase: Phase, dir: Direction): Phase {
    match dir
    case Negative => if phase == 0 then 3 else phase - 1
    case Positive => if phase == 3 then 0 else phase + 1
  }

  function Next(q: Encoder, e: Event): Encoder {
    match e
    case Tick =>
      if q.value == 0 then q
      else
        var phase := Turned(q.phase, q.dir);
        Encoder(q.value - 1, q.dir, phase, PinsOf(phase))
    case Update(d) =>
      if d == 0 then q
      else q.(value := if d < 0 then -d else d, dir := if d < 0 then Negative else Positive)
  }

  predicate Driven(q: Encoder) { q.pins == PinsOf(q.phase) }

  /** An effective tick changes exactly one pin; nothing else touches the pins. */
  lemma OnePinPerTick(q: Encoder, e: Event)
    requires Driven(q)
    ensures var p, r := q.pins, Next(q, e).pins;
            && Driven(Next(q, e))
            && (e.Tick? && q.value > 0 ==> ((p.a != r.a) <==> (p.b == r.b)))
            && (!(e.Tick? && q.value > 0) ==> r == p)
  {
  }

  /** What the pins show after each event of a run. */
  function Trace(q: Encoder, es: seq<Event>): (trace: seq<Pins>)
    ensures |trace| == |es|
    decreases |es|
  {
    if es == [] then [] else [Next(q, es[0]).pins] + Trace(Next(q, es[0]), es[1..])
  }

  /** A decoder that only sees two consecutive readings of the pins. */
  function Movement(p: Pins, r: Pins): int {
    if p == r then 0
    else if p.a != r.a && p.b != r.b then 0
    else if (p.a != r.a) == (p.a == p.b) then 1
    else -1
  }

  function Decoded(p: Pins, trace: seq<Pins>): int
    decreases |trace|
  {
    if trace == [] then 0 else Movement(p, trace[0]) + Decoded(trace[0], trace[1..])
  }

  /** Ticks before the next update that is not zero. */
  function TicksAhead(es: seq<Event>): nat {
    if es == [] || (es[0].Update? && es[0].delta != 0) then 0
    else (if es[0].Tick? then 1 else 0) + TicksAhead(es[1..])
  }

  function Sign(d: int): int { if d < 0 then -1 else if d > 0 then 1 else 0 }

  /** Each nonzero update moves by its delta, cut short if the next one comes first. */
  function Requested(es: seq<Event>): int {
    if es == [] then 0
    else if es[0].Update? && es[0].delta != 0 then
      var d := es[0].delta;
      Sign(d) * Min(if d < 0 then -d else d, TicksAhead(es[1..])) + Requested(es[1..])
    else Requested(es[1..])
  }

  function Left(q: Encoder, ticks: nat): int {
    (if q.dir.Negative? then -1 else 1) * Min(q.value, ticks)
  }

  lemma TickMoves(q: Encoder)
    requires Driven(q)
    ensures Movement(q.pins, Next(q, Tick).pins) == Left(q, 1)
  {
  }

  /** The decoder recovers what is still to be moved, and then what every later update asked for. */
  lemma {:induction false} DecoderFollows(q: Encoder, es: seq<Event>)
    requires Driven(q)
    ensures Decoded(q.pins, Trace(q, es)) == Left(q, TicksAhead(es)) + Requested(es)
    decreases |es|
  {
    if es != [] {
      var r := Next(q, es[0]);
      OnePinPerTick(q, es[0]);
      DecoderFollows(r, es[1..]);
      assert Trace(q, es)[1..] == Trace(r, es[1..]);
      if es[0].Tick? {
        TickMoves(q);
      }
    }
  }

  /** From rest, the pins alone tell the sum of the movements. */
  lemma RoundTrip(q: Encoder, es: seq<Event>)
    requires Driven(q) && q.value == 0
    ensures Decoded(q.pins, Trace(q, es)) == Requested(es)
  {
    DecoderFollows(q, es);
  }

  class QuadratureState {
    var value: int
    var dir: Direction
    var phase: int
    var pinA: int
    var pinB: int

    ghost predicate Valid()
      reads this
    {
      value >= 0 && 0 <= phase <= 3 && 0 <= pinA <= 1 && 0 <= pinB <= 1
    }

    ghost function State(): Encoder
      reads this
      requires Valid()
    {
      Encoder(value, dir, phase, Pins(pinA == 1, pinB == 1))
    }

    constructor ()
      ensures Valid() && State() == Encoder(0, Negative, 0, Pins(false, false)) && Driven(State())
    {
      value, dir, phase, pinA, pinB := 0, Negative, 0, 0, 0;
    }

    method ProcessQuadrature()
      requires Valid()
      modifies this
      ensures Valid() && State() == Next(old(State()), Tick)
    {
      if value <= 0 {
        return;
      }
      value := value - 1;
      if dir.Negative? {
        phase := phase - 1;
        if phase < 0 {
          phase := 3;
        }
      } else {
        phase := phase + 1;
        if phase > 3 {
          phase := 0;
        }
      }
      var a, b := 0, 0;
      match phase {
        case 0 => a, b := 0, 0;
        case 1 => a, b := 1, 0;
        case 2 => a, b := 1, 1;
        case _ => a, b := 0, 1;
      }
      pinA := a;
      pinB := b;
    }

    method ProcessUpdate(delta: Delta)
      requires Valid()
      modifies this`value, this`dir
      ensures Valid() && State() == Next(old(State()), Update(delta))
    {
      var absDelta := if delta < 0 then -delta else delta;
      if delta != 0 {
        value := absDelta;
        dir := if delta < 0 then Negative else Positive;
      }
    }
  }
}
