// components/bluepad32_component/uni_joystick.c: how a jump on the balance board becomes a fire pulse.

module BalanceBoard {
  import opened Machine

  const IDLE := 1600

  /** One call: the four corners, and the fire threshold in force. */
  datatype Frame = Frame(tl: int, tr: int, bl: int, br: int, fireAt: int)

  datatype Phase = Reset | Threshold | InAir | Fire

  datatype State = State(phase: Phase, counter: uint8)

  const START := State(Reset, 0)

  predicate Pressed(f: Frame) { f.tl + f.tr + f.bl + f.br >= f.fireAt }

  predicate AllIdle(f: Frame) { f.tl < IDLE && f.tr < IDLE && f.bl < IDLE && f.br < IDLE }

  /** The bottom left corner is compared differently from the other three. */
  predicate Landed(f: Frame) { f.tl >= IDLE || f.tr >= IDLE || f.bl > IDLE || f.br >= IDLE }

  function Highest(f: Frame): int { Max(Max(f.tl, f.tr), Max(f.bl, f.br)) }

  function Max(a: int, b: int): int { if a > b then a else b }

  /**
   * Idle means that no corner reaches 1600. A board that is not idle has landed, except when the bottom
   * left corner stands at exactly 1600 and no other reaches it.
   */
  lemma LandedIff(f: Frame)
    ensures AllIdle(f) <==> Highest(f) < 1600
    ensures Landed(f) <==> Highest(f) >= 1600 && !(f.bl == 1600 && Max(Max(f.tl, f.tr), f.br) < 1600)
  {
  }

  function Next(s: State, f: Frame): State {
    var counter: uint8 := (s.counter + 1) % 256;
    match s.phase
    case Reset => if Pressed(f) then State(Threshold, 0) else State(Reset, counter)
    case Threshold =>
      if AllIdle(f) then State(InAir, 0)
      else if counter > 10 then State(Reset, 0)
      else if Pressed(f) then State(Threshold, 0)
      else State(Threshold, counter)
    case InAir =>
      if counter > 2 then State(Fire, 0) else if Landed(f) then State(Reset, 0) else State(InAir, counter)
    case Fire => if counter > 10 then State(Reset, 0) else State(Fire, counter)
  }

  /** Whether the call sets the fire output. */
  predicate Fires(s: State) { s.phase.Fire? || (s.phase.InAir? && (s.counter + 1) % 256 > 2) }

  /** The state in which call number k finds the machine. */
  function At(fs: seq<Frame>, k: nat): State
    requires k <= |fs|
  {
    if k == 0 then START else Next(At(fs, k - 1), fs[k - 1])
  }

  predicate FiresAt(fs: seq<Frame>, k: nat)
    requires k < |fs|
  {
    Fires(At(fs, k))
  }

  predicate PulseStarts(fs: seq<Frame>, k: nat)
    requires k < |fs|
  {
    FiresAt(fs, k) && (k > 0 ==> !FiresAt(fs, k - 1))
  }

  /** Some call of the last n before k was pressed. */
  predicate PressedWithin(fs: seq<Frame>, k: nat, n: nat)
    requires k <= |fs|
  {
    exists h :: 0 <= h < k && k - n <= h && Pressed(fs[h])
  }

  /**
   * A press that is taken up: at rest, or while an earlier one waits. The wait ends with the eleventh
   * call after the last press that was taken up, and a press on that call itself is lost.
   */
  predicate Accepted(fs: seq<Frame>, k: nat)
    requires k < |fs|
  {
    && Pressed(fs[k])
    && (At(fs, k).phase.Reset? || (At(fs, k).phase.Threshold? && At(fs, k).counter < 10 && !AllIdle(fs[k])))
  }

  /** Call p took up a press, and until call h some corner stayed loaded. */
  predicate LoadedSince(fs: seq<Frame>, p: nat, h: nat)
    requires h <= |fs|
  {
    p < h && Accepted(fs, p) && forall j :: p < j < h ==> !AllIdle(fs[j])
  }

  /** A press was taken up at most 11 calls before h, and the board has not been left since. */
  predicate PressWaits(fs: seq<Frame>, h: nat)
    requires h <= |fs|
  {
    exists p: nat :: h - 11 <= p < h && LoadedSince(fs, p, h)
  }

  /** What the counter says about the calls before this one. */
  predicate History(fs: seq<Frame>, k: nat)
    requires k <= |fs|
  {
    var c := At(fs, k).counter as int;
    match At(fs, k).phase
    case Reset => true
    case Threshold => c <= 10 && c < k && LoadedSince(fs, k - 1 - c, k)
    case InAir =>
      && c <= 2 && c < k && AllIdle(fs[k - 1 - c]) && PressWaits(fs, k - 1 - c)
      && forall j :: k - c <= j < k ==> !Landed(fs[j])
    case Fire => c <= 10 && c < k && At(fs, k - 1 - c) == State(InAir, 2)
  }

  lemma {:induction false} HistoryHolds(fs: seq<Frame>, k: nat)
    requires k <= |fs|
    ensures History(fs, k)
    decreases k
  {
    if k > 0 {
      HistoryHolds(fs, k - 1);
      var s := At(fs, k - 1);
      if s.phase.Threshold? && AllIdle(fs[k - 1]) {
        assert LoadedSince(fs, k - 2 - s.counter, k - 1);
      }
    }
  }

  lemma PulseStartsInAir(fs: seq<Frame>, k: nat)
    requires k < |fs| && PulseStarts(fs, k)
    ensures At(fs, k) == State(InAir, 2)
  {
    HistoryHolds(fs, k);
  }

  lemma {:induction false} PulseGoesOn(fs: seq<Frame>, k: nat, j: nat)
    requires k < |fs| && At(fs, k) == State(InAir, 2) && j <= 10 && k + 1 + j <= |fs|
    ensures At(fs, k + 1 + j) == State(Fire, j)
    decreases j
  {
    if j > 0 {
      PulseGoesOn(fs, k, j - 1);
    }
  }

  /** Every pulse lasts exactly 12 calls, and 4 calls or more pass before the next. */
  lemma PulseShape(fs: seq<Frame>, k: nat)
    requires k < |fs| && PulseStarts(fs, k)
    ensures forall i :: k <= i < k + 12 && i < |fs| ==> FiresAt(fs, i)
    ensures forall i :: k + 12 <= i < k + 16 && i < |fs| ==> !FiresAt(fs, i)
  {
    PulseStartsInAir(fs, k);
    forall i | k <= i < k + 12 && i < |fs| ensures FiresAt(fs, i) {
      if i > k {
        PulseGoesOn(fs, k, i - k - 1);
      }
    }
    if k + 12 < |fs| {
      PulseGoesOn(fs, k, 10);
      assert At(fs, k + 12) == State(Reset, 0);
      PauseAfterReset(fs, k + 12);
    }
  }

  /** How far the machine can be d calls after a reset. */
  predicate AtMost(s: State, d: nat) {
    match s.phase
    case Reset => true
    case Threshold => d >= 1
    case InAir => s.counter as nat + 2 <= d
    case Fire => d >= 5
  }

  lemma {:induction false} ProgressAfterReset(fs: seq<Frame>, k: nat, d: nat)
    requires k + d <= |fs| && At(fs, k).phase.Reset? && d <= 3
    ensures AtMost(At(fs, k + d), d)
    decreases d
  {
    if d > 0 {
      ProgressAfterReset(fs, k, d - 1);
      HistoryHolds(fs, k + d - 1);
    }
  }

  lemma PauseAfterReset(fs: seq<Frame>, k: nat)
    requires k < |fs| && At(fs, k).phase.Reset?
    ensures forall i :: k <= i < k + 4 && i < |fs| ==> !FiresAt(fs, i)
  {
    forall i | k <= i < k + 4 && i < |fs| ensures !FiresAt(fs, i) {
      ProgressAfterReset(fs, k, i - k);
    }
  }

  /** While a press waits, the counter is at most the number of calls since. */
  lemma {:induction false} PressKeepsWaiting(fs: seq<Frame>, p: nat, h: nat)
    requires h <= |fs| && h <= p + 11 && LoadedSince(fs, p, h)
    ensures At(fs, h).phase.Threshold? && At(fs, h).counter <= h - p - 1
    decreases h
  {
    if h > p + 1 {
      PressKeepsWaiting(fs, p, h - 1);
    }
  }

  lemma StaysInAir(fs: seq<Frame>, h: nat)
    requires h + 3 < |fs| && At(fs, h + 1) == State(InAir, 0) && !Landed(fs[h + 1]) && !Landed(fs[h + 2])
    ensures At(fs, h + 3) == State(InAir, 2) && !FiresAt(fs, h + 2)
  {
    assert At(fs, h + 2) == State(InAir, 1);
  }

  /**
   * A fire pulse starts exactly at the end of a jump: a press that is taken up, all corners idle for
   * the first time at most 11 calls later, and two more calls in the air.
   */
  lemma PulseStartsIff(fs: seq<Frame>, k: nat)
    requires k < |fs|
    ensures PulseStarts(fs, k)
       <==> && k >= 4 && PressWaits(fs, k - 3) && AllIdle(fs[k - 3])
            && !Landed(fs[k - 2]) && !Landed(fs[k - 1])
  {
    if PulseStarts(fs, k) {
      PulseStartsInAir(fs, k);
      HistoryHolds(fs, k);
    } else if && k >= 4 && PressWaits(fs, k - 3) && AllIdle(fs[k - 3])
              && !Landed(fs[k - 2]) && !Landed(fs[k - 1]) {
      var p: nat :| k - 14 <= p < k - 3 && LoadedSince(fs, p, k - 3);
      PressKeepsWaiting(fs, p, k - 3);
      StaysInAir(fs, k - 3);
    }
  }

  /** Seen in the frames alone, every pulse has such a jump before it. */
  lemma PulseMeansJump(fs: seq<Frame>, k: nat)
    requires k < |fs| && PulseStarts(fs, k)
    ensures k >= 4
    ensures PressedWithin(fs, k - 3, 11) && AllIdle(fs[k - 3]) && !Landed(fs[k - 2]) && !Landed(fs[k - 1])
  {
    PulseStartsIff(fs, k);
    var p: nat :| k - 14 <= p < k - 3 && LoadedSince(fs, p, k - 3);
    assert Pressed(fs[p]);
  }

  /** And from rest every such jump is answered, whatever the gap between the press and leaving the board. */
  lemma JumpMeansPulse(fs: seq<Frame>, k: nat, h: nat)
    requires k < h <= k + 11 && h + 3 < |fs| && At(fs, k).phase.Reset? && Pressed(fs[k])
    requires AllIdle(fs[h]) && forall j :: k < j < h ==> !AllIdle(fs[j])
    requires !Landed(fs[h + 1]) && !Landed(fs[h + 2])
    ensures PulseStarts(fs, h + 3)
  {
    assert LoadedSince(fs, k, h);
    PulseStartsIff(fs, h + 3);
  }

  class BoardState {
    var fireState: Phase
    var fireCounter: uint8

    ghost function Abstract(): State
      reads this
    {
      State(fireState, fireCounter)
    }

    constructor ()
      ensures Abstract() == START
    {
      fireState, fireCounter := Reset, 0;
    }

    method Process(bb: Frame) returns (fire: bool)
      modifies this
      ensures Abstract() == Next(old(Abstract()), bb) && fire == Fires(old(Abstract()))
    {
      fire := false;
      var sum := bb.tl + bb.tr + bb.bl + bb.br;
      fireCounter := (fireCounter + 1) % 256;
      match fireState {
        case Reset =>
          if sum >= bb.fireAt {
            fireState := Threshold;
            fireCounter := 0;
          }
        case Threshold =>
          if bb.tl < IDLE && bb.tr < IDLE && bb.bl < IDLE && bb.br < IDLE {
            fireState := InAir;
            fireCounter := 0;
          } else if fireCounter > 10 {
            fireState := Reset;
            fireCounter := 0;
          } else if sum >= bb.fireAt {
            fireCounter := 0;
          }
        case InAir =>
          if fireCounter > 2 {
            fire := true;
            fireState := Fire;
            fireCounter := 0;
          } else if bb.tl >= IDLE || bb.tr >= IDLE || bb.bl > IDLE || bb.br >= IDLE {
            fireState := Reset;
            fireCounter := 0;
          }
        case Fire =>
          fire := true;
          if fireCounter > 10 {
            fireState := Reset;
            fireCounter := 0;
          }
      }
    }
  }
}
