// main/main.c: the tasks that share setpoints and attitude under mutexes, as a state
// machine. A step is one critical section or one stretch of a task between two of them.

module FlightSystem {
  import opened Config
  import opened Machine
  import opened Globals
  import opened Clock
  import opened PidLaw
  import opened MotorMix
  import opened EscDriver
  import opened GamepadCallbacks
  import opened FlightControl

  /** Where flight_ctrl_task stands, with the locals it has read so far. */
  datatype Phase =
    | Waiting
    | HasAttitude(att: Attitude)
    | HasSnapshot(att: Attitude, sp: Setpoint)

  datatype World = World(pub: Publisher, imu: Attitude, phase: Phase, flight: Flight)

  datatype PidAxis = PitchAxis | RollAxis | YawAxis

  /** `taken` says whether the mutex the step asks for was obtained. */
  datatype Event =
    | Report(xButton: bool, axes: Axes, taken: bool)
    | Disconnected(taken: bool)
    | ImuPublished(att: Attitude, taken: bool)
    | GainsSet(axis: PidAxis, kp: real, ki: real, kd: real)
    | FcReadsImu(taken: bool)
    | FcReadsSetpoint(taken: bool)
    | FcActs(now: uint32)

  predicate Level(att: Attitude) {
    -ANGLE_LIMIT_DEG <= att.pitch <= ANGLE_LIMIT_DEG && -ANGLE_LIMIT_DEG <= att.roll <= ANGLE_LIMIT_DEG
  }

  function WithGains(p: Pid, kp: real, ki: real, kd: real): Pid { p.(kp := kp, ki := ki, kd := kd) }

  function Retuned(f: Flight, axis: PidAxis, kp: real, ki: real, kd: real): Flight {
    match axis
    case PitchAxis => f.(pitch := WithGains(f.pitch, kp, ki, kd))
    case RollAxis => f.(roll := WithGains(f.roll, kp, ki, kd))
    case YawAxis => f.(yaw := WithGains(f.yaw, kp, ki, kd))
  }

  /** What flight_ctrl_task does once it holds both snapshots. */
  function Acted(f: Flight, att: Attitude, sp: Setpoint, now: uint32): Flight {
    if sp.killed || !Level(att) then KillMotors(f)
    else FlightUpdated(if sp.throttle <= SPIN_US then ResetIntegrals(f) else f, sp, att, now)
  }

  /** A step of the flight task in a phase where it does something else leaves the world alone. */
  function Step(w: World, e: Event): World {
    match e
    case Report(xButton, axes, taken) => w.(pub := Reported(w.pub, xButton, axes, taken))
    case Disconnected(taken) => w.(pub := Killed(w.pub, taken))
    case ImuPublished(att, taken) => if taken then w.(imu := att) else w
    case GainsSet(axis, kp, ki, kd) => w.(flight := Retuned(w.flight, axis, kp, ki, kd))
    case FcReadsImu(taken) =>
      if w.phase.Waiting? && taken then w.(phase := HasAttitude(w.imu)) else w
    case FcReadsSetpoint(taken) =>
      if !w.phase.HasAttitude? then w
      else w.(phase := if taken then HasSnapshot(w.phase.att, w.pub.shared) else Waiting)
    case FcActs(now) =>
      if !w.phase.HasSnapshot? then w
      else w.(phase := Waiting, flight := Acted(w.flight, w.phase.att, w.phase.sp, now))
  }

  function Run(w: World, es: seq<Event>): World
    decreases |es|
  {
    if es == [] then w else Run(Step(w, es[0]), es[1..])
  }

  /** The world app_main hands to the tasks: ESCs armed, accumulator at the spin threshold. */
  function Boot(now: uint32): World {
    World(Publisher(SPIN_US, Setpoint(ARM_US, 0.0, 0.0, 0.0, false)), Attitude(0.0, 0.0, 0.0), Waiting,
          Flight(FreshWith(PID_PITCH_GAINS), FreshWith(PID_ROLL_GAINS), FreshWith(PID_YAW_GAINS), now,
                 WriteAll(Esc([0, 0, 0, 0], [ARMED, ARMED, ARMED, ARMED]), ARM_US)))
  }

  predicate WorldOk(w: World) {
    && InRange(w.pub) && FlightOk(w.flight)
    && (w.phase.HasSnapshot? ==> PWM_MIN_US <= w.phase.sp.throttle <= FLIGHT_MAX_US)
  }

  lemma {:induction false} RunConcat(w: World, a: seq<Event>, b: seq<Event>)
    ensures Run(w, a + b) == Run(Run(w, a), b)
    decreases |a|
  {
    if a == [] {
      assert a + b == b;
    } else {
      assert (a + b)[0] == a[0] && (a + b)[1..] == a[1..] + b;
      RunConcat(Step(w, a[0]), a[1..], b);
    }
  }

  lemma ActedKeepsOk(f: Flight, att: Attitude, sp: Setpoint, now: uint32)
    requires FlightOk(f)
    ensures FlightOk(Acted(f, att, sp, now))
    ensures sp.killed || !Level(att) || sp.throttle <= SPIN_US ==> AllArmed(Acted(f, att, sp, now).esc)
    ensures !sp.killed && Level(att) && sp.throttle > SPIN_US ==> !AllArmed(Acted(f, att, sp, now).esc)
  {
    var g := f.(lastUpdate := now);
    if sp.killed || !Level(att) {
      KillMotorsArms(f);
    } else if sp.throttle <= SPIN_US {
      KillMotorsArms(ResetIntegrals(f).(lastUpdate := now));
    } else {
      ControlledKeepsOk(g, sp, att, GuardedDt(now, f.lastUpdate));
      SomeMotorSpins(g, sp, att, GuardedDt(now, f.lastUpdate));
    }
  }

  /**
   * What an iteration does, in numbers: it stops the motors exactly when the kill flag is set, the craft
   * is tilted beyond 45 degrees about either axis, or the throttle is at most 1200 us. Then the
   * controllers forget, and the clock is read in the last case only. Otherwise it is a control step.
   */
  lemma CutOffIff(f: Flight, att: Attitude, sp: Setpoint, now: uint32)
    requires FlightOk(f)
    ensures var g := Acted(f, att, sp, now);
            var stop := sp.killed || att.pitch > 45.0 || att.pitch < -45.0 || att.roll > 45.0 || att.roll < -45.0;
            && (AllArmed(g.esc) <==> stop || sp.throttle <= 1200)
            && (stop || sp.throttle <= 1200 ==> Forgotten(g.pitch) && Forgotten(g.roll) && Forgotten(g.yaw))
            && g.lastUpdate == (if stop then f.lastUpdate else now)
            && SameGains(f, g)
            && (!stop && sp.throttle > 1200 ==> g == FlightUpdated(f, sp, att, now))
  {
    ActedKeepsOk(f, att, sp, now);
  }

  lemma StepKeepsOk(w: World, e: Event)
    requires WorldOk(w)
    ensures WorldOk(Step(w, e))
  {
    if e.FcActs? && w.phase.HasSnapshot? {
      ActedKeepsOk(w.flight, w.phase.att, w.phase.sp, e.now);
    }
  }

  lemma {:induction false} RunKeepsOk(w: World, es: seq<Event>)
    requires WorldOk(w)
    ensures WorldOk(Run(w, es))
    decreases |es|
  {
    if es != [] {
      StepKeepsOk(w, es[0]);
      RunKeepsOk(Step(w, es[0]), es[1..]);
    }
  }

  /** Every run from boot: throttle limits, silent integrators and pins that agree with the cache. */
  lemma EveryRunIsOk(now: uint32, es: seq<Event>)
    ensures WorldOk(Run(Boot(now), es))
  {
    KillMotorsArms(Boot(now).flight);
    RunKeepsOk(Boot(now), es);
  }

  /** In every reachable iteration the mixer's ceiling is idle, and without yaw both bounds are. */
  lemma ReachableMixUnclamped(boot: uint32, es: seq<Event>, now: uint32)
    requires Run(Boot(boot), es).phase.HasSnapshot?
    ensures var w := Run(Boot(boot), es);
            var (pitch, roll, yaw) :=
              Outputs(w.flight, w.phase.sp, w.phase.att, GuardedDt(now, w.flight.lastUpdate));
            var d := Demanded(w.phase.sp.throttle, pitch, roll, yaw);
            && BelowCeiling(d.fl) && BelowCeiling(d.fr) && BelowCeiling(d.rl) && BelowCeiling(d.rr)
            && (yaw == 0.0 && w.phase.sp.throttle > SPIN_US ==> NoneClamped(d))
  {
    EveryRunIsOk(boot, es);
    var w := Run(Boot(boot), es);
    var dt := GuardedDt(now, w.flight.lastUpdate);
    OutputsLimited(w.flight, w.phase.sp, w.phase.att, dt);
    var (pitch, roll, yaw) := Outputs(w.flight, w.phase.sp, w.phase.att, dt);
    CeilingInactive(w.phase.sp.throttle, pitch, roll, yaw);
    if yaw == 0.0 && w.phase.sp.throttle > SPIN_US {
      NothingClampedWithoutYaw(w.phase.sp.throttle, pitch, roll);
    }
  }

  // ----- Failsafe over runs -----

  /** Gamepad reports without the X button: the only events that can raise the throttle. */
  function FlyingReports(es: seq<Event>): nat {
    if es == [] then 0 else Flying(es[0]) + FlyingReports(es[1..])
  }

  function Flying(e: Event): nat { if e.Report? && !e.xButton then 1 else 0 }

  predicate SticksInRange(es: seq<Event>) {
    forall i :: 0 <= i < |es| && es[i].Report? ==> StickRange(es[i].axes)
  }

  predicate PublishesKill(e: Event) {
    || (e.Report? && e.xButton && e.taken)
    || (e.Disconnected? && e.taken)
  }

  predicate Harmless(sp: Setpoint, n: nat) { sp.killed || sp.throttle <= ARM_US + 2 * n }

  /** How far a kill has come: published, in every snapshot, on the pins. */
  datatype Progress = Published | Snapshotted | Applied

  /** At most n flying reports have followed the kill, which has come this far. */
  predicate Quiet(w: World, n: nat, p: Progress) {
    && WorldOk(w)
    && w.pub.throttleUs <= ARM_US + 2 * n && Harmless(w.pub.shared, n)
    && (p != Published && w.phase.HasSnapshot? ==> Harmless(w.phase.sp, n))
    && (p == Applied ==> AllArmed(w.flight.esc))
  }

  lemma QuietStep(w: World, e: Event, n: nat, p: Progress)
    requires Quiet(w, n, p) && n <= 100
    requires e.Report? ==> StickRange(e.axes)
    ensures Quiet(Step(w, e), n + Flying(e), p)
  {
    StepKeepsOk(w, e);
    if e.Report? {
      ThrottleSteps(w.pub.throttleUs, e.axes.y);
    }
    if e.FcActs? && w.phase.HasSnapshot? {
      ActedKeepsOk(w.flight, w.phase.att, w.phase.sp, e.now);
    }
  }

  lemma {:induction false} QuietRun(w: World, es: seq<Event>, n: nat, p: Progress)
    requires Quiet(w, n, p) && n + FlyingReports(es) <= 100 && SticksInRange(es)
    ensures Quiet(Run(w, es), n + FlyingReports(es), p)
    decreases |es|
  {
    if es != [] {
      QuietStep(w, es[0], n, p);
      QuietRun(Step(w, es[0]), es[1..], n + Flying(es[0]), p);
    }
  }

  /** The events up to and including the end of an iteration whose setpoint snapshot follows `a`. */
  function Iteration(a: seq<Event>, b: seq<Event>, now: uint32): seq<Event> {
    a + [FcReadsSetpoint(true)] + b + [FcActs(now)]
  }

  /**
   * Once a kill has been published, an iteration that takes its setpoint snapshot later leaves all
   * four pins at the arming duty, and whatever follows leaves them there until at least 101 flying
   * reports have arrived. Mutex outcomes, attitudes, gains and timing are arbitrary.
   */
  lemma Failsafe(w: World, kill: Event, a: seq<Event>, b: seq<Event>, now: uint32, c: seq<Event>)
    requires WorldOk(w) && PublishesKill(kill)
    requires Run(Step(w, kill), a).phase.HasAttitude?
    requires Run(Step(w, kill), a + [FcReadsSetpoint(true)] + b).phase.HasSnapshot?
    requires SticksInRange(a) && SticksInRange(b) && SticksInRange(c)
    requires FlyingReports(a) + FlyingReports(b) + FlyingReports(c) <= 100
    ensures AllArmed(Run(Step(w, kill), Iteration(a, b, now) + c).flight.esc)
  {
    StepKeepsOk(w, kill);
    var w0 := Step(w, kill);
    assert Quiet(w0, 0, Published);
    var w1 := Run(w0, a);
    var n := FlyingReports(a);
    QuietRun(w0, a, 0, Published);

    var w2 := Step(w1, FcReadsSetpoint(true));
    StepKeepsOk(w1, FcReadsSetpoint(true));
    assert Quiet(w2, n, Snapshotted);
    var w3 := Run(w2, b);
    QuietRun(w2, b, n, Snapshotted);
    n := n + FlyingReports(b);
    RunSplits(w0, a, FcReadsSetpoint(true), b);

    var w4 := Step(w3, FcActs(now));
    StepKeepsOk(w3, FcActs(now));
    ActedKeepsOk(w3.flight, w3.phase.att, w3.phase.sp, now);
    assert Quiet(w4, n, Applied);
    QuietRun(w4, c, n, Applied);
    RunSplits(w0, a + [FcReadsSetpoint(true)] + b, FcActs(now), c);
  }

  lemma RunSplits(w: World, a: seq<Event>, e: Event, b: seq<Event>)
    ensures Run(w, a + [e] + b) == Run(Step(Run(w, a), e), b)
  {
    RunConcat(w, a + [e], b);
    RunConcat(w, a, [e]);
    assert Run(Run(w, a), [e]) == Step(Run(w, a), e);
  }

  const FULL_UP := Axes(0, -512, 0, 0)

  function Repeat(e: Event, n: nat): seq<Event> {
    if n == 0 then [] else [e] + Repeat(e, n - 1)
  }

  lemma {:induction false} ClimbFromKill(w: World, n: nat)
    requires n > 0 && ARM_US <= w.pub.throttleUs && w.pub.throttleUs + 2 * n <= FLIGHT_MAX_US
    ensures Run(w, Repeat(Report(false, FULL_UP, true), n))
         == w.(pub := Publisher(w.pub.throttleUs + 2 * n, Requested(w.pub.throttleUs + 2 * n, FULL_UP)))
    ensures FlyingReports(Repeat(Report(false, FULL_UP, true), n)) == n
    decreases n
  {
    var e := Report(false, FULL_UP, true);
    ThrottleSteps(w.pub.throttleUs, -512);
    var es := Repeat(e, n);
    assert es[0] == e && es[1..] == Repeat(e, n - 1);
    if n > 1 {
      ClimbFromKill(Step(w, e), n - 1);
    } else {
      assert es[1..] == [];
    }
  }

  /** 101 is exact: after that many full-up reports the next level iteration spins a motor. */
  lemma HundredAndOneReportsSpin(w: World, kill: Event, now: uint32)
    requires WorldOk(w) && PublishesKill(kill) && w.phase.Waiting? && Level(w.imu)
    ensures var reports := Repeat(Report(false, FULL_UP, true), 101);
            && FlyingReports(reports) == 101
            && !AllArmed(Run(Step(w, kill), Iteration(reports + [FcReadsImu(true)], [], now)).flight.esc)
  {
    var reports := Repeat(Report(false, FULL_UP, true), 101);
    var w0 := Step(w, kill);
    StepKeepsOk(w, kill);
    ClimbFromKill(w0, 101);
    RunKeepsOk(w0, reports);
    var w1 := Run(w0, reports);
    assert w1.pub.throttleUs == 1202 && w1.pub.shared.throttle == 1202;
    RunConcat(w0, reports, [FcReadsImu(true)]);
    LevelIterationSpins(w0, reports, now);
  }

  lemma LevelIterationSpins(w: World, a: seq<Event>, now: uint32)
    requires WorldOk(Run(w, a)) && Run(w, a).phase.Waiting? && Level(Run(w, a).imu)
    requires !Run(w, a).pub.shared.killed && Run(w, a).pub.shared.throttle > SPIN_US
    ensures Run(w, a + [FcReadsImu(true)]).phase.HasAttitude?
    ensures !AllArmed(Run(w, Iteration(a + [FcReadsImu(true)], [], now)).flight.esc)
  {
    var w1 := Run(w, a);
    RunSplits(w, a, FcReadsImu(true), []);
    assert a + [FcReadsImu(true)] + [] == a + [FcReadsImu(true)];
    var w2 := Step(w1, FcReadsImu(true));
    RunSplits(w, a + [FcReadsImu(true)], FcReadsSetpoint(true), []);
    var w3 := Step(w2, FcReadsSetpoint(true));
    RunSplits(w, a + [FcReadsImu(true)] + [FcReadsSetpoint(true)] + [], FcActs(now), []);
    assert Iteration(a + [FcReadsImu(true)], [], now)
        == a + [FcReadsImu(true)] + [FcReadsSetpoint(true)] + [] + [FcActs(now)] + [];
    ActedKeepsOk(w3.flight, w3.phase.att, w3.phase.sp, now);
  }

  // ----- A kill whose mutex is not obtained -----

  predicate Silent(es: seq<Event>) {
    forall i :: 0 <= i < |es| ==> !es[i].Report? && !es[i].Disconnected?
  }

  /** Without further gamepad input, every iteration that starts its snapshot from here arms the motors. */
  ghost predicate ArmsInSilence(w: World) {
    forall a, b, now ::
      && Silent(a) && Silent(b)
      && Run(w, a).phase.HasAttitude? && Run(w, a + [FcReadsSetpoint(true)] + b).phase.HasSnapshot?
      ==> AllArmed(Run(w, Iteration(a, b, now)).flight.esc)
  }

  lemma {:induction false} SilenceKeepsSetpoint(w: World, es: seq<Event>)
    requires Silent(es)
    ensures Run(w, es).pub == w.pub
    decreases |es|
  {
    if es != [] {
      SilenceKeepsSetpoint(Step(w, es[0]), es[1..]);
    }
  }

  lemma {:induction false} HarmlessSnapshotStays(w: World, es: seq<Event>)
    requires Silent(es) && HarmlessInSilence(w.pub.shared)
    requires w.phase.HasSnapshot? ==> HarmlessInSilence(w.phase.sp)
    ensures Run(w, es).phase.HasSnapshot? ==> HarmlessInSilence(Run(w, es).phase.sp)
    decreases |es|
  {
    if es != [] {
      HarmlessSnapshotStays(Step(w, es[0]), es[1..]);
    }
  }

  predicate HarmlessInSilence(sp: Setpoint) { sp.killed || sp.throttle <= SPIN_US }

  lemma HarmlessArms(w: World, a: seq<Event>, b: seq<Event>, now: uint32)
    requires WorldOk(w) && HarmlessInSilence(w.pub.shared) && Silent(a) && Silent(b)
    requires Run(w, a).phase.HasAttitude? && Run(w, a + [FcReadsSetpoint(true)] + b).phase.HasSnapshot?
    ensures AllArmed(Run(w, Iteration(a, b, now)).flight.esc)
  {
    var middle := a + [FcReadsSetpoint(true)] + b;
    SilenceKeepsSetpoint(w, a);
    RunSplits(w, a, FcReadsSetpoint(true), b);
    HarmlessSnapshotStays(Step(Run(w, a), FcReadsSetpoint(true)), b);
    RunKeepsOk(w, middle);
    RunSplits(w, middle, FcActs(now), []);
    assert Iteration(a, b, now) == middle + [FcActs(now)] + [];
    var w3 := Run(w, middle);
    ActedKeepsOk(w3.flight, w3.phase.att, w3.phase.sp, now);
  }

  /** Drives the flight task back to Waiting and publishes a level attitude. */
  function Settle(w: World): seq<Event> {
    var level := ImuPublished(Attitude(0.0, 0.0, 0.0), true);
    match w.phase
    case Waiting => [level]
    case HasAttitude(_) => [level, FcReadsSetpoint(false)]
    case HasSnapshot(_, _) => [level, FcActs(0)]
  }

  lemma SettleReaches(w: World)
    ensures var w1 := Run(w, Settle(w));
            w1.phase.Waiting? && w1.pub == w.pub && Level(w1.imu) && Silent(Settle(w))
  {
    var es := Settle(w);
    var w1 := Step(w, es[0]);
    assert es[1..] == [] || es[1..] == [es[1]];
    assert Run(w1, es[1..]) == if |es| == 1 then w1 else Step(w1, es[1]);
  }

  /** The X button and the loss of the gamepad: both ask for the mutex to publish the kill. */
  predicate Kills(e: Event) { e.Disconnected? || (e.Report? && e.xButton) }

  /**
   * After a kill, and without further gamepad input, every iteration that takes its setpoint snapshot
   * from then on arms the motors exactly when the callback obtained the mutex, or the published
   * setpoint was harmless already.
   */
  lemma KillStopsMotorsIff(w: World, e: Event)
    requires WorldOk(w) && Kills(e)
    ensures ArmsInSilence(Step(w, e)) <==> e.taken || HarmlessInSilence(w.pub.shared)
  {
    var w0 := Step(w, e);
    StepKeepsOk(w, e);
    if HarmlessInSilence(w0.pub.shared) {
      forall a, b, now |
        && Silent(a) && Silent(b)
        && Run(w0, a).phase.HasAttitude? && Run(w0, a + [FcReadsSetpoint(true)] + b).phase.HasSnapshot?
        ensures AllArmed(Run(w0, Iteration(a, b, now)).flight.esc)
      {
        HarmlessArms(w0, a, b, now);
      }
    } else {
      var a := Settle(w0);
      SettleReaches(w0);
      RunKeepsOk(w0, a);
      LevelIterationSpins(w0, a, 0);
      var a1 := a + [FcReadsImu(true)];
      assert Silent(a1) && Silent([]);
      RunSplits(w0, a1, FcReadsSetpoint(true), []);
      assert Run(w0, a1 + [FcReadsSetpoint(true)] + []).phase.HasSnapshot?;
      assert !AllArmed(Run(w0, Iteration(a1, [], 0)).flight.esc);
    }
  }

  /** Without further gamepad input, every iteration arms the motors, also one that is under way. */
  ghost predicate EveryIterationArms(w: World) {
    forall es, now: uint32 ::
      Silent(es) && Run(w, es).phase.HasSnapshot? ==> AllArmed(Step(Run(w, es), FcActs(now)).flight.esc)
  }

  /** The iteration under way, if it has its snapshot already, is about to arm the motors. */
  predicate SnapshotArms(p: Phase) { p.HasSnapshot? ==> HarmlessInSilence(p.sp) || !Level(p.att) }

  lemma {:induction false} ArmingSnapshotStays(w: World, es: seq<Event>)
    requires Silent(es) && HarmlessInSilence(w.pub.shared) && SnapshotArms(w.phase)
    ensures SnapshotArms(Run(w, es).phase)
    decreases |es|
  {
    if es != [] {
      ArmingSnapshotStays(Step(w, es[0]), es[1..]);
    }
  }

  lemma ActsOnSnapshot(w: World, now: uint32)
    requires WorldOk(w) && w.phase.HasSnapshot?
    ensures AllArmed(Step(w, FcActs(now)).flight.esc) <==> SnapshotArms(w.phase)
  {
    ActedKeepsOk(w.flight, w.phase.att, w.phase.sp, now);
  }

  /** A level attitude and the published setpoint, in the hands of the flight task. */
  lemma LevelSnapshotReached(w: World) returns (es: seq<Event>)
    ensures Silent(es) && Run(w, es).phase.HasSnapshot?
    ensures Level(Run(w, es).phase.att) && Run(w, es).phase.sp == w.pub.shared
  {
    SettleReaches(w);
    var w1 := Run(w, Settle(w));
    es := Settle(w) + [FcReadsImu(true)] + [FcReadsSetpoint(true)];
    RunSplits(w, Settle(w), FcReadsImu(true), [FcReadsSetpoint(true)]);
    var w2 := Step(w1, FcReadsImu(true));
    RunSteps(w2, FcReadsSetpoint(true), []);
    assert [FcReadsSetpoint(true)] + [] == [FcReadsSetpoint(true)];
  }

  /** Over all iterations: the kill must reach the globals, and must not come too late for the one under way. */
  lemma KillStopsEveryIterationIff(w: World, e: Event)
    requires WorldOk(w) && Kills(e)
    ensures EveryIterationArms(Step(w, e)) <==> (e.taken || HarmlessInSilence(w.pub.shared)) && SnapshotArms(w.phase)
  {
    var w0 := Step(w, e);
    StepKeepsOk(w, e);
    if HarmlessInSilence(w0.pub.shared) && SnapshotArms(w.phase) {
      forall es, now: uint32 | Silent(es) && Run(w0, es).phase.HasSnapshot?
        ensures AllArmed(Step(Run(w0, es), FcActs(now)).flight.esc)
      {
        ArmingSnapshotStays(w0, es);
        RunKeepsOk(w0, es);
        ActsOnSnapshot(Run(w0, es), now);
      }
    } else {
      var es := LevelSnapshotReached(w0);
      if !SnapshotArms(w.phase) {
        es := [];
      }
      RunKeepsOk(w0, es);
      ActsOnSnapshot(Run(w0, es), 0);
      assert Silent(es) && Run(w0, es).phase.HasSnapshot?;
      assert !AllArmed(Step(Run(w0, es), FcActs(0)).flight.esc);
    }
  }

  lemma RunSteps(w: World, e: Event, es: seq<Event>)
    ensures Run(w, [e] + es) == Run(Step(w, e), es)
  {
    assert ([e] + es)[1..] == es;
  }

  /**
   * Such a loss from boot: the stick is pushed up just past the deadband, the X button is pressed or
   * the gamepad disappears while the mutex is held elsewhere, and the next iteration turns a motor at
   * 1201 us.
   */
  lemma LostKillKeepsMotorsOn(boot: uint32, kill: Event, now: uint32)
    requires Kills(kill) && !kill.taken
    ensures var lost := [Report(false, Axes(0, -20, 0, 0), true), kill];
            var w := Run(Boot(boot), lost);
            && w.pub.throttleUs == ARM_US && w.pub.shared.throttle == 1201 && !w.pub.shared.killed
            && !AllArmed(Run(Boot(boot), Iteration(lost + [FcReadsImu(true)], [], now)).flight.esc)
  {
    var up := Report(false, Axes(0, -20, 0, 0), true);
    var w := Boot(boot);
    RateInRange(20);
    RunSteps(w, up, [kill]);
    RunSteps(Step(w, up), kill, []);
    assert [up] + [kill] == [up, kill] && [kill] + [] == [kill];
    EveryRunIsOk(boot, [up, kill]);
    LevelIterationSpins(w, [up, kill], now);
  }

  // ----- From the sticks to the motors -----

  /** One round: an attitude and a report are published, and the flight task reads both and acts. */
  function Round(att: Attitude, a: Axes, now: uint32): seq<Event> {
    [ImuPublished(att, true), Report(false, a, true), FcReadsImu(true), FcReadsSetpoint(true), FcActs(now)]
  }

  /** The motors of a round follow exactly what was measured and asked for in it. */
  lemma RoundActs(w: World, att: Attitude, a: Axes, now: uint32)
    requires w.phase.Waiting?
    ensures Run(w, Round(att, a, now)).flight == Acted(w.flight, att, NewSetpoint(w.pub, a), now)
  {
    var e0, e1 := ImuPublished(att, true), Report(false, a, true);
    var e2, e3, e4 := FcReadsImu(true), FcReadsSetpoint(true), FcActs(now);
    assert Round(att, a, now) == [e0] + [e1, e2, e3, e4] && [e1, e2, e3, e4] == [e1] + [e2, e3, e4];
    assert [e2, e3, e4] == [e2] + [e3, e4] && [e3, e4] == [e3] + [e4] && [e4] == [e4] + [];
    var w1 := Step(w, e0);
    var w2 := Step(w1, e1);
    var w3 := Step(w2, e2);
    RunSteps(w, e0, [e1, e2, e3, e4]);
    RunSteps(w1, e1, [e2, e3, e4]);
    RunSteps(w2, e2, [e3, e4]);
    RunSteps(w3, e3, [e4]);
    RunSteps(Step(w3, e3), e4, []);
  }

  /** A mutex that is not obtained costs the round: nothing is published, or the flight task starts over. */
  lemma MissedMutex(w: World, att: Attitude)
    ensures Step(w, ImuPublished(att, false)) == w
    ensures Step(w, FcReadsImu(false)) == w
    ensures Step(w, FcReadsSetpoint(false)) == if w.phase.HasAttitude? then w.(phase := Waiting) else w
  {
  }

  const LEVEL_AND_STILL := Attitude(0.0, 0.0, 0.0)

  /** Ready to fly: no controller remembers an error, and the throttle spins the motors. */
  predicate ReadyToFly(w: World, a: Axes) {
    && WorldOk(w) && w.phase.Waiting? && StickRange(a) && Accumulated(w.pub.throttleUs, a.y) > 1200
    && NoKick(w.flight.pitch) && NoKick(w.flight.roll) && NoKick(w.flight.yaw)
  }

  lemma NothingAsked(p: Publisher, a: Axes)
    ensures var s := NewSetpoint(p, a);
            && (-20 < a.ry < 20 ==> s.pitch == 0.0) && (-20 < a.rx < 20 ==> s.roll == 0.0)
            && (-20 < a.x < 20 ==> s.yaw == 0.0)
  {
    SticksSteer(p, a);
  }

  lemma ReadySetpoint(w: World, a: Axes)
    requires ReadyToFly(w, a)
    ensures var s := NewSetpoint(w.pub, a); !s.killed && 1200 < s.throttle <= 1300
  {
    ThrottleSteps(w.pub.throttleUs, a.y);
    SticksSteer(w.pub, a);
  }

  /** A level craft answers the right stick's forward travel with its front pair, backward with its rear pair. */
  lemma PitchStickMovesFront(w: World, a: Axes, now: uint32) returns (front: nat, rear: nat)
    requires ReadyToFly(w, a) && Responsive(w.flight.pitch) && -20 < a.rx < 20 && -20 < a.x < 20
    ensures PinsShow(Run(w, Round(LEVEL_AND_STILL, a, now)).flight.esc, front, front, rear, rear)
    ensures (front > rear <==> a.ry <= -20) && (front < rear <==> a.ry >= 20)
  {
    var sp := NewSetpoint(w.pub, a);
    RoundActs(w, LEVEL_AND_STILL, a, now);
    ReadySetpoint(w, a);
    SticksSteer(w.pub, a);
    NothingAsked(w.pub, a);
    CutOffIff(w.flight, LEVEL_AND_STILL, sp, now);
    front, rear := PitchAlone(w.flight, sp, LEVEL_AND_STILL, now);
  }

  /** The same stick to the right lifts the left pair, to the left the right pair. */
  lemma RollStickMovesLeft(w: World, a: Axes, now: uint32) returns (left: nat, right: nat)
    requires ReadyToFly(w, a) && Responsive(w.flight.roll) && -20 < a.ry < 20 && -20 < a.x < 20
    ensures PinsShow(Run(w, Round(LEVEL_AND_STILL, a, now)).flight.esc, left, right, left, right)
    ensures (left > right <==> a.rx >= 20) && (left < right <==> a.rx <= -20)
  {
    var sp := NewSetpoint(w.pub, a);
    RoundActs(w, LEVEL_AND_STILL, a, now);
    ReadySetpoint(w, a);
    SticksSteer(w.pub, a);
    NothingAsked(w.pub, a);
    CutOffIff(w.flight, LEVEL_AND_STILL, sp, now);
    left, right := RollAlone(w.flight, sp, LEVEL_AND_STILL, now);
  }

  /** The left stick sideways turns the craft: right asks the front-right and rear-left motors for more. */
  lemma YawStickMovesDiagonal(w: World, a: Axes, now: uint32) returns (one: nat, other: nat)
    requires ReadyToFly(w, a) && Responsive(w.flight.yaw) && -20 < a.ry < 20 && -20 < a.rx < 20
    ensures PinsShow(Run(w, Round(LEVEL_AND_STILL, a, now)).flight.esc, other, one, one, other)
    ensures (one > other <==> a.x >= 20) && (one < other <==> a.x <= -20)
  {
    var sp := NewSetpoint(w.pub, a);
    RoundActs(w, LEVEL_AND_STILL, a, now);
    ReadySetpoint(w, a);
    SticksSteer(w.pub, a);
    NothingAsked(w.pub, a);
    CutOffIff(w.flight, LEVEL_AND_STILL, sp, now);
    one, other := YawAlone(w.flight, sp, LEVEL_AND_STILL, now);
  }

  predicate Untuned(es: seq<Event>) { forall i :: 0 <= i < |es| ==> !es[i].GainsSet? }

  lemma {:induction false} UntunedKeepsGains(w: World, es: seq<Event>)
    requires Untuned(es)
    ensures SameGains(w.flight, Run(w, es).flight)
    decreases |es|
  {
    if es != [] {
      UntunedKeepsGains(Step(w, es[0]), es[1..]);
    }
  }

  /** With the gains it is compiled with, the craft is ready whenever the throttle is up: in every run from boot. */
  lemma ReadyAsCompiled(boot: uint32, es: seq<Event>, a: Axes)
    requires Untuned(es) && Run(Boot(boot), es).phase.Waiting?
    requires StickRange(a) && Accumulated(Run(Boot(boot), es).pub.throttleUs, a.y) > 1200
    ensures var w := Run(Boot(boot), es);
            ReadyToFly(w, a) && Responsive(w.flight.pitch) && Responsive(w.flight.roll)
  {
    EveryRunIsOk(boot, es);
    UntunedKeepsGains(Boot(boot), es);
  }

  function PidOf(f: Flight, axis: PidAxis): Pid {
    match axis case PitchAxis => f.pitch case RollAxis => f.roll case YawAxis => f.yaw
  }

  /** Tuning one axis gives that controller its gains, leaves its memory alone, and the other two altogether. */
  lemma TuningIsLocal(w: World, axis: PidAxis, kp: real, ki: real, kd: real)
    ensures var f, g := w.flight, Step(w, GainsSet(axis, kp, ki, kd)).flight;
            var p, q := PidOf(f, axis), PidOf(g, axis);
            && q.kp == kp && q.ki == ki && q.kd == kd && q.integral == p.integral && q.prevError == p.prevError
            && q.outputLimit == p.outputLimit && q.integralLimit == p.integralLimit
            && (forall other :: other != axis ==> PidOf(g, other) == PidOf(f, other))
            && g.esc == f.esc && g.lastUpdate == f.lastUpdate
  {
  }

  // ----- The integral gains over runs -----

  function NoKi(p: Pid): Pid { p.(ki := 0.0) }

  function WithoutKi(w: World): World {
    w.(flight := w.flight.(pitch := NoKi(w.flight.pitch), roll := NoKi(w.flight.roll), yaw := NoKi(w.flight.yaw)))
  }

  function EventWithoutKi(e: Event): Event { if e.GainsSet? then e.(ki := 0.0) else e }

  function EventsWithoutKi(es: seq<Event>): seq<Event> {
    if es == [] then [] else [EventWithoutKi(es[0])] + EventsWithoutKi(es[1..])
  }

  lemma ControlledIgnoresKi(f: Flight, sp: Setpoint, att: Attitude, dt: real)
    requires FlightOk(f)
    ensures var g := f.(pitch := NoKi(f.pitch), roll := NoKi(f.roll), yaw := NoKi(f.yaw));
            var r := Controlled(f, sp, att, dt);
            Controlled(g, sp, att, dt) == r.(pitch := NoKi(r.pitch), roll := NoKi(r.roll), yaw := NoKi(r.yaw))
  {
    IntegralGainInert(f.pitch, 0.0, sp.pitch, att.pitch, dt);
    IntegralGainInert(f.roll, 0.0, sp.roll, att.roll, dt);
    IntegralGainInert(f.yaw, 0.0, sp.yaw, att.yawRate, dt);
  }

  lemma StepIgnoresKi(w: World, e: Event)
    requires WorldOk(w)
    ensures Step(WithoutKi(w), EventWithoutKi(e)) == WithoutKi(Step(w, e))
  {
    if e.FcActs? && w.phase.HasSnapshot? && w.phase.sp.throttle > SPIN_US {
      ControlledIgnoresKi(w.flight.(lastUpdate := e.now), w.phase.sp, w.phase.att,
                          GuardedDt(e.now, w.flight.lastUpdate));
    }
  }

  /**
   * PID_INTEGRAL_LIMIT is 0, so integral gains are inert: set them to anything at any time and
   * the whole run, pins included, is the run with every integral gain at zero.
   */
  lemma {:induction false} IntegralGainsAreNeverFelt(w: World, es: seq<Event>)
    requires WorldOk(w)
    ensures Run(WithoutKi(w), EventsWithoutKi(es)) == WithoutKi(Run(w, es))
    ensures Run(WithoutKi(w), EventsWithoutKi(es)).flight.esc == Run(w, es).flight.esc
    decreases |es|
  {
    if es != [] {
      StepIgnoresKi(w, es[0]);
      StepKeepsOk(w, es[0]);
      IntegralGainsAreNeverFelt(Step(w, es[0]), es[1..]);
    }
  }

  // ----- The tasks -----

  class Firmware {
    const controller: Controller
    const fc: FlightController
    var pitchDeg: real
    var rollDeg: real
    var yawRate: real
    var phase: Phase

    ghost predicate Valid()
      reads this, fc, fc.Repr
    {
      fc.Valid() && this !in fc.Repr && controller !in fc.Repr
    }

    ghost function State(): World
      reads this, controller, fc, fc.Repr
      requires Valid()
    {
      World(controller.State(), Attitude(pitchDeg, rollDeg, yawRate), phase, fc.State())
    }

    constructor (now: uint32)
      ensures Valid() && fresh(controller) && fresh(fc.Repr)
      ensures State() == Boot(now)
    {
      var driver := new EscPwm();
      driver.SetAllUs(ARM_US);
      controller := new Controller();
      fc := new FlightController(driver, now);
      pitchDeg, rollDeg, yawRate := 0.0, 0.0, 0.0;
      phase := Waiting;
    }

    method GamepadReport(xButton: bool, axes: Axes, taken: bool)
      requires Valid()
      modifies controller
      ensures Valid() && State() == Step(old(State()), Report(xButton, axes, taken))
    {
      controller.OnGamepadData(xButton, axes, taken);
    }

    method GamepadLost(taken: bool)
      requires Valid()
      modifies controller
      ensures Valid() && State() == Step(old(State()), Disconnected(taken))
    {
      controller.OnDisconnected(taken);
    }

    method PublishAttitude(att: Attitude, taken: bool)
      requires Valid()
      modifies this
      ensures Valid() && State() == Step(old(State()), ImuPublished(att, taken))
    {
      if taken {
        pitchDeg := att.pitch;
        rollDeg := att.roll;
        yawRate := att.yawRate;
      }
    }

    method SetGains(axis: PidAxis, kp: real, ki: real, kd: real)
      requires Valid()
      modifies fc.Repr
      ensures Valid() && State() == Step(old(State()), GainsSet(axis, kp, ki, kd))
    {
      match axis
      case PitchAxis => fc.pidPitch.SetGains(kp, ki, kd);
      case RollAxis => fc.pidRoll.SetGains(kp, ki, kd);
      case YawAxis => fc.pidYaw.SetGains(kp, ki, kd);
    }

    method TakeAttitude(taken: bool)
      requires Valid() && phase.Waiting?
      modifies this`phase
      ensures Valid() && State() == Step(old(State()), FcReadsImu(taken))
    {
      if taken {
        phase := HasAttitude(Attitude(pitchDeg, rollDeg, yawRate));
      }
    }

    method TakeSetpoint(taken: bool)
      requires Valid() && phase.HasAttitude?
      modifies this`phase
      ensures Valid() && State() == Step(old(State()), FcReadsSetpoint(taken))
    {
      if taken {
        phase := HasSnapshot(phase.att,
                             Setpoint(controller.throttle, controller.pitchSp, controller.rollSp,
                                      controller.yawSp, controller.motorsKilled));
      } else {
        phase := Waiting;
      }
    }

    method Act(now: uint32)
      requires Valid() && phase.HasSnapshot?
      modifies this`phase, fc.Repr
      ensures Valid() && State() == Step(old(State()), FcActs(now))
    {
      var att, sp := phase.att, phase.sp;
      phase := Waiting;
      if sp.killed {
        fc.Kill();
        return;
      }
      if || att.pitch > ANGLE_LIMIT_DEG || att.pitch < -ANGLE_LIMIT_DEG
         || att.roll > ANGLE_LIMIT_DEG || att.roll < -ANGLE_LIMIT_DEG
      {
        fc.Kill();
        return;
      }
      if sp.throttle <= SPIN_US {
        fc.ResetAll();
      }
      fc.Update(sp, att, now);
    }
  }
}
