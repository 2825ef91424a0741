// components/imu/kalman.c and the IMU task of main/main.c: a two-state Kalman
// filter (angle, gyro bias) whose covariance is updated in place.

module LinearAlgebra {
  import opened Products

  datatype Vec = Vec(x0: real, x1: real)
  datatype Mat = Mat(m00: real, m01: real, m10: real, m11: real)

  const IDENTITY := Mat(1.0, 0.0, 0.0, 1.0)

  function Dot(u: Vec, v: Vec): real { Times(u.x0, v.x0) + Times(u.x1, v.x1) }

  function Outer(u: Vec, v: Vec): Mat {
    Mat(Times(u.x0, v.x0), Times(u.x0, v.x1), Times(u.x1, v.x0), Times(u.x1, v.x1))
  }

  function AddV(u: Vec, v: Vec): Vec { Vec(u.x0 + v.x0, u.x1 + v.x1) }

  function ScaleV(v: Vec, a: real): Vec { Vec(Times(v.x0, a), Times(v.x1, a)) }

  function DivV(v: Vec, a: real): Vec
    requires a != 0.0
  {
    Vec(v.x0 / a, v.x1 / a)
  }

  function MulV(a: Mat, v: Vec): Vec {
    Vec(Times(a.m00, v.x0) + Times(a.m01, v.x1), Times(a.m10, v.x0) + Times(a.m11, v.x1))
  }

  function Mul(a: Mat, b: Mat): Mat {
    Mat(Times(a.m00, b.m00) + Times(a.m01, b.m10), Times(a.m00, b.m01) + Times(a.m01, b.m11),
        Times(a.m10, b.m00) + Times(a.m11, b.m10), Times(a.m10, b.m01) + Times(a.m11, b.m11))
  }

  function Add(a: Mat, b: Mat): Mat {
    Mat(a.m00 + b.m00, a.m01 + b.m01, a.m10 + b.m10, a.m11 + b.m11)
  }

  function Sub(a: Mat, b: Mat): Mat {
    Mat(a.m00 - b.m00, a.m01 - b.m01, a.m10 - b.m10, a.m11 - b.m11)
  }

  function Scale(k: real, a: Mat): Mat {
    Mat(Times(k, a.m00), Times(k, a.m01), Times(k, a.m10), Times(k, a.m11))
  }

  function Transpose(a: Mat): Mat { Mat(a.m00, a.m10, a.m01, a.m11) }

  function Det(a: Mat): real { Times(a.m00, a.m11) - Times(a.m01, a.m10) }

  function Trace(a: Mat): real { a.m00 + a.m11 }

  ghost predicate Symmetric(a: Mat) { a.m01 == a.m10 }

  /** The textbook meaning: symmetric, and no direction has negative variance. */
  ghost predicate PositiveSemidefinite(a: Mat) {
    Symmetric(a) && forall v: Vec :: Dot(v, MulV(a, v)) >= 0.0
  }

  /** The form that is preserved algebraically. */
  ghost predicate MinorsNonnegative(a: Mat) {
    Symmetric(a) && a.m00 >= 0.0 && a.m11 >= 0.0 && Det(a) >= 0.0
  }

  /** A product with its sign rules. */
  function Signed(x: real, y: real): (p: real)
    ensures x >= 0.0 && y >= 0.0 ==> p >= 0.0
    ensures x <= 0.0 && y <= 0.0 ==> p >= 0.0
    ensures p == 0.0 <==> x == 0.0 || y == 0.0
  {
    x * y
  }

  function Square(x: real): (s: real)
    ensures s >= 0.0
    ensures s == 0.0 <==> x == 0.0
  {
    Signed(x, x)
  }

  lemma QuadraticFormNonnegative(a: Mat, v: Vec)
    requires MinorsNonnegative(a)
    ensures Dot(v, MulV(a, v)) >= 0.0
  {
    var q := Dot(v, MulV(a, v));
    ProductNonnegative(a.m11, Square(v.x1));
    if a.m00 > 0.0 {
      ProductNonnegative(Det(a), Square(v.x1));
      CompleteSquare(a, v);
      NonnegativeFactor(a.m00, q);
    } else {
      assert Det(a) == -Square(a.m01);
      assert q == a.m11 * Square(v.x1);
    }
  }

  lemma CompleteSquare(a: Mat, v: Vec)
    requires Symmetric(a)
    ensures a.m00 * Dot(v, MulV(a, v))
         == Square(a.m00 * v.x0 + a.m01 * v.x1) + Det(a) * Square(v.x1)
  {
  }

  lemma ProductNonnegative(x: real, y: real)
    requires x >= 0.0 && y >= 0.0
    ensures x * y >= 0.0
  {
  }

  lemma NonnegativeFactor(x: real, y: real)
    requires x > 0.0 && x * y >= 0.0
    ensures y >= 0.0
  {
  }

  lemma SemidefiniteIffMinors(a: Mat)
    ensures PositiveSemidefinite(a) <==> MinorsNonnegative(a)
  {
    if MinorsNonnegative(a) {
      forall v: Vec ensures Dot(v, MulV(a, v)) >= 0.0 {
        QuadraticFormNonnegative(a, v);
      }
    }
    if PositiveSemidefinite(a) {
      var e0, e1 := Vec(1.0, 0.0), Vec(0.0, 1.0);
      assert Dot(e0, MulV(a, e0)) == a.m00;
      assert Dot(e1, MulV(a, e1)) == a.m11;
      DetFromForm(a);
    }
  }

  lemma DetFromForm(a: Mat)
    requires PositiveSemidefinite(a) && a.m00 >= 0.0 && a.m11 >= 0.0
    ensures Det(a) >= 0.0
  {
    if a.m00 > 0.0 {
      var v := Vec(-a.m01, a.m00);
      assert Dot(v, MulV(a, v)) == a.m00 * Det(a);
      NonnegativeFactor(a.m00, Det(a));
    } else {
      if a.m01 != 0.0 {
        var v := NegativeDirection(a);
      }
    }
  }

  /** With m00 == 0 the form along (x, 1) is 2*m01*x + m11, which has no lower bound. */
  lemma NegativeDirection(a: Mat) returns (v: Vec)
    requires Symmetric(a) && a.m00 == 0.0 && a.m01 != 0.0 && a.m11 >= 0.0
    ensures Dot(v, MulV(a, v)) < 0.0
  {
    var s := Square(a.m01);
    var c := (a.m11 + 1.0) / s;
    v := Vec(-(a.m01 * c), 1.0);
    assert c * s == a.m11 + 1.0;
    assert Dot(v, MulV(a, v)) == a.m11 - 2.0 * (c * s);
  }
}

module Kalman {
  import opened Products
  import opened LinearAlgebra

  datatype Params = Params(qAngle: real, qBias: real, r: real)

  /** x = (angle, bias) and the error covariance of that estimate. */
  datatype Estimate = Estimate(x: Vec, p: Mat)

  datatype Input = Input(accel: real, rate: real, dt: real)

  /** The accelerometer measures the angle alone. */
  const H := Vec(1.0, 0.0)

  const DEFAULT_PARAMS := Params(0.001, 0.003, 0.03)
  const INITIAL := Estimate(Vec(0.0, 0.0), Mat(0.0, 0.0, 0.0, 0.0))

  // ---- the filter as simultaneous matrix equations ----

  function Transition(dt: real): Mat { Mat(1.0, -dt, 0.0, 1.0) }

  function ProcessNoise(prm: Params, dt: real): Mat {
    Mat(Times(prm.qAngle, dt), 0.0, 0.0, Times(prm.qBias, dt))
  }

  function PredictState(x: Vec, rate: real, dt: real): Vec {
    AddV(MulV(Transition(dt), x), Vec(Times(dt, rate), 0.0))
  }

  function PredictCovariance(prm: Params, p: Mat, dt: real): Mat {
    Add(Mul(Mul(Transition(dt), p), Transpose(Transition(dt))), ProcessNoise(prm, dt))
  }

  function Predict(prm: Params, e: Estimate, rate: real, dt: real): Estimate {
    Estimate(PredictState(e.x, rate, dt), PredictCovariance(prm, e.p, dt))
  }

  function InnovationVariance(p: Mat, r: real): real { Dot(H, MulV(p, H)) + r }

  function Gain(p: Mat, r: real): Vec
    requires InnovationVariance(p, r) != 0.0
  {
    DivV(MulV(p, H), InnovationVariance(p, r))
  }

  /** (I - KH)P for any gain K. */
  function Reduced(p: Mat, k: Vec): Mat { Mul(Sub(IDENTITY, Outer(k, H)), p) }

  function Posterior(p: Mat, r: real): Mat
    requires InnovationVariance(p, r) != 0.0
  {
    Reduced(p, Gain(p, r))
  }

  /** The correction with any gain K. */
  function Corrected(e: Estimate, accel: real, k: Vec): Estimate {
    Estimate(AddV(e.x, ScaleV(k, accel - Dot(H, e.x))), Reduced(e.p, k))
  }

  function Correct(e: Estimate, accel: real, r: real): Estimate
    requires InnovationVariance(e.p, r) != 0.0
  {
    Corrected(e, accel, Gain(e.p, r))
  }

  /** The division by S is the one thing kalman_update needs to be defined. */
  predicate CanUpdate(prm: Params, e: Estimate, dt: real) {
    InnovationVariance(PredictCovariance(prm, e.p, dt), prm.r) != 0.0
  }

  function Updated(prm: Params, e: Estimate, i: Input): Estimate
    requires CanUpdate(prm, e, i.dt)
  {
    Correct(Predict(prm, e, i.rate, i.dt), i.accel, prm.r)
  }

  // ---- the in-place filter ----

  class KalmanFilter {
    var angle: real
    var bias: real
    var p00: real
    var p01: real
    var p10: real
    var p11: real
    var qAngle: real
    var qBias: real
    var rMeasure: real

    ghost function State(): Estimate
      reads this
    {
      Estimate(Vec(angle, bias), Mat(p00, p01, p10, p11))
    }

    ghost function Parameters(): Params
      reads this
    {
      Params(qAngle, qBias, rMeasure)
    }

    constructor ()
      ensures State() == INITIAL && Parameters() == DEFAULT_PARAMS
    {
      angle, bias := 0.0, 0.0;
      p00, p01, p10, p11 := 0.0, 0.0, 0.0, 0.0;
      qAngle, qBias, rMeasure := 0.001, 0.003, 0.03;
    }

    method SetParams(qa: real, qb: real, r: real)
      modifies this`qAngle, this`qBias, this`rMeasure
      ensures Parameters() == Params(qa, qb, r)
    {
      qAngle, qBias, rMeasure := qa, qb, r;
    }

    /** The order-sensitive assignments compute exactly the simultaneous equations. */
    method Update(accel: real, rate: real, dt: real) returns (a: real)
      requires CanUpdate(Parameters(), State(), dt)
      modifies this
      ensures State() == Updated(old(Parameters()), old(State()), Input(accel, rate, dt))
      ensures Parameters() == old(Parameters())
      ensures a == State().x.x0
    {
      PredictInPlace(rate, dt);
      a := CorrectInPlace(accel);
    }

    /** The first half of kalman_update. */
    method PredictInPlace(rate: real, dt: real)
      modifies this`angle, this`p00, this`p01, this`p10, this`p11
      ensures State() == Predict(Parameters(), old(State()), rate, dt)
    {
      PredictCoordinates(Parameters(), State(), rate, dt);
      angle := angle + Times(dt, rate - bias);

      p00 := p00 + Times(dt, Times(dt, p11) - p01 - p10 + qAngle);
      p01 := p01 - Times(dt, p11);
      p10 := p10 - Times(dt, p11);
      p11 := p11 + Times(qBias, dt);
    }

    /** The second half. */
    method CorrectInPlace(accel: real) returns (a: real)
      requires InnovationVariance(State().p, rMeasure) != 0.0
      modifies this`angle, this`bias, this`p00, this`p01, this`p10, this`p11
      ensures State() == Correct(old(State()), accel, rMeasure)
      ensures a == State().x.x0
    {
      var innovation := accel - angle;
      var k0, k1 := ComputeGain();
      ApplyGain(accel, innovation, k0, k1);
      a := angle;
    }

    method ComputeGain() returns (k0: real, k1: real)
      requires InnovationVariance(State().p, rMeasure) != 0.0
      ensures Vec(k0, k1) == Gain(State().p, rMeasure)
    {
      VarianceCoordinates(State().p, rMeasure);
      GainCoordinates(State().p, rMeasure);
      var s := p00 + rMeasure;
      k0 := p00 / s;
      k1 := p10 / s;
    }

    /** The two temporaries keep the predicted first row. */
    method ApplyGain(accel: real, innovation: real, k0: real, k1: real)
      requires innovation == accel - angle
      modifies this`angle, this`bias, this`p00, this`p01, this`p10, this`p11
      ensures State() == Corrected(old(State()), accel, Vec(k0, k1))
    {
      CorrectedCoordinates(State(), accel, k0, k1);
      angle := angle + Times(k0, innovation);
      bias := bias + Times(k1, innovation);

      var p00Tmp, p01Tmp := p00, p01;
      p00 := p00 - Times(k0, p00Tmp);
      p01 := p01 - Times(k0, p01Tmp);
      p10 := p10 - Times(k1, p00Tmp);
      p11 := p11 - Times(k1, p01Tmp);
    }
  }

  lemma PredictCoordinates(prm: Params, e: Estimate, rate: real, dt: real)
    ensures Predict(prm, e, rate, dt) == Estimate(
              Vec(e.x.x0 + Times(dt, rate - e.x.x1), e.x.x1),
              Mat(e.p.m00 + Times(dt, Times(dt, e.p.m11) - e.p.m01 - e.p.m10 + prm.qAngle),
                  e.p.m01 - Times(dt, e.p.m11),
                  e.p.m10 - Times(dt, e.p.m11),
                  e.p.m11 + Times(prm.qBias, dt)))
  {
    TransitionTimes(dt, e.p);
    var q := Mul(Transition(dt), e.p);
    TimesTransposedTransition(q, dt);
    Propagated(e.p.m00, e.p.m01, e.p.m10, e.p.m11, dt, prm.qAngle);
    PredictedState(e.x, rate, dt);
  }

  lemma UnitTimes(x: real)
    ensures Times(1.0, x) == x && Times(x, 1.0) == x && Times(0.0, x) == 0.0 && Times(x, 0.0) == 0.0
  {
  }

  lemma NegativeTimes(a: real, x: real)
    ensures Times(-a, x) == -Times(a, x) && Times(x, -a) == -Times(a, x)
  {
  }

  lemma TransitionTimes(dt: real, p: Mat)
    ensures Mul(Transition(dt), p) == Mat(p.m00 - Times(dt, p.m10), p.m01 - Times(dt, p.m11), p.m10, p.m11)
  {
    UnitTimes(p.m00);
    UnitTimes(p.m01);
    UnitTimes(p.m10);
    UnitTimes(p.m11);
    NegativeTimes(dt, p.m10);
    NegativeTimes(dt, p.m11);
  }

  lemma TimesTransposedTransition(q: Mat, dt: real)
    ensures Mul(q, Transpose(Transition(dt))) == Mat(q.m00 - Times(dt, q.m01), q.m01, q.m10 - Times(dt, q.m11), q.m11)
  {
    UnitTimes(q.m00);
    UnitTimes(q.m01);
    UnitTimes(q.m10);
    UnitTimes(q.m11);
    NegativeTimes(dt, q.m01);
    NegativeTimes(dt, q.m11);
  }

  lemma Propagated(p00: real, p01: real, p10: real, p11: real, dt: real, qAngle: real)
    ensures p00 - Times(dt, p10) - Times(dt, p01 - Times(dt, p11)) + Times(qAngle, dt)
         == p00 + Times(dt, Times(dt, p11) - p01 - p10 + qAngle)
  {
  }

  lemma PredictedState(x: Vec, rate: real, dt: real)
    ensures PredictState(x, rate, dt) == Vec(x.x0 + Times(dt, rate - x.x1), x.x1)
  {
    UnitTimes(x.x0);
    UnitTimes(x.x1);
    NegativeTimes(dt, x.x1);
    DifferenceTimes(dt, rate, x.x1);
  }

  lemma DifferenceTimes(a: real, x: real, y: real)
    ensures Times(a, x - y) == Times(a, x) - Times(a, y)
    ensures Times(x - y, a) == Times(a, x) - Times(a, y)
  {
  }

  lemma VarianceCoordinates(p: Mat, r: real)
    ensures InnovationVariance(p, r) == p.m00 + r
  {
    MeasuredColumn(p);
    MeasuredAngle(MulV(p, H));
  }

  lemma MeasuredColumn(p: Mat)
    ensures MulV(p, H) == Vec(p.m00, p.m10)
  {
    UnitTimes(p.m00);
    UnitTimes(p.m01);
    UnitTimes(p.m10);
    UnitTimes(p.m11);
  }

  lemma GainCoordinates(p: Mat, r: real)
    requires p.m00 + r != 0.0
    ensures InnovationVariance(p, r) == p.m00 + r
    ensures Gain(p, r) == Vec(p.m00 / (p.m00 + r), p.m10 / (p.m00 + r))
  {
    VarianceCoordinates(p, r);
    MeasuredColumn(p);
  }

  lemma CovarianceCoordinates(k: Vec, p: Mat)
    ensures Reduced(p, k)
         == Mat(p.m00 - Times(k.x0, p.m00), p.m01 - Times(k.x0, p.m01),
                p.m10 - Times(k.x1, p.m00), p.m11 - Times(k.x1, p.m01))
  {
    GainTimesMeasurement(k);
    Remainder(k.x0, k.x1, p.m00, p.m10);
    Remainder(k.x0, k.x1, p.m01, p.m11);
  }

  lemma GainTimesMeasurement(k: Vec)
    ensures Sub(IDENTITY, Outer(k, H)) == Mat(1.0 - k.x0, 0.0, -k.x1, 1.0)
  {
    UnitTimes(k.x0);
    UnitTimes(k.x1);
  }

  lemma Remainder(k0: real, k1: real, a: real, b: real)
    ensures Times(1.0 - k0, a) + Times(0.0, b) == a - Times(k0, a)
    ensures Times(-k1, a) + Times(1.0, b) == b - Times(k1, a)
  {
  }

  lemma CorrectedCoordinates(e: Estimate, accel: real, k0: real, k1: real)
    ensures Corrected(e, accel, Vec(k0, k1)) == Estimate(
              Vec(e.x.x0 + Times(k0, accel - e.x.x0), e.x.x1 + Times(k1, accel - e.x.x0)),
              Mat(e.p.m00 - Times(k0, e.p.m00), e.p.m01 - Times(k0, e.p.m01),
                  e.p.m10 - Times(k1, e.p.m00), e.p.m11 - Times(k1, e.p.m01)))
  {
    CovarianceCoordinates(Vec(k0, k1), e.p);
    MeasuredAngle(e.x);
  }

  lemma MeasuredAngle(x: Vec)
    ensures Dot(H, x) == x.x0
  {
    UnitTimes(x.x0);
    UnitTimes(x.x1);
  }

  // ---- optimality ----

  /** Covariance after correcting with an arbitrary gain g (the Joseph form). */
  function Joseph(p: Mat, r: real, g: Vec): Mat {
    var a := Sub(IDENTITY, Outer(g, H));
    Add(Mul(Mul(a, p), Transpose(a)), Scale(r, Outer(g, g)))
  }

  function Difference(g: Vec, k: Vec): Vec { Vec(g.x0 - k.x0, g.x1 - k.x1) }

  lemma GainTimesVariance(p: Mat, r: real)
    requires p.m00 + r != 0.0
    ensures InnovationVariance(p, r) == p.m00 + r
    ensures Times(Gain(p, r).x0, p.m00 + r) == p.m00
    ensures Times(Gain(p, r).x1, p.m00 + r) == p.m10
  {
    GainCoordinates(p, r);
    QuotientTimes(p.m00, p.m00 + r);
    QuotientTimes(p.m10, p.m00 + r);
  }

  /** The Joseph form in coordinates, for a symmetric p and s = p00 + r. */
  ghost predicate IsJoseph(p: Mat, s: real, g: Vec, j: Mat) {
    && j.m00 == p.m00 - 2.0 * Times(g.x0, p.m00) + Times(s, Times(g.x0, g.x0))
    && j.m01 == p.m01 - Times(g.x0, p.m01) - Times(g.x1, p.m00) + Times(s, Times(g.x0, g.x1))
    && j.m10 == j.m01
    && j.m11 == p.m11 - 2.0 * Times(g.x1, p.m01) + Times(s, Times(g.x1, g.x1))
  }

  lemma JosephCoordinates(p: Mat, r: real, g: Vec)
    requires Symmetric(p)
    ensures IsJoseph(p, p.m00 + r, g, Joseph(p, r, g))
  {
    CovarianceCoordinates(g, p);
    GainTimesMeasurement(g);
    TimesTransposedRemainder(Reduced(p, g), g);
    JosephEntries(p.m00, p.m01, p.m11, r, g.x0, g.x1);
  }

  lemma TimesTransposedRemainder(q: Mat, g: Vec)
    ensures Mul(q, Transpose(Mat(1.0 - g.x0, 0.0, -g.x1, 1.0)))
         == Mat(q.m00 - Times(g.x0, q.m00), q.m01 - Times(g.x1, q.m00),
                q.m10 - Times(g.x0, q.m10), q.m11 - Times(g.x1, q.m10))
  {
    DifferenceTimes(q.m00, 1.0, g.x0);
    DifferenceTimes(q.m10, 1.0, g.x0);
    UnitTimes(q.m00);
    UnitTimes(q.m01);
    UnitTimes(q.m10);
    UnitTimes(q.m11);
    Commute(g.x0, q.m00);
    Commute(g.x0, q.m10);
    NegativeTimes(g.x1, q.m00);
    NegativeTimes(g.x1, q.m10);
  }

  lemma Commute(a: real, b: real)
    ensures Times(a, b) == Times(b, a)
  {
  }

  lemma JosephEntries(p00: real, p01: real, p11: real, r: real, g0: real, g1: real)
    ensures p00 - Times(g0, p00) - Times(g0, p00 - Times(g0, p00)) + Times(r, Times(g0, g0))
         == p00 - 2.0 * Times(g0, p00) + Times(p00 + r, Times(g0, g0))
    ensures p01 - Times(g0, p01) - Times(g1, p00 - Times(g0, p00)) + Times(r, Times(g0, g1))
         == p01 - Times(g0, p01) - Times(g1, p00) + Times(p00 + r, Times(g0, g1))
    ensures p01 - Times(g1, p00) - Times(g0, p01 - Times(g1, p00)) + Times(r, Times(g1, g0))
         == p01 - Times(g0, p01) - Times(g1, p00) + Times(p00 + r, Times(g0, g1))
    ensures p11 - Times(g1, p01) - Times(g1, p01 - Times(g1, p00)) + Times(r, Times(g1, g1))
         == p11 - 2.0 * Times(g1, p01) + Times(p00 + r, Times(g1, g1))
  {
  }

  /** Any other gain costs exactly S (g-K)(g-K)' more covariance than the code's gain. */
  lemma GainOptimal(p: Mat, r: real, g: Vec)
    requires Symmetric(p) && InnovationVariance(p, r) != 0.0
    ensures var d := Difference(g, Gain(p, r));
            Sub(Joseph(p, r, g), Posterior(p, r)) == Scale(InnovationVariance(p, r), Outer(d, d))
  {
    VarianceCoordinates(p, r);
    GainTimesVariance(p, r);
    CovarianceCoordinates(Gain(p, r), p);
    JosephCoordinates(p, r, g);
    ExcessCoordinates(p, p.m00 + r, g, Gain(p, r), Joseph(p, r, g), Posterior(p, r));
  }

  lemma ExcessCoordinates(p: Mat, s: real, g: Vec, k: Vec, j: Mat, q: Mat)
    requires Symmetric(p) && Times(k.x0, s) == p.m00 && Times(k.x1, s) == p.m01 && IsJoseph(p, s, g, j)
    requires q == Mat(p.m00 - Times(k.x0, p.m00), p.m01 - Times(k.x0, p.m01),
                      p.m10 - Times(k.x1, p.m00), p.m11 - Times(k.x1, p.m01))
    ensures Sub(j, q) == Scale(s, Outer(Difference(g, k), Difference(g, k)))
  {
    ExcessProduct(s, g.x0, k.x0, p.m00, g.x0, k.x0, p.m00);
    ExcessProduct(s, g.x0, k.x0, p.m00, g.x1, k.x1, p.m01);
    ExcessProduct(s, g.x1, k.x1, p.m01, g.x0, k.x0, p.m00);
    ExcessProduct(s, g.x1, k.x1, p.m01, g.x1, k.x1, p.m01);
    Commute(g.x0, g.x1);
  }

  /** ks and ks' are the products of the two gain entries with S. */
  lemma ExcessProduct(s: real, g: real, k: real, ks: real, g': real, k': real, ks': real)
    requires Times(k, s) == ks && Times(k', s) == ks'
    ensures Times(s, Times(g - k, g' - k')) == Times(s, Times(g, g')) - Times(g, ks') - Times(g', ks) + Times(k, ks')
  {
    ExcessExpands(s, g, k, g', k');
  }

  lemma ExcessExpands(s: real, g: real, k: real, g': real, k': real)
    ensures Times(s, Times(g - k, g' - k'))
         == Times(s, Times(g, g')) - Times(g, Times(k', s)) - Times(g', Times(k, s)) + Times(k, Times(k', s))
  {
  }

  /** The excess is positive semidefinite, and zero trace only for the code's own gain. */
  lemma GainMinimal(p: Mat, r: real, g: Vec)
    requires Symmetric(p) && InnovationVariance(p, r) > 0.0
    ensures PositiveSemidefinite(Sub(Joseph(p, r, g), Posterior(p, r)))
    ensures Trace(Joseph(p, r, g)) >= Trace(Posterior(p, r))
    ensures Trace(Joseph(p, r, g)) == Trace(Posterior(p, r)) <==> g == Gain(p, r)
  {
    var s, d := InnovationVariance(p, r), Difference(g, Gain(p, r));
    GainOptimal(p, r, g);
    OuterSemidefinite(s, d);
    SemidefiniteIffMinors(Scale(s, Outer(d, d)));
    assert Trace(Joseph(p, r, g)) - Trace(Posterior(p, r)) == Trace(Scale(s, Outer(d, d)));
    assert Trace(Scale(s, Outer(d, d))) == Signed(s, Square(d.x0)) + Signed(s, Square(d.x1));
  }

  lemma OuterSemidefinite(s: real, d: Vec)
    requires s > 0.0
    ensures MinorsNonnegative(Scale(s, Outer(d, d)))
  {
    var a := Scale(s, Outer(d, d));
    assert a.m00 == Signed(s, Square(d.x0)) && a.m11 == Signed(s, Square(d.x1));
    assert Det(a) == 0.0;
  }

  // ---- covariance safety ----

  ghost predicate ValidParams(prm: Params) {
    prm.qAngle >= 0.0 && prm.qBias >= 0.0 && prm.r > 0.0
  }

  /** What every reachable covariance satisfies. */
  ghost predicate Safe(prm: Params, p: Mat) {
    PositiveSemidefinite(p) && p.m00 <= prm.r && p.m01 <= 0.0
  }

  /** What one update of a safe covariance satisfies, seen from the predicted estimate q. */
  ghost predicate SafeCorrection(prm: Params, q: Estimate, accel: real) {
    var s := InnovationVariance(q.p, prm.r);
    && s > 0.0
    && PositiveSemidefinite(q.p)
    && 0.0 <= Gain(q.p, prm.r).x0 < 1.0
    && Gain(q.p, prm.r).x1 <= 0.0
    && Det(Posterior(q.p, prm.r)) == Det(q.p) * (prm.r / s)
    && Between(q.x.x0, accel, Correct(q, accel, prm.r).x.x0)
    && Safe(prm, Posterior(q.p, prm.r))
  }

  ghost predicate SafeUpdate(prm: Params, e: Estimate, i: Input) {
    CanUpdate(prm, e, i.dt) && SafeCorrection(prm, Predict(prm, e, i.rate, i.dt), i.accel)
  }

  ghost predicate Between(a: real, b: real, x: real) {
    a <= x <= b || b <= x <= a
  }

  lemma PredictKeepsSemidefinite(prm: Params, p: Mat, dt: real)
    requires ValidParams(prm) && dt > 0.0 && MinorsNonnegative(p) && p.m01 <= 0.0
    ensures MinorsNonnegative(PredictCovariance(prm, p, dt))
    ensures PredictCovariance(prm, p, dt).m01 <= 0.0
  {
    PredictShape(prm, p, dt);
    ProductNonnegative(prm.qAngle, dt);
    ProductNonnegative(prm.qBias, dt);
    NoiseKeepsMinors(p, PredictCovariance(prm, p, dt), dt, PropagatedVariance(p, dt),
                     Times(prm.qAngle, dt), Times(prm.qBias, dt));
  }

  lemma PredictShape(prm: Params, p: Mat, dt: real)
    ensures PredictCovariance(prm, p, dt)
         == Mat(PropagatedVariance(p, dt) + Times(prm.qAngle, dt), p.m01 - Times(dt, p.m11),
                p.m10 - Times(dt, p.m11), p.m11 + Times(prm.qBias, dt))
  {
    TransitionTimes(dt, p);
    TimesTransposedTransition(Mul(Transition(dt), p), dt);
    DifferenceTimes(dt, Times(dt, p.m11) - p.m01, p.m10);
    DifferenceTimes(dt, p.m01, Times(dt, p.m11));
    DifferenceTimes(dt, Times(dt, p.m11), p.m01);
  }

  /** Angle variance after the transition alone: the quadratic form of P along (1, -dt). */
  function PropagatedVariance(p: Mat, dt: real): real {
    p.m00 + Times(dt, Times(dt, p.m11) - p.m01 - p.m10)
  }

  lemma PropagatedVarianceNonnegative(p: Mat, dt: real)
    requires MinorsNonnegative(p)
    ensures PropagatedVariance(p, dt) >= 0.0
  {
    var v := Vec(1.0, -dt);
    QuadraticFormNonnegative(p, v);
    FormAlongTransition(p, dt);
  }

  lemma FormAlongTransition(p: Mat, dt: real)
    ensures Dot(Vec(1.0, -dt), MulV(p, Vec(1.0, -dt))) == PropagatedVariance(p, dt)
  {
    UnitTimes(p.m00);
    UnitTimes(p.m10);
    NegativeTimes(dt, p.m01);
    NegativeTimes(dt, p.m11);
    UnitTimes(p.m00 - Times(dt, p.m01));
    NegativeTimes(dt, p.m10 - Times(dt, p.m11));
    DifferenceTimes(dt, p.m10, Times(dt, p.m11));
    DifferenceTimes(dt, Times(dt, p.m11) - p.m01, p.m10);
    DifferenceTimes(dt, Times(dt, p.m11), p.m01);
  }

  lemma NoiseKeepsMinors(p: Mat, q: Mat, dt: real, f: real, a: real, b: real)
    requires MinorsNonnegative(p) && f == PropagatedVariance(p, dt)
    requires a >= 0.0 && b >= 0.0 && dt > 0.0 && p.m01 <= 0.0
    requires q == Mat(f + a, p.m01 - Times(dt, p.m11), p.m10 - Times(dt, p.m11), p.m11 + b)
    ensures MinorsNonnegative(q) && q.m01 <= 0.0
  {
    ProductNonnegative(dt, p.m11);
    PropagatedVarianceNonnegative(p, dt);
    DetAfterPredict(p.m00, p.m01, p.m10, p.m11, f, a, b, dt);
    ProductNonnegative(f, b);
    ProductNonnegative(a, p.m11);
    ProductNonnegative(a, b);
  }

  lemma DetAfterPredict(p00: real, p01: real, p10: real, p11: real, f: real, a: real, b: real, dt: real)
    requires f == p00 + Times(dt, Times(dt, p11) - p01 - p10)
    ensures Times(f + a, p11 + b) - Times(p01 - Times(dt, p11), p10 - Times(dt, p11))
         == Times(p00, p11) - Times(p01, p10) + Times(f, b) + Times(a, p11) + Times(a, b)
  {
    assert f * p11 == p00 * p11 + dt * (dt * p11 - p01 - p10) * p11;
  }

  /** What a correction by k makes of q when the gain leaves the fraction c of row and column 0. */
  ghost predicate ScaledBy(q: Mat, r: real, c: real, k: Vec, z: Mat) {
    && 0.0 < c <= 1.0
    && k.x0 == 1.0 - c && k.x1 <= 0.0
    && z.m00 == Times(k.x0, r) == Times(q.m00, c)
    && Times(k.x1, q.m00) == Times(k.x0, q.m10)
    && Times(k.x1, q.m00 + r) == q.m10
    && z.m01 == z.m10 == Times(q.m01, c)
    && z.m11 == q.m11 - Times(k.x1, q.m01)
  }

  /** Correcting multiplies row and column 0 by R/S; everything else follows. */
  lemma CorrectScales(q: Mat, r: real)
    requires MinorsNonnegative(q) && q.m01 <= 0.0 && r > 0.0
    ensures InnovationVariance(q, r) == q.m00 + r
    ensures ScaledBy(q, r, r / (q.m00 + r), Gain(q, r), Posterior(q, r))
  {
    VarianceCoordinates(q, r);
    GainTimesVariance(q, r);
    CovarianceCoordinates(Gain(q, r), q);
    var s := q.m00 + r;
    QuotientTimes(r, s);
    GainScales(q, r, s, r / s, Gain(q, r), Posterior(q, r));
  }

  lemma QuotientTimes(x: real, s: real)
    requires s != 0.0
    ensures Times(x / s, s) == x
  {
  }

  lemma GainScales(q: Mat, r: real, s: real, c: real, k: Vec, z: Mat)
    requires Symmetric(q) && q.m00 >= 0.0 && q.m01 <= 0.0 && r > 0.0
    requires s == q.m00 + r && Times(c, s) == r && Times(k.x0, s) == q.m00 && Times(k.x1, s) == q.m10
    requires z == Mat(q.m00 - Times(k.x0, q.m00), q.m01 - Times(k.x0, q.m01),
                      q.m10 - Times(k.x1, q.m00), q.m11 - Times(k.x1, q.m01))
    ensures ScaledBy(q, r, c, k, z)
  {
    UnitSum(k.x0, c, s, q.m00, r);
    NonpositiveQuotient(q.m10, s, k.x1);
    PositiveQuotient(r, s, c);
    Complement(k.x0, c, q.m00);
    Complement(k.x0, c, q.m01);
    SwapFactors(k.x0, c, s);
    SwapFactors(k.x1, k.x0, s);
    Commute(c, q.m00);
  }

  lemma UnitSum(k: real, c: real, s: real, a: real, b: real)
    requires s != 0.0 && Times(k, s) == a && Times(c, s) == b && a + b == s
    ensures k + c == 1.0
  {
    var excess := k + c - 1.0;
    assert Signed(excess, s) == k * s + c * s - s;
  }

  lemma PositiveQuotient(x: real, s: real, c: real)
    requires 0.0 < x <= s && Times(c, s) == x
    ensures 0.0 < c <= 1.0
  {
    if c <= 0.0 {
      ProductNonnegative(-c, s);
    }
    if c > 1.0 {
      ProductPositive(c - 1.0, s);
    }
  }

  lemma Complement(k: real, c: real, x: real)
    requires k + c == 1.0
    ensures x - Times(k, x) == Times(x, c)
  {
    assert (k + c) * x == k * x + x * c;
  }

  lemma SwapFactors(a: real, b: real, s: real)
    ensures Times(a, Times(b, s)) == Times(b, Times(a, s))
  {
  }

  lemma NonpositiveQuotient(x: real, s: real, k: real)
    requires s > 0.0 && x <= 0.0 && Times(k, s) == x
    ensures k <= 0.0
  {
    if k > 0.0 { ProductPositive(k, s); }
  }

  lemma ProductPositive(x: real, y: real)
    requires x > 0.0 && y > 0.0
    ensures x * y > 0.0
  {
  }

  lemma DetScaling(q: Mat, z: Mat, k: Vec, c: real)
    requires Symmetric(q) && k.x0 + c == 1.0 && Times(k.x1, q.m00) == Times(k.x0, q.m10)
    requires z == Mat(Times(q.m00, c), Times(q.m01, c), Times(q.m01, c), q.m11 - Times(k.x1, q.m01))
    ensures Det(z) == Det(q) * c
  {
    ScaledDeterminant(q.m00, q.m01, q.m11, k.x0, k.x1, c);
  }

  lemma ScaledDeterminant(q00: real, q01: real, q11: real, k0: real, k1: real, c: real)
    requires k0 + c == 1.0 && k1 * q00 == k0 * q01
    ensures (q00 * c) * (q11 - k1 * q01) - (q01 * c) * (q01 * c) == (q00 * q11 - q01 * q01) * c
  {
    assert (k1 * q00) * q01 == (k0 * q01) * q01;
    assert (k0 + c) * (q01 * q01) == q01 * q01;
  }

  lemma CornerVariance(q: Mat, r: real, k1: real, z11: real)
    requires MinorsNonnegative(q) && r > 0.0
    requires Times(k1, q.m00 + r) == q.m10 && z11 == q.m11 - Times(k1, q.m01)
    ensures z11 >= 0.0
  {
    ProductNonnegative(q.m11, r);
    CornerTimesVariance(q.m00, q.m01, q.m11, r, k1, z11);
    NonnegativeFactor(q.m00 + r, z11);
  }

  lemma CornerTimesVariance(q00: real, q01: real, q11: real, r: real, k1: real, z11: real)
    requires k1 * (q00 + r) == q01 && z11 == q11 - k1 * q01
    ensures (q00 + r) * z11 == q00 * q11 - q01 * q01 + q11 * r
  {
    assert (k1 * (q00 + r)) * q01 == q01 * q01;
  }

  lemma CorrectIsSafe(prm: Params, q: Mat)
    requires ValidParams(prm) && MinorsNonnegative(q) && q.m01 <= 0.0
    ensures InnovationVariance(q, prm.r) > 0.0
    ensures Safe(prm, Posterior(q, prm.r))
    ensures Det(Posterior(q, prm.r)) == Det(q) * (prm.r / InnovationVariance(q, prm.r))
    ensures 0.0 <= Gain(q, prm.r).x0 < 1.0 && Gain(q, prm.r).x1 <= 0.0
  {
    CorrectScales(q, prm.r);
    var c, k, z := prm.r / (q.m00 + prm.r), Gain(q, prm.r), Posterior(q, prm.r);
    DetScaling(q, z, k, c);
    CornerVariance(q, prm.r, k.x1, z.m11);
    ProductNonnegative(k.x0, prm.r);
    ProductNonnegative(c, prm.r);
    ProductNonnegative(-q.m01, c);
    NegativeTimes(q.m01, c);
    ProductNonnegative(Det(q), c);
    Complement(k.x0, c, prm.r);
    Commute(c, prm.r);
    SemidefiniteIffMinors(z);
  }

  lemma CorrectionIsSafe(prm: Params, q: Estimate, accel: real)
    requires ValidParams(prm) && MinorsNonnegative(q.p) && PositiveSemidefinite(q.p) && q.p.m01 <= 0.0
    ensures SafeCorrection(prm, q, accel)
  {
    CorrectIsSafe(prm, q.p);
    AngleInterpolates(q, accel, prm.r);
  }

  lemma UpdateKeepsSafety(prm: Params, e: Estimate, i: Input)
    requires ValidParams(prm) && Safe(prm, e.p) && i.dt > 0.0
    ensures SafeUpdate(prm, e, i)
    ensures Safe(prm, Updated(prm, e, i).p)
  {
    PredictIsSafe(prm, e.p, i.dt);
    CorrectionIsSafe(prm, Predict(prm, e, i.rate, i.dt), i.accel);
  }

  lemma PredictIsSafe(prm: Params, p: Mat, dt: real)
    requires ValidParams(prm) && Safe(prm, p) && dt > 0.0
    ensures var q := PredictCovariance(prm, p, dt);
            MinorsNonnegative(q) && PositiveSemidefinite(q) && q.m01 <= 0.0
  {
    SemidefiniteIffMinors(p);
    PredictKeepsSemidefinite(prm, p, dt);
    SemidefiniteIffMinors(PredictCovariance(prm, p, dt));
  }

  lemma AngleInterpolates(q: Estimate, accel: real, r: real)
    requires InnovationVariance(q.p, r) != 0.0 && 0.0 <= Gain(q.p, r).x0 < 1.0
    ensures Between(q.x.x0, accel, Correct(q, accel, r).x.x0)
  {
    var k := Gain(q.p, r);
    MeasuredAngle(q.x);
    Interpolates(q.x.x0, accel, k.x0);
  }

  lemma Interpolates(a: real, b: real, k: real)
    requires 0.0 <= k < 1.0
    ensures Between(a, b, a + k * (b - a))
  {
    if a <= b {
      ProductNonnegative(k, b - a);
      ProductNonnegative(1.0 - k, b - a);
    } else {
      ProductNonnegative(k, a - b);
      ProductNonnegative(1.0 - k, a - b);
    }
  }

  // ---- whole runs ----

  ghost predicate UsableInputs(inputs: seq<Input>) {
    forall j :: 0 <= j < |inputs| ==> inputs[j].dt > 0.0
  }

  // ---- what the filter estimates ----

  /** The variance of v0 angle + v1 bias, according to p. */
  function VarianceAlong(p: Mat, v: Vec): real { Dot(v, MulV(p, v)) }

  /**
   * Prediction in words: the true angle moves by dt times (rate - bias), so the variance of any
   * combination v of the two is that of the combination it came from, plus the noise of the time step.
   */
  lemma PredictionVariance(prm: Params, p: Mat, dt: real, v: Vec)
    ensures VarianceAlong(PredictCovariance(prm, p, dt), v)
         == VarianceAlong(p, Vec(v.x0, v.x1 - dt * v.x0))
            + dt * (prm.qAngle * (v.x0 * v.x0) + prm.qBias * (v.x1 * v.x1))
  {
    PredictShape(prm, p, dt);
    var q := PredictCovariance(prm, p, dt);
    assert q.m00 == p.m00 + dt * (dt * p.m11 - p.m01 - p.m10) + prm.qAngle * dt;
    assert q.m01 == p.m01 - dt * p.m11 && q.m10 == p.m10 - dt * p.m11 && q.m11 == p.m11 + prm.qBias * dt;
    assert VarianceAlong(q, v) == v.x0 * (q.m00 * v.x0 + q.m01 * v.x1) + v.x1 * (q.m10 * v.x0 + q.m11 * v.x1);
    FormIdentity(p.m00, p.m01, p.m10, p.m11, dt, prm.qAngle, prm.qBias, v.x0, v.x1);
  }

  lemma FormIdentity(p00: real, p01: real, p10: real, p11: real, dt: real, qa: real, qb: real, v: real, w: real)
    ensures var u := w - dt * v;
            v * ((p00 + dt * (dt * p11 - p01 - p10) + qa * dt) * v + (p01 - dt * p11) * w)
            + w * ((p10 - dt * p11) * v + (p11 + qb * dt) * w)
            == v * (p00 * v + p01 * u) + u * (p10 * v + p11 * u) + dt * (qa * (v * v) + qb * (w * w))
  {
  }

  /**
   * The estimation error over one update, whatever the truth: if the angle is `angle` and the gyro reads
   * the true rate plus `bias`, the error of the prediction is e0 - dt e1, and correction removes the
   * share K of it and lets in the share K of the accelerometer's own error.
   */
  lemma ErrorPropagates(prm: Params, e: Estimate, i: Input, angle: real, bias: real)
    requires CanUpdate(prm, e, i.dt)
    ensures var k := Gain(PredictCovariance(prm, e.p, i.dt), prm.r);
            var angle' := angle + Times(i.dt, i.rate - bias);
            var miss := (angle - e.x.x0) - Times(i.dt, bias - e.x.x1);
            var x := Updated(prm, e, i).x;
            && angle' - x.x0 == miss - Times(k.x0, miss + (i.accel - angle'))
            && bias - x.x1 == (bias - e.x.x1) - Times(k.x1, miss + (i.accel - angle'))
  {
    var k := Gain(PredictCovariance(prm, e.p, i.dt), prm.r);
    var q := Predict(prm, e, i.rate, i.dt);
    PredictedState(e.x, i.rate, i.dt);
    CorrectedCoordinates(q, i.accel, k.x0, k.x1);
    assert Vec(k.x0, k.x1) == k;
    var angle' := angle + Times(i.dt, i.rate - bias);
    var miss := (angle - e.x.x0) - Times(i.dt, bias - e.x.x1);
    MissIs(angle, bias, e.x.x0, e.x.x1, i.rate, i.dt);
    assert i.accel - q.x.x0 == miss + (i.accel - angle');
  }

  lemma MissIs(angle: real, bias: real, x0: real, x1: real, rate: real, dt: real)
    ensures (angle + Times(dt, rate - bias)) - (x0 + Times(dt, rate - x1)) == (angle - x0) - Times(dt, bias - x1)
  {
  }

  /** An exact estimate fed with an exact angle stays exact, bias included. */
  lemma ExactStaysExact(prm: Params, e: Estimate, i: Input)
    requires CanUpdate(prm, e, i.dt) && i.accel == e.x.x0 + Times(i.dt, i.rate - e.x.x1)
    ensures Updated(prm, e, i).x == Vec(i.accel, e.x.x1)
  {
    ErrorPropagates(prm, e, i, e.x.x0, e.x.x1);
    var k := Gain(PredictCovariance(prm, e.p, i.dt), prm.r);
    NoShare(k.x0);
    NoShare(k.x1);
    NoShare(i.dt);
  }

  lemma NoShare(k: real)
    ensures Times(k, 0.0) == 0.0
  {
  }

  /** The true angle after inputs whose gyro has no bias. */
  function TrueAngle(inputs: seq<Input>): real {
    if inputs == [] then 0.0
    else
      var last := inputs[|inputs| - 1];
      TrueAngle(inputs[..|inputs| - 1]) + Times(last.dt, last.rate)
  }

  /** Every accelerometer angle is the true one. */
  predicate Noiseless(inputs: seq<Input>) {
    inputs != [] ==> Noiseless(inputs[..|inputs| - 1]) && inputs[|inputs| - 1].accel == TrueAngle(inputs)
  }

  lemma NoiselessStep(prm: Params, before: seq<Input>, i: Input)
    requires ValidParams(prm) && UsableInputs(before) && i.dt > 0.0
    requires Run(prm, before).x == Vec(TrueAngle(before), 0.0) && i.accel == TrueAngle(before) + Times(i.dt, i.rate)
    ensures UsableInputs(before + [i]) && Run(prm, before + [i]).x == Vec(i.accel, 0.0)
  {
    var e := Run(prm, before);
    assert (before + [i])[..|before|] == before;
    UpdateKeepsSafety(prm, e, i);
    assert i.rate - 0.0 == i.rate;
    ExactStaysExact(prm, e, i);
  }

  /** Fed with exact angles and unbiased rates from rest, the filter returns the exact angle for ever. */
  lemma {:induction false} TracksTruth(prm: Params, inputs: seq<Input>)
    requires ValidParams(prm) && UsableInputs(inputs) && Noiseless(inputs)
    ensures Run(prm, inputs).x == Vec(TrueAngle(inputs), 0.0)
    decreases |inputs|
  {
    if inputs != [] {
      var before, i := inputs[..|inputs| - 1], inputs[|inputs| - 1];
      TracksTruth(prm, before);
      NoiselessStep(prm, before, i);
      assert inputs == before + [i];
    }
  }

  /** The filter after a run from kalman_init. It is always defined: S never vanishes. */
  ghost function Run(prm: Params, inputs: seq<Input>): (e: Estimate)
    requires ValidParams(prm) && UsableInputs(inputs)
    ensures Safe(prm, e.p)
  {
    if inputs == [] then
      SemidefiniteIffMinors(INITIAL.p);
      INITIAL
    else
      var n := |inputs| - 1;
      var before := Run(prm, inputs[..n]);
      UpdateKeepsSafety(prm, before, inputs[n]);
      Updated(prm, before, inputs[n])
  }

  lemma EveryUpdateOfARunIsSafe(prm: Params, inputs: seq<Input>, j: int)
    requires ValidParams(prm) && UsableInputs(inputs) && 0 <= j < |inputs|
    ensures SafeUpdate(prm, Run(prm, inputs[..j]), inputs[j])
    ensures Run(prm, inputs[..j + 1]) == Updated(prm, Run(prm, inputs[..j]), inputs[j])
  {
    assert inputs[..j + 1][..j] == inputs[..j];
    UpdateKeepsSafety(prm, Run(prm, inputs[..j]), inputs[j]);
  }
}

module ImuTask {
  import opened Machine
  import opened Globals
  import opened Clock
  import opened Kalman
  import opened LinearAlgebra
  import opened Wrappers

  const PITCH_OFFSET_DEG := -0.30
  const ROLL_OFFSET_DEG := 12.07

  datatype Sample = Sample(accelPitch: real, accelRoll: real, gyroX: real, gyroY: real, gyroZ: real)

  /** One wake-up: the timer value, the sensor read (None on failure) and the mutex outcome. */
  datatype Wake = Wake(now: uint32, read: Option<Sample>, taken: bool)

  datatype Imu = Imu(lastUs: uint32, pitchEstimate: Estimate, rollEstimate: Estimate, shared: Attitude)

  ghost predicate SafeImu(s: Imu) {
    Safe(DEFAULT_PARAMS, s.pitchEstimate.p) && Safe(DEFAULT_PARAMS, s.rollEstimate.p)
  }

  lemma TickIsSafe(e: Estimate, i: Input)
    requires Safe(DEFAULT_PARAMS, e.p) && i.dt > 0.0
    ensures CanUpdate(DEFAULT_PARAMS, e, i.dt)
    ensures Safe(DEFAULT_PARAMS, Updated(DEFAULT_PARAMS, e, i).p)
  {
    UpdateKeepsSafety(DEFAULT_PARAMS, e, i);
  }

  lemma InitialIsSafe()
    ensures Safe(DEFAULT_PARAMS, INITIAL.p)
  {
    SemidefiniteIffMinors(INITIAL.p);
  }

  /** A failed read still moves the clock, so the next dt is short, never the sum of two. */
  ghost function Step(s: Imu, w: Wake): (t: Imu)
    requires SafeImu(s)
    ensures SafeImu(t) && t.lastUs == w.now
  {
    var dt := GuardedDt(w.now, s.lastUs);
    match w.read
    case None => s.(lastUs := w.now)
    case Some(r) =>
      var forPitch, forRoll := Input(r.accelPitch, r.gyroX, dt), Input(r.accelRoll, r.gyroY, dt);
      TickIsSafe(s.pitchEstimate, forPitch);
      TickIsSafe(s.rollEstimate, forRoll);
      var p := Updated(DEFAULT_PARAMS, s.pitchEstimate, forPitch);
      var q := Updated(DEFAULT_PARAMS, s.rollEstimate, forRoll);
      Imu(w.now, p, q,
          if w.taken then Attitude(p.x.x0 - PITCH_OFFSET_DEG, q.x.x0 - ROLL_OFFSET_DEG, r.gyroZ)
          else s.shared)
  }

  /** Every run of the task, with any clock readings, read failures and mutex outcomes. */
  ghost function TaskRun(boot: uint32, wakes: seq<Wake>): (s: Imu)
    ensures SafeImu(s)
  {
    if wakes == [] then
      InitialIsSafe();
      Imu(boot, INITIAL, INITIAL, Attitude(0.0, 0.0, 0.0))
    else
      Step(TaskRun(boot, wakes[..|wakes| - 1]), wakes[|wakes| - 1])
  }

  // ----- What is published -----

  /** The timer value that a wake-up after these measures from. */
  function LastUs(boot: uint32, wakes: seq<Wake>): uint32 {
    if wakes == [] then boot else wakes[|wakes| - 1].now
  }

  /** The successful reads, as a filter on one axis sees them. */
  function Inputs(boot: uint32, wakes: seq<Wake>, accel: Sample -> real, gyro: Sample -> real): (inputs: seq<Input>)
    ensures UsableInputs(inputs)
  {
    if wakes == [] then []
    else
      var before, w := wakes[..|wakes| - 1], wakes[|wakes| - 1];
      Inputs(boot, before, accel, gyro)
      + match w.read
        case None => []
        case Some(r) => [Input(accel(r), gyro(r), GuardedDt(w.now, LastUs(boot, before)))]
  }

  function AccelPitch(r: Sample): real { r.accelPitch }
  function AccelRoll(r: Sample): real { r.accelRoll }
  function GyroX(r: Sample): real { r.gyroX }
  function GyroY(r: Sample): real { r.gyroY }

  function PitchInputs(boot: uint32, wakes: seq<Wake>): (inputs: seq<Input>)
    ensures UsableInputs(inputs)
  {
    Inputs(boot, wakes, AccelPitch, GyroX)
  }

  function RollInputs(boot: uint32, wakes: seq<Wake>): (inputs: seq<Input>)
    ensures UsableInputs(inputs)
  {
    Inputs(boot, wakes, AccelRoll, GyroY)
  }

  lemma RunExtends(inputs: seq<Input>, i: Input)
    requires UsableInputs(inputs) && i.dt > 0.0
    ensures UsableInputs(inputs + [i]) && CanUpdate(DEFAULT_PARAMS, Kalman.Run(DEFAULT_PARAMS, inputs), i.dt)
    ensures Kalman.Run(DEFAULT_PARAMS, inputs + [i]) == Updated(DEFAULT_PARAMS, Kalman.Run(DEFAULT_PARAMS, inputs), i)
  {
    assert (inputs + [i])[..|inputs|] == inputs;
    TickIsSafe(Kalman.Run(DEFAULT_PARAMS, inputs), i);
  }

  /** One wake-up adds at most one input to either filter. */
  function Fed(w: Wake, dt: real, accel: Sample -> real, gyro: Sample -> real): seq<Input> {
    match w.read case None => [] case Some(r) => [Input(accel(r), gyro(r), dt)]
  }

  lemma FilterFed(inputs: seq<Input>, w: Wake, dt: real, accel: Sample -> real, gyro: Sample -> real)
    requires UsableInputs(inputs) && dt > 0.0
    ensures UsableInputs(inputs + Fed(w, dt, accel, gyro))
    ensures var e := Kalman.Run(DEFAULT_PARAMS, inputs);
            match w.read
            case None => Kalman.Run(DEFAULT_PARAMS, inputs + Fed(w, dt, accel, gyro)) == e
            case Some(r) =>
              var i := Input(accel(r), gyro(r), dt);
              && CanUpdate(DEFAULT_PARAMS, e, i.dt)
              && Kalman.Run(DEFAULT_PARAMS, inputs + Fed(w, dt, accel, gyro)) == Updated(DEFAULT_PARAMS, e, i)
  {
    if w.read.Some? {
      RunExtends(inputs, Input(accel(w.read.value), gyro(w.read.value), dt));
    } else {
      assert inputs + [] == inputs;
    }
  }

  lemma InputsGrow(boot: uint32, wakes: seq<Wake>, accel: Sample -> real, gyro: Sample -> real)
    requires wakes != []
    ensures var before, w := wakes[..|wakes| - 1], wakes[|wakes| - 1];
            Inputs(boot, wakes, accel, gyro)
            == Inputs(boot, before, accel, gyro) + Fed(w, GuardedDt(w.now, LastUs(boot, before)), accel, gyro)
  {
  }

  /**
   * The two filters run apart: what the task keeps for pitch is one Kalman filter over the pitch angle of
   * the accelerometer and the gyro about x, for roll over the roll angle and the gyro about y.
   */
  lemma {:induction false} TaskIsTwoFilters(boot: uint32, wakes: seq<Wake>)
    ensures var s := TaskRun(boot, wakes);
            && s.pitchEstimate == Kalman.Run(DEFAULT_PARAMS, PitchInputs(boot, wakes))
            && s.rollEstimate == Kalman.Run(DEFAULT_PARAMS, RollInputs(boot, wakes))
            && s.lastUs == LastUs(boot, wakes)
    decreases |wakes|
  {
    if wakes != [] {
      var before, w := wakes[..|wakes| - 1], wakes[|wakes| - 1];
      TaskIsTwoFilters(boot, before);
      var dt := GuardedDt(w.now, LastUs(boot, before));
      InputsGrow(boot, wakes, AccelPitch, GyroX);
      InputsGrow(boot, wakes, AccelRoll, GyroY);
      FilterFed(PitchInputs(boot, before), w, dt, AccelPitch, GyroX);
      FilterFed(RollInputs(boot, before), w, dt, AccelRoll, GyroY);
    }
  }

  predicate Publishes(w: Wake) { w.read.Some? && w.taken }

  /** The last wake-up that published was the k-th. */
  predicate LastPublished(wakes: seq<Wake>, k: nat) {
    k < |wakes| && Publishes(wakes[k]) && forall j :: k < j < |wakes| ==> !Publishes(wakes[j])
  }

  /**
   * The published attitude at any time: the angles of those two filters when the mutex was last
   * obtained, less the mounting offsets of -0.30 and 12.07 degrees, and the gyro about z as then read.
   */
  lemma {:induction false} PublishedAttitude(boot: uint32, wakes: seq<Wake>, k: nat)
    requires LastPublished(wakes, k)
    ensures var a := TaskRun(boot, wakes).shared;
            && a.pitch == Kalman.Run(DEFAULT_PARAMS, PitchInputs(boot, wakes[..k + 1])).x.x0 + 0.30
            && a.roll == Kalman.Run(DEFAULT_PARAMS, RollInputs(boot, wakes[..k + 1])).x.x0 - 12.07
            && a.yawRate == wakes[k].read.value.gyroZ
    decreases |wakes|
  {
    var n := |wakes| - 1;
    if k == n {
      assert wakes[..k + 1] == wakes;
      TaskIsTwoFilters(boot, wakes);
    } else {
      assert wakes[..n][..k + 1] == wakes[..k + 1];
      PublishedAttitude(boot, wakes[..n], k);
    }
  }

  lemma {:induction false} NothingPublished(boot: uint32, wakes: seq<Wake>)
    requires forall j :: 0 <= j < |wakes| ==> !Publishes(wakes[j])
    ensures TaskRun(boot, wakes).shared == Attitude(0.0, 0.0, 0.0)
    decreases |wakes|
  {
    if wakes != [] {
      NothingPublished(boot, wakes[..|wakes| - 1]);
    }
  }

  /** Two runs that differ in nothing that the given axis is measured by. */
  predicate SameAxis(v: seq<Wake>, w: seq<Wake>, accel: Sample -> real, gyro: Sample -> real) {
    |v| == |w| && forall j :: 0 <= j < |v| ==>
      && v[j].now == w[j].now && v[j].taken == w[j].taken && v[j].read.Some? == w[j].read.Some?
      && (v[j].read.Some? ==> accel(v[j].read.value) == accel(w[j].read.value)
                              && gyro(v[j].read.value) == gyro(w[j].read.value))
  }

  lemma {:induction false} SameInputs(boot: uint32, v: seq<Wake>, w: seq<Wake>, accel: Sample -> real, gyro: Sample -> real)
    requires SameAxis(v, w, accel, gyro)
    ensures Inputs(boot, v, accel, gyro) == Inputs(boot, w, accel, gyro)
    decreases |v|
  {
    if v != [] {
      SameInputs(boot, v[..|v| - 1], w[..|w| - 1], accel, gyro);
    }
  }

  lemma LastPublishedExists(wakes: seq<Wake>) returns (k: int)
    ensures k < 0 ==> forall j :: 0 <= j < |wakes| ==> !Publishes(wakes[j])
    ensures k >= 0 ==> LastPublished(wakes, k)
  {
    k := |wakes| - 1;
    while k >= 0 && !Publishes(wakes[k])
      invariant -1 <= k < |wakes|
      invariant forall j :: k < j < |wakes| ==> !Publishes(wakes[j])
    {
      k := k - 1;
    }
  }

  /** So nothing measured about the other axis, or about z, has any influence on the published pitch. */
  lemma PitchIsItsOwn(boot: uint32, v: seq<Wake>, w: seq<Wake>)
    requires SameAxis(v, w, AccelPitch, GyroX)
    ensures TaskRun(boot, v).shared.pitch == TaskRun(boot, w).shared.pitch
  {
    var k := LastPublishedExists(v);
    if k < 0 {
      NothingPublished(boot, v);
      NothingPublished(boot, w);
    } else {
      SameInputs(boot, v[..k + 1], w[..k + 1], AccelPitch, GyroX);
      PublishedAttitude(boot, v, k);
      PublishedAttitude(boot, w, k);
    }
  }

  lemma RollIsItsOwn(boot: uint32, v: seq<Wake>, w: seq<Wake>)
    requires SameAxis(v, w, AccelRoll, GyroY)
    ensures TaskRun(boot, v).shared.roll == TaskRun(boot, w).shared.roll
  {
    var k := LastPublishedExists(v);
    if k < 0 {
      NothingPublished(boot, v);
      NothingPublished(boot, w);
    } else {
      SameInputs(boot, v[..k + 1], w[..k + 1], AccelRoll, GyroY);
      PublishedAttitude(boot, v, k);
      PublishedAttitude(boot, w, k);
    }
  }

  class Task {
    // main.c gives the pitch data to kf_roll and the roll data to kf_pitch
    const kfRoll: KalmanFilter
    const kfPitch: KalmanFilter
    var lastUs: uint32
    var pitchDeg: real
    var rollDeg: real
    var yawRate: real

    ghost predicate Valid()
      reads this, kfRoll, kfPitch
    {
      && kfRoll != kfPitch
      && kfRoll.Parameters() == kfPitch.Parameters() == DEFAULT_PARAMS
      && SafeImu(State())
    }

    ghost function State(): Imu
      reads this, kfRoll, kfPitch
    {
      Imu(lastUs, kfRoll.State(), kfPitch.State(), Attitude(pitchDeg, rollDeg, yawRate))
    }

    constructor (boot: uint32)
      ensures Valid() && fresh(kfRoll) && fresh(kfPitch) && State() == TaskRun(boot, [])
    {
      kfRoll := new KalmanFilter();
      kfPitch := new KalmanFilter();
      lastUs := boot;
      pitchDeg, rollDeg, yawRate := 0.0, 0.0, 0.0;
      new;
      InitialIsSafe();
    }

    method Iterate(w: Wake)
      requires Valid()
      modifies this, kfRoll, kfPitch
      ensures Valid() && State() == Step(old(State()), w)
    {
      var dt := GuardedDt(w.now, lastUs);
      lastUs := w.now;
      if w.read.Some? {
        var r := w.read.value;
        TickIsSafe(kfRoll.State(), Input(r.accelPitch, r.gyroX, dt));
        TickIsSafe(kfPitch.State(), Input(r.accelRoll, r.gyroY, dt));
        var pitch := kfRoll.Update(r.accelPitch, r.gyroX, dt);
        var roll := kfPitch.Update(r.accelRoll, r.gyroY, dt);
        if w.taken {
          pitchDeg := pitch - PITCH_OFFSET_DEG;
          rollDeg := roll - ROLL_OFFSET_DEG;
          yawRate := r.gyroZ;
        }
      }
    }
  }
}
