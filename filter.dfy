/**
 * The smoothing filters of the curve widget (Filter.cs): a spike limiter,
 * a first-order low-pass filter and a one-dimensional Kalman filter, each an
 * object whose Filter calls update its private state, and the factories
 * that create them. Doubles are modelled as `real`; the "not yet
 * initialised" NaN sentinel of the Kalman filter becomes `None`.
 */
module Filters {
  import opened Numeric
  import opened Wrappers

  /** FilterType: which filter a channel gets. */
  datatype FilterType = FNone | FFirst | FKalman | FLimit

  /** FilterLimit.range: a jump larger than this is a spike. */
  const LimitRange: int := 10

  /** FirstOrderFilter.a: the weight of the new measurement. */
  const FirstOrderWeight: real := 0.6

  // ---------------------------------------------------------------------
  // Spike limiter

  /** The new `final` of FilterLimit after one measurement. */
  function LimitStep(final: real, m: real): (r: real)
    ensures LimitRange as real < Abs(final - m) ==> r == (m + final) / 2.0
    ensures Abs(final - m) <= LimitRange as real ==> r == m
  {
    if LimitRange as real < Abs(final - m) then (m + final) / 2.0 else m
  }

  /** The output never leaves the interval between the previous output and the measurement. */
  lemma LimitStepBetween(final: real, m: real)
    ensures final <= m ==> final <= LimitStep(final, m) <= m
    ensures m <= final ==> m <= LimitStep(final, m) <= final
    ensures Abs(LimitStep(final, m) - m) <= Abs(final - m) / 2.0
  {
  }

  /** `n` identical measurements `m` fed to a limiter whose output was `final`. */
  function LimitRun(final: real, m: real, n: nat): real
    decreases n
  {
    if n == 0 then final else LimitRun(LimitStep(final, m), m, n - 1)
  }

  function Pow2(n: nat): (p: nat)
    ensures p >= 1
  {
    if n == 0 then 1 else 2 * Pow2(n - 1)
  }

  /**
   * A sustained level shift is absorbed: a jump of at most 10 * 2^n is
   * halved at each step until the limiter adopts the new level, after n + 1
   * measurements at most, and keeps it from then on.
   */
  lemma {:induction false} LimitSettles(final: real, m: real, n: nat)
    requires Abs(final - m) <= (LimitRange * Pow2(n)) as real
    ensures LimitRun(final, m, n + 1) == m
    decreases n
  {
    if Abs(final - m) <= LimitRange as real {
      LimitStaysAt(m, n);
    } else {
      assert n > 0;
      var next := LimitStep(final, m);
      assert Abs(next - m) == Abs(final - m) / 2.0;
      assert (LimitRange * Pow2(n)) as real == 2.0 * (LimitRange * Pow2(n - 1)) as real;
      LimitSettles(next, m, n - 1);
    }
  }

  /** Once the output equals a repeated measurement it stays there. */
  lemma {:induction false} LimitStaysAt(m: real, n: nat)
    ensures LimitRun(m, m, n) == m
  {
    if n > 0 {
      LimitStaysAt(m, n - 1);
    }
  }

  class FilterLimit {
    var final: real

    constructor ()
      ensures final == 0.0
    {
      final := 0.0;
    }

    /** Initialize: forget the previous output. */
    method Initialize()
      modifies this
      ensures final == 0.0
    {
      final := 0.0;
    }

    /** Filter(measurement): damp a spike to the midpoint, otherwise adopt the measurement. */
    method Filter(measurement: real) returns (r: real)
      modifies this
      ensures final == LimitStep(old(final), measurement)
      ensures r == final
    {
      if LimitRange as real < Abs(final - measurement) {
        final := (measurement + final) / 2.0;
      } else {
        final := measurement;
      }
      r := final;
    }

    /** Filter(measurement, u): the control input is ignored. */
    method FilterWithControl(measurement: real, u: real) returns (r: real)
      modifies this
      ensures final == LimitStep(old(final), measurement)
      ensures r == final
    {
      r := Filter(measurement);
    }
  }

  // ---------------------------------------------------------------------
  // First-order low-pass filter

  /** The new `final` of FilterFirstOrder for weight `a`: a*m + (1-a)*final. */
  function FirstOrderStep(final: real, m: real, a: real): (r: real)
    ensures a == 1.0 ==> r == m
    ensures a == 0.0 ==> r == final
    ensures r - m == (1.0 - a) * (final - m)
  {
    a * m + (1.0 - a) * final
  }

  /** With a weight in [0, 1] the output is a convex combination of old output and measurement. */
  lemma FirstOrderBetween(final: real, m: real, a: real)
    requires 0.0 <= a <= 1.0
    ensures final <= m ==> final <= FirstOrderStep(final, m, a) <= m
    ensures m <= final ==> m <= FirstOrderStep(final, m, a) <= final
  {
    var r := FirstOrderStep(final, m, a);
    assert r - final == a * (m - final);
    assert m - r == (1.0 - a) * (m - final);
    if final <= m {
      ProductNonNegative(a, m - final);
      ProductNonNegative(1.0 - a, m - final);
    } else {
      ProductNonNegative(a, final - m);
      ProductNonNegative(1.0 - a, final - m);
    }
  }

  lemma ProductNonNegative(x: real, y: real)
    requires x >= 0.0 && y >= 0.0
    ensures x * y >= 0.0
  {
  }

  function Pow(x: real, n: nat): real
  {
    if n == 0 then 1.0 else x * Pow(x, n - 1)
  }

  /** `n` identical measurements `m` fed at weight `a` to a filter whose output was `final`. */
  function FirstOrderRun(final: real, m: real, a: real, n: nat): real
    decreases n
  {
    if n == 0 then final else FirstOrderRun(FirstOrderStep(final, m, a), m, a, n - 1)
  }

  /** The distance to a constant input shrinks geometrically by the factor 1 - a. */
  lemma FirstOrderRunDistance(final: real, m: real, a: real, n: nat)
    ensures FirstOrderRun(final, m, a, n) - m == Pow(1.0 - a, n) * (final - m)
  {
    RunDistance(final, m, a, 1.0 - a, n);
  }

  /** The same with the factor named, so that it stays a single term in the arithmetic. */
  lemma {:induction false} RunDistance(final: real, m: real, a: real, c: real, n: nat)
    requires c == 1.0 - a
    ensures FirstOrderRun(final, m, a, n) - m == Pow(c, n) * (final - m)
    decreases n
  {
    if n > 0 {
      var next := FirstOrderStep(final, m, a);
      var x := FirstOrderRun(final, m, a, n);
      var q := Pow(c, n - 1);
      assert x == FirstOrderRun(next, m, a, n - 1);
      assert Pow(c, n) == c * q;
      RunDistance(next, m, a, c, n - 1);
      Chain(x - m, Pow(c, n), q, c, final - m, next - m);
    }
  }

  /** Two scalings in a row are one scaling by their product. */
  lemma Chain(x: real, p: real, q: real, c: real, z: real, y: real)
    requires x == q * y && y == c * z && p == c * q
    ensures x == p * z
  {
  }

  class FilterFirstOrder {
    var final: real
    const a: real

    constructor ()
      ensures final == 0.0 && a == FirstOrderWeight
    {
      final := 0.0;
      a := FirstOrderWeight;
    }

    /** Initialize: the source's body is empty. */
    method Initialize()
      ensures final == old(final)
    {
    }

    /** Filter(measurement): exponential moving average with the fixed weight. */
    method Filter(measurement: real) returns (r: real)
      modifies this
      ensures final == FirstOrderStep(old(final), measurement, a)
      ensures r == final
    {
      final := a * measurement + (1.0 - a) * final;
      r := final;
    }

    /** Filter(measurement, u): the control input replaces the weight. */
    method FilterWithControl(measurement: real, u: real) returns (r: real)
      modifies this
      ensures final == FirstOrderStep(old(final), measurement, u)
      ensures u == 1.0 ==> r == measurement
      ensures u == 0.0 ==> r == old(final)
      ensures r == final
    {
      final := u * measurement + (1.0 - u) * final;
      r := final;
    }
  }

  // ---------------------------------------------------------------------
  // One-dimensional Kalman filter

  /** The estimate and its covariance once the filter has seen a measurement. */
  datatype KalmanEstimate = KalmanEstimate(x: real, cov: real)

  /**
   * One Kalman update. `est` is the estimate so far (None before the first
   * measurement); `noise` is the variance added by the prediction step, which
   * is R in Filter(measurement) and Q in Filter(measurement, u).
   */
  function KalmanStep(est: Option<KalmanEstimate>, A: real, B: real, H: real,
                      noise: real, Q: real, m: real, u: real): (r: KalmanEstimate)
    requires H != 0.0 && Q > 0.0 && noise >= 0.0
    requires est.Some? ==> est.value.cov >= 0.0
    ensures r.cov >= 0.0
    ensures est.Some? ==> r.cov <= A * est.value.cov * A + noise
  {
    match est
    case None =>
      KalmanEstimate((1.0 / H) * m, (1.0 / H) * Q * (1.0 / H))
    case Some(e) =>
      SquareScaled(A, e.cov);
      KalmanCorrect(A * e.x + B * u, A * e.cov * A + noise, H, Q, m)
  }

  /** The correction of a prediction (predX, predCov) by measurement m. */
  function KalmanCorrect(predX: real, predCov: real, H: real, Q: real, m: real): (r: KalmanEstimate)
    requires Q > 0.0 && predCov >= 0.0
    ensures 0.0 <= r.cov <= predCov
  {
    SquareScaled(H, predCov);
    var K := predCov * H * (1.0 / (H * predCov * H + Q));
    GainShrinks(predCov, H, Q);
    KalmanEstimate(predX + K * (m - H * predX), predCov - K * H * predCov)
  }

  /** With gain K = P·H/(H·P·H + Q), the reduction K·H·P of P lies in [0, P]. */
  lemma GainShrinks(P: real, H: real, Q: real)
    requires P >= 0.0 && Q > 0.0
    ensures var K := P * H * (1.0 / (H * P * H + Q));
            0.0 <= P - K * H * P <= P
  {
    SquareScaled(H, P);
    var S := H * P * H;
    var D := S + Q;
    var K := P * H * (1.0 / D);
    var t := S / D;
    GainFraction(S, Q);
    assert K * H * P == t * P by {
      assert K * H * P == (H * P * H) * P * (1.0 / D);
    }
    ProductNonNegative(t, P);
    ProductNonNegative(1.0 - t, P);
    assert P - t * P == (1.0 - t) * P;
  }

  /** The first measurement initialises the estimate to m/H with covariance Q/H². */
  lemma KalmanFirst(A: real, B: real, H: real, noise: real, Q: real, m: real, u: real)
    requires H != 0.0 && Q > 0.0 && noise >= 0.0
    ensures KalmanStep(None, A, B, H, noise, Q, m, u) == KalmanEstimate(m / H, Q / (H * H))
  {
  }

  /**
   * The corrected covariance is P·Q/(H²P + Q) for the predicted covariance
   * P: never negative and never above P, so the update is always defined.
   */
  lemma KalmanCovariance(e: KalmanEstimate, A: real, B: real, H: real,
                         noise: real, Q: real, m: real, u: real)
    requires H != 0.0 && Q > 0.0 && noise >= 0.0 && e.cov >= 0.0
    ensures var P := A * e.cov * A + noise;
            var r := KalmanStep(Some(e), A, B, H, noise, Q, m, u);
            0.0 <= r.cov <= P
  {
    SquareScaled(A, e.cov);
    CorrectedCovariance(A * e.x + B * u, A * e.cov * A + noise, H, Q, m);
  }

  /** h·p·h is non-negative whenever p is. */
  lemma SquareScaled(h: real, p: real)
    requires p >= 0.0
    ensures h * p * h >= 0.0
  {
    assert h * p * h == (h * h) * p;
    assert h * h >= 0.0;
    ProductNonNegative(h * h, p);
  }

  /** The corrected covariance P - K·H·P with gain K = P·H/(H·P·H + Q) lies in [0, P]. */
  lemma CorrectedCovariance(predX: real, P: real, H: real, Q: real, m: real)
    requires P >= 0.0 && Q > 0.0
    ensures 0.0 <= KalmanCorrect(predX, P, H, Q, m).cov <= P
  {
    SquareScaled(H, P);
    var S := H * P * H;
    var D := S + Q;
    var K := P * H * (1.0 / D);
    var t := S / D;
    GainFraction(S, Q);
    assert K * H * P == t * P by {
      assert K * H * P == (H * P * H) * P * (1.0 / D);
    }
    ProductNonNegative(t, P);
    ProductNonNegative(1.0 - t, P);
    assert P - t * P == (1.0 - t) * P;
  }

  /** s/(s + q) is a fraction in [0, 1] for s >= 0 and q > 0. */
  lemma GainFraction(s: real, q: real)
    requires s >= 0.0 && q > 0.0
    ensures 0.0 <= s / (s + q) <= 1.0
  {
  }

  /**
   * With unit observation gain the corrected estimate lies between the
   * prediction A·x + B·u and the measurement.
   */
  lemma KalmanBetween(e: KalmanEstimate, A: real, B: real, noise: real, Q: real, m: real, u: real)
    requires Q > 0.0 && noise >= 0.0 && e.cov >= 0.0
    ensures var predX := A * e.x + B * u;
            var r := KalmanStep(Some(e), A, B, 1.0, noise, Q, m, u);
            (predX <= m ==> predX <= r.x <= m) && (m <= predX ==> m <= r.x <= predX)
  {
    SquareScaled(A, e.cov);
    CorrectedBetween(A * e.x + B * u, A * e.cov * A + noise, Q, m);
  }

  lemma CorrectedBetween(predX: real, P: real, Q: real, m: real)
    requires P >= 0.0 && Q > 0.0
    ensures var r := KalmanCorrect(predX, P, 1.0, Q, m);
            (predX <= m ==> predX <= r.x <= m) && (m <= predX ==> m <= r.x <= predX)
  {
    var K := P * 1.0 * (1.0 / (1.0 * P * 1.0 + Q));
    assert K == P / (P + Q);
    GainFraction(P, Q);
    FirstOrderBetween(predX, m, K);
    assert predX + K * (m - 1.0 * predX) == FirstOrderStep(predX, m, K);
  }

  class FilterKalman {
    var A: real
    var B: real
    var H: real
    var R: real
    var Q: real
    var cov: Option<real>
    var x: Option<real>

    /**
     * The noise variances are non-negative (the measurement noise strictly)
     * and the observation gain non-zero, so no update divides by zero; the
     * two NaN sentinels are set and cleared together.
     */
    ghost predicate Valid()
      reads this
    {
      H != 0.0 && Q > 0.0 && R >= 0.0 && (x.Some? <==> cov.Some?) &&
      (cov.Some? ==> cov.value >= 0.0)
    }

    /** The estimate, None until the first measurement. */
    ghost function Estimate(): Option<KalmanEstimate>
      reads this
      requires Valid()
    {
      if x.Some? then Some(KalmanEstimate(x.value, cov.value)) else None
    }

    /** FilterKalman(R, Q, A, B, H). */
    constructor Full(R: real, Q: real, A: real, B: real, H: real)
      requires H != 0.0 && Q > 0.0 && R >= 0.0
      ensures Valid() && Estimate() == None
      ensures this.R == R && this.Q == Q && this.A == A && this.B == B && this.H == H
    {
      this.R, this.Q := R, Q;
      this.A, this.B, this.H := A, B, H;
      this.cov, this.x := None, None;
    }

    /** FilterKalman(R, Q): the field initialisers give A = 1, B = 0, H = 1. */
    constructor (R: real, Q: real)
      requires Q > 0.0 && R >= 0.0
      ensures Valid() && Estimate() == None
      ensures this.R == R && this.Q == Q && A == 1.0 && B == 0.0 && H == 1.0
    {
      A, B, H := 1.0, 0.0, 1.0;
      cov, x := None, None;
      this.R, this.Q := R, Q;
    }

    /** Initialize: the source's body is empty. */
    method Initialize()
      ensures x == old(x) && cov == old(cov)
    {
    }

    /** Filter(measurement): predict with the process noise R, no control input. */
    method Filter(measurement: real) returns (r: real)
      requires Valid()
      modifies this`x, this`cov
      ensures Valid()
      ensures var k := KalmanStep(old(Estimate()), A, B, H, R, Q, measurement, 0.0);
              x == Some(k.x) && cov == Some(k.cov)
      ensures x == Some(r)
    {
      r := Update(measurement, 0.0, R);
    }

    /** Filter(measurement, u): predict with control input u but with the measurement noise Q. */
    method FilterWithControl(measurement: real, u: real) returns (r: real)
      requires Valid()
      modifies this`x, this`cov
      ensures Valid()
      ensures var k := KalmanStep(old(Estimate()), A, B, H, Q, Q, measurement, u);
              x == Some(k.x) && cov == Some(k.cov)
      ensures x == Some(r)
    {
      r := Update(measurement, u, Q);
    }

    /**
     * The body shared by both Filter overloads: initialise on the first
     * measurement, otherwise predict (adding `noise` to the covariance) and
     * correct.
     */
    method Update(measurement: real, u: real, noise: real) returns (r: real)
      requires Valid() && noise >= 0.0
      modifies this`x, this`cov
      ensures Valid()
      ensures var k := KalmanStep(old(Estimate()), A, B, H, noise, Q, measurement, u);
              x == Some(k.x) && cov == Some(k.cov)
      ensures x == Some(r)
    {
      ghost var before := Estimate();
      var a, b, h, q := A, B, H, Q;
      var nx, ncov;
      if x.None? {
        SquareScaled(1.0 / h, q);
        nx := (1.0 / h) * measurement;
        ncov := (1.0 / h) * q * (1.0 / h);
      } else {
        var x0, cov0 := x.value, cov.value;
        var predX := (a * x0) + (b * u);
        var predCov := ((a * cov0) * a) + noise;
        SquareScaled(a, cov0);
        SquareScaled(h, predCov);
        var K := predCov * h * (1.0 / ((h * predCov * h) + q));
        nx := predX + K * (measurement - (h * predX));
        ncov := predCov - (K * h * predCov);
        ghost var c := KalmanCorrect(predX, predCov, h, q, measurement);
        assert c.x == nx && c.cov == ncov;
        CorrectedCovariance(predX, predCov, h, q, measurement);
      }
      ghost var k := KalmanStep(before, a, b, h, noise, q, measurement, u);
      assert k.x == nx && k.cov == ncov;
      x, cov := Some(nx), Some(ncov);
      r := nx;
    }
  }

  // ---------------------------------------------------------------------
  // Factories

  /** FilterAlgorithm: the abstract filter a channel holds, one case per concrete class. */
  datatype FilterAlgorithm =
    | LimitFilter(limit: FilterLimit)
    | FirstOrderFilter(firstOrder: FilterFirstOrder)
    | KalmanFilter(kalman: FilterKalman)

  /** LimitFactory, FirstOrderFactory, KalmanFactory. */
  datatype FilterFactory = LimitFactory | FirstOrderFactory | KalmanFactory

  /** FilterFactory.CreateFilter for each factory. */
  method CreateFilter(factory: FilterFactory) returns (alg: FilterAlgorithm)
    ensures factory == LimitFactory ==> alg.LimitFilter? && fresh(alg.limit) && alg.limit.final == 0.0
    ensures factory == FirstOrderFactory ==>
              alg.FirstOrderFilter? && fresh(alg.firstOrder) &&
              alg.firstOrder.final == 0.0 && alg.firstOrder.a == FirstOrderWeight
    ensures factory == KalmanFactory ==>
              alg.KalmanFilter? && fresh(alg.kalman) && alg.kalman.Valid() &&
              alg.kalman.Estimate() == None &&
              alg.kalman.R == 0.008 && alg.kalman.Q == 0.1 &&
              alg.kalman.A == 1.0 && alg.kalman.B == 0.0 && alg.kalman.H == 1.0
  {
    match factory
    case LimitFactory =>
      var f := new FilterLimit();
      alg := LimitFilter(f);
    case FirstOrderFactory =>
      var f := new FilterFirstOrder();
      alg := FirstOrderFilter(f);
    case KalmanFactory =>
      var f := new FilterKalman(0.008, 0.1);
      alg := KalmanFilter(f);
  }

  /** The default Kalman filter returns its first measurement unchanged. */
  lemma KalmanFactoryFirstOutput(m: real)
    ensures KalmanStep(None, 1.0, 0.0, 1.0, 0.008, 0.1, m, 0.0).x == m
    ensures KalmanStep(None, 1.0, 0.0, 1.0, 0.1, 0.1, m, 0.0).x == m
  {
  }
}
