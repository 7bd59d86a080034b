/**
 What the trend and its interval say about prices that are known exactly, and what each published number is.
 */
module EstimateLaws {
  import opened Options
  import opened Reals
  import opened Matrices
  import opened Elimination
  import opened CausalTrend
  import opened TrendExists
  import opened Conformal

  // ---------------------------------------------------------------- prices on a curve

  /** The curve a + b i + c i^2 at bar `i`, counted from the oldest. */
  function Curve(a: real, b: real, c: real, i: real): real { a + b * i + c * (i * i) }

  predicate OnCurve(logs: seq<real>, a: real, b: real, c: real) {
    forall i :: 0 <= i < |logs| ==> logs[i] == Curve(a, b, c, i as real)
  }

  lemma Recentred(a: real, b: real, c: real, last: real, t: real)
    ensures Curve(a, b, c, last + t) == Curve(a, b, c, last) + (b + 2.0 * c * last) * t + c * (t * t)
  { }

  /** Every window of a curve is a parabola about its newest bar. */
  lemma WindowOnParabola(logs: seq<real>, window: nat, a: real, b: real, c: real, last: real)
    requires OnCurve(logs, a, b, c) && 2 <= window <= |logs| && last == (|logs| - 1) as real
    ensures OnParabola(logs[|logs| - window..], Curve(a, b, c, last), b + 2.0 * c * last, c)
  {
    var w := logs[|logs| - window..];
    forall j | 0 <= j < |w| ensures w[j] == Parabola(Curve(a, b, c, last), b + 2.0 * c * last, c, |w|, j) {
      var i := |logs| - window + j;
      assert w[j] == logs[i];
      assert i as real == last + (j as real - Span(|w|));
      Recentred(a, b, c, last, j as real - Span(|w|));
    }
  }

  /** On a curve the trend of the newest window is its slope and its bend at the newest bar. */
  lemma CurveTrend(root: real -> real, logs: seq<real>, window: nat, a: real, b: real, c: real, last: real)
    requires IsRoot(root) && OnCurve(logs, a, b, c) && 5 <= window <= |logs| && last == (|logs| - 1) as real
    ensures var t := TrendFromLogs(root, logs, window); t.Some? && Exactly(t.value, b + 2.0 * c * last, c)
  {
    TrendExactly(root, logs, window);
    WindowOnParabola(logs, window, a, b, c, last);
    QuadraticRecovered(root, logs[|logs| - window..], Curve(a, b, c, last), b + 2.0 * c * last, c);
  }

  lemma NextOnCurve(a: real, b: real, c: real, last: real, v: real)
    requires v == b + 2.0 * c * last
    ensures v + 2.0 * c / 2.0 == Curve(a, b, c, last + 1.0) - Curve(a, b, c, last)
  { }

  /** Its one-bar prediction is the next step of the curve. */
  lemma CurvePredicted(root: real -> real, logs: seq<real>, window: nat, a: real, b: real, c: real)
    requires IsRoot(root) && OnCurve(logs, a, b, c) && 5 <= window <= |logs|
    ensures TrendPrediction(root, window)(logs)
         == Some(Curve(a, b, c, |logs| as real) - Curve(a, b, c, (|logs| - 1) as real))
  {
    var last := (|logs| - 1) as real;
    CurveTrend(root, logs, window, a, b, c, last);
    NextOnCurve(a, b, c, last, b + 2.0 * c * last);
  }

  lemma CurveResidual(root: real -> real, logs: seq<real>, window: nat, a: real, b: real, c: real, target: nat)
    requires IsRoot(root) && OnCurve(logs, a, b, c) && 5 <= window <= target < |logs|
    ensures ResidualAt(TrendPrediction(root, window), logs, target) == Some(RESIDUAL_FLOOR)
  {
    assert OnCurve(logs[..target], a, b, c);
    CurvePredicted(root, logs[..target], window, a, b, c);
    assert logs[target] == Curve(a, b, c, target as real);
    assert logs[target - 1] == Curve(a, b, c, (target - 1) as real);
  }

  /** `n` times the same number. */
  function Level(n: nat, x: real): (s: seq<real>)
    ensures |s| == n && forall i :: 0 <= i < n ==> s[i] == x
  {
    if n == 0 then [] else Level(n - 1, x) + [x]
  }

  /** Every bar from `first` on leaves the same residual. */
  ghost predicate SameResidual(fit: seq<real> -> Option<real>, logs: seq<real>, first: nat, x: real)
    requires first > 0
  {
    forall target :: first <= target < |logs| ==> ResidualAt(fit, logs, target) == Some(x)
  }

  lemma {:induction false} LevelResiduals(fit: seq<real> -> Option<real>, logs: seq<real>, first: nat, upto: nat,
                                          x: real)
    requires 0 < first <= upto <= |logs| && SameResidual(fit, logs, first, x)
    ensures Residuals(fit, logs, first, upto) == Some(Level(upto - first, x))
  {
    if upto > first { LevelResiduals(fit, logs, first, upto - 1, x); }
  }

  lemma {:induction false} LevelHits(rs: seq<real>, x: real, level: real, upto: nat)
    requires WARM_UP <= upto <= |rs| && forall i :: 0 <= i < |rs| ==> rs[i] == x
    ensures Hits(rs, level, upto) == upto - WARM_UP
  {
    if upto > WARM_UP {
      LevelHits(rs, x, level, upto - 1);
      FlatQuantile(rs[..upto - 1], x, level);
    }
  }

  lemma LevelConcluded(rs: seq<real>, x: real, endpoint: real, level: real)
    requires |rs| > WARM_UP && forall i :: 0 <= i < |rs| ==> rs[i] == x
    ensures var v := Conclude(rs, Some(endpoint), level);
      && v.Some? && v.value.halfWidth == x && v.value.coverage == 1.0 && v.value.predicted == endpoint
      && v.value.size == |rs| && v.value.checked == |rs| - 20
  {
    LevelHits(rs, x, level, |rs|);
    FlatQuantile(rs, x, level);
    WholeShare((|rs| - WARM_UP) as real);
  }

  lemma FlatQuantile(s: seq<real>, x: real, level: real)
    requires |s| > 0 && forall i :: 0 <= i < |s| ==> s[i] == x
    ensures Quantile(s, level) == x
  {
    QuantileExactly(s, level, x);
    assert Quantile(s, level) in s;
  }

  lemma LevelInterval(fit: seq<real> -> Option<real>, logs: seq<real>, window: nat, size: nat, level: real, x: real)
    requires Acceptable(|logs|, window, size, level) && size > 20 && fit(logs).Some?
    requires SameResidual(fit, logs, |logs| - size, x)
    ensures var v := ReturnInterval(fit, logs, window, size, level);
      && v.Some? && v.value.halfWidth == x && v.value.coverage == 1.0 && v.value.predicted == fit(logs).value
      && v.value.size == size && v.value.checked == size - 20
  {
    LevelResiduals(fit, logs, |logs| - size, |logs|, x);
    LevelConcluded(Level(size, x), x, fit(logs).value, level);
  }

  /**
   On prices that follow a curve, the published interval predicts its next step, is as narrow as an interval can
   be, and has covered every step it was compared with.
   */
  lemma CurveInterval(root: real -> real, logs: seq<real>, window: nat, size: nat, level: real, a: real, b: real,
                      c: real)
    requires IsRoot(root) && OnCurve(logs, a, b, c)
    requires window >= 5 && size > 20 && 0.5 < level < 1.0 && |logs| >= window + size
    ensures var v := ReturnInterval(TrendPrediction(root, window), logs, window, size, level);
      && v.Some? && v.value.halfWidth == RESIDUAL_FLOOR && v.value.coverage == 1.0
      && v.value.predicted == Curve(a, b, c, |logs| as real) - Curve(a, b, c, (|logs| - 1) as real)
      && v.value.size == size && v.value.checked == size - 20
  {
    var fit := TrendPrediction(root, window);
    CurvePredicted(root, logs, window, a, b, c);
    forall target | |logs| - size <= target < |logs| ensures ResidualAt(fit, logs, target) == Some(RESIDUAL_FLOOR) {
      CurveResidual(root, logs, window, a, b, c, target);
    }
    LevelInterval(fit, logs, window, size, level, RESIDUAL_FLOOR);
  }

  lemma WholeShare(x: real)
    requires x > 0.0
    ensures x / x == 1.0
  { }

  // ---------------------------------------------------------------- prices on a line

  lemma {:induction false} LineEnergy(logs: seq<real>, a: real, d: real, n: nat)
    requires OnCurve(logs, a, d, 0.0) && 1 <= n <= |logs|
    ensures ReturnEnergy(logs, n) == (n - 1) as real * (d * d)
  {
    if n > 1 {
      LineEnergy(logs, a, d, n - 1);
      assert logs[n - 1] == Curve(a, d, 0.0, (n - 1) as real);
      assert logs[n - 2] == Curve(a, d, 0.0, (n - 2) as real);
      assert logs[n - 1] - logs[n - 2] == d;
      OneMore((n - 2) as real, d * d);
    }
  }

  lemma OneMore(k: real, x: real)
    ensures k * x + x == (k + 1.0) * x
  { }

  /** On a line the root mean square of the returns is the size of its step. */
  lemma LineRms(root: real -> real, energy: real, span: real, d: real)
    requires IsRoot(root) && span > 0.0 && energy == span * (d * d)
    ensures root(energy / span) == Abs(d)
  {
    UniqueQuotient(d * d, span, energy);
    Square(d);
    SameRoot(root(d * d), Abs(d));
  }

  lemma SameRoot(x: real, y: real)
    requires x >= 0.0 && y >= 0.0 && x * x == y * y
    ensures x == y
  {
    assert (x - y) * (x + y) == x * x - y * y;
    if x > y { StrictProduct(x - y, x + y); }
    if y > x { StrictProduct(y - x, x + y); }
  }

  /** What a line with step `d` publishes: the step, no bend, a ratio of full size and complete confidence. */
  predicate LineTrend(t: Trend, d: real) {
    && t.velocity == d && t.acceleration == 0.0 && t.rms == Abs(d) && t.residualStd == 0.0 && t.r2 == 1.0
    && t.velocityRatio == (if d > 0.0 then 1.0 else -1.0) && t.accelerationRatio == 0.0 && t.confidence == 1.0
    && t.direction == if d > 0.0 then Rising else Falling
  }

  lemma LineRatios(root: real -> real, span: real, energy: real, c: Vec, weights: real, variation: real, d: real)
    requires IsRoot(root) && span > 0.0 && weights > 0.0 && Abs(d) > EPSILON && root(energy / span) == Abs(d)
    requires Exactly(Publish(root, span, energy, c, weights, 0.0, variation), d, 0.0)
    ensures LineTrend(Publish(root, span, energy, c, weights, 0.0, variation), d)
  {
    UniqueQuotient(if d > 0.0 then 1.0 else -1.0, Abs(d), d);
    UniqueQuotient(0.0, Abs(d), 0.0);
  }

  lemma LineFit(logs: seq<real>, a: real, d: real, s: seq<Sample>, v: Vec)
    requires |logs| >= 5 && OnCurve(logs, a, d, 0.0) && s == SamplesUpTo(logs, |logs|)
    requires v == Rescaled(d, 0.0, Span(|logs|)) && Solve(NormalSystem(s)).Some?
    ensures Solve(NormalSystem(s)) == Some(v) && SquaredError(s, v) == 0.0
  {
    var last := (|logs| - 1) as real;
    WindowOnParabola(logs, |logs|, a, d, 0.0, last);
    assert logs[|logs| - |logs|..] == logs;
    assert d + 2.0 * 0.0 * last == d;
    RecoveredFit(logs, Curve(a, d, 0.0, last), d, 0.0);
  }

  lemma LinePublished(root: real -> real, span: real, energy: real, weights: real, variation: real, v: Vec, d: real)
    requires IsRoot(root) && span > 0.0 && weights > 0.0 && Abs(d) > EPSILON && energy == span * (d * d)
    requires v == Rescaled(d, 0.0, span)
    ensures LineTrend(Publish(root, span, energy, v, weights, 0.0, variation), d)
  {
    LineRms(root, energy, span, d);
    CausalTrend.PublishedExactly(root, span, energy, v, d, 0.0, weights, variation);
    LineRatios(root, span, energy, v, weights, variation, d);
  }

  lemma {:induction false} WindowIs(root: real -> real, logs: seq<real>, s: seq<Sample>, c: Vec)
    requires IsRoot(root) && |logs| >= 2 && s == SamplesUpTo(logs, |logs|) && Solve(NormalSystem(s)) == Some(c)
    requires Moment(s, 0) > 0.0
    ensures WindowTrend(root, logs)
         == Some(Publish(root, Span(|logs|), ReturnEnergy(logs, |logs|), c, Moment(s, 0), SquaredError(s, c),
                         Variation(s, Target(s, 0) / Moment(s, 0))))
  { }

  lemma {:induction false} LineWindow(root: real -> real, logs: seq<real>, a: real, d: real, s: seq<Sample>, c: Vec)
    requires IsRoot(root) && |logs| >= 5 && OnCurve(logs, a, d, 0.0) && Abs(d) > EPSILON
    requires s == SamplesUpTo(logs, |logs|) && c == Rescaled(d, 0.0, Span(|logs|)) && SquaredError(s, c) == 0.0
    requires Solve(NormalSystem(s)) == Some(c) && Moment(s, 0) > 0.0
    ensures WindowTrend(root, logs).Some? && LineTrend(WindowTrend(root, logs).value, d)
  {
    var n := |logs|;
    WindowIs(root, logs, s, c);
    LineEnergy(logs, a, d, n);
    LinePublished(root, Span(n), ReturnEnergy(logs, n), Moment(s, 0), Variation(s, Target(s, 0) / Moment(s, 0)), c, d);
  }

  /** The whole estimate on a line: exact, and as sure of itself as it can be. */
  lemma {:induction false} LineEstimate(root: real -> real, logs: seq<real>, a: real, d: real)
    requires IsRoot(root) && |logs| >= 5 && OnCurve(logs, a, d, 0.0) && Abs(d) > EPSILON
    ensures var t := TrendFromLogs(root, logs, |logs|); t.Some? && LineTrend(t.value, d)
  {
    var s, c := SamplesUpTo(logs, |logs|), Rescaled(d, 0.0, Span(|logs|));
    SolvedWindow(root, logs, s);
    LineFit(logs, a, d, s, c);
    LineWindow(root, logs, a, d, s, c);
  }

  lemma SolvedWindow(root: real -> real, logs: seq<real>, s: seq<Sample>)
    requires IsRoot(root) && |logs| >= 5 && s == SamplesUpTo(logs, |logs|)
    ensures Solve(NormalSystem(s)).Some? && Moment(s, 0) > 0.0
    ensures TrendFromLogs(root, logs, |logs|) == WindowTrend(root, logs)
  {
    TrendExactly(root, logs, |logs|);
    assert logs[|logs| - |logs|..] == logs;
    SamplesWeighted(logs);
    MomentPositive(s);
  }

  // ---------------------------------------------------------------- any prices

  /** `r` is `x` over `scale`, held between minus ten and ten. */
  predicate RatioOf(r: real, x: real, scale: real) {
    && (-10.0 * scale <= x <= 10.0 * scale ==> r * scale == x)
    && (x > 10.0 * scale ==> r == 10.0) && (x < -10.0 * scale ==> r == -10.0)
  }

  lemma RatioHeld(x: real, scale: real, q: real)
    requires scale > 0.0 && q * scale == x
    ensures RatioOf(Clamp(q, -10.0, 10.0), x, scale)
  {
    if q > 10.0 { StrictScaling(10.0, q, scale); } else { Scaling(q, 10.0, scale); }
    if q < -10.0 { StrictScaling(q, -10.0, scale); } else { Scaling(-10.0, q, scale); }
  }

  /** Velocity and acceleration per bar, from coefficients over the whole window. */
  predicate PerBar(t: Trend, c: Vec, span: real) {
    t.velocity * span == c.y && t.acceleration * (span * span) == 2.0 * c.z
  }

  /** The mean square of returns and of residuals. */
  predicate MeanSquares(t: Trend, energy: real, span: real, error: real, weights: real) {
    && t.rms >= 0.0 && t.rms * t.rms * span == energy
    && t.residualStd >= 0.0 && t.residualStd * t.residualStd * weights == error
  }

  /** A direction is called beyond a tenth of the usual return. */
  predicate Called(t: Trend) {
    && (t.direction == Rising <==> t.velocity > EPSILON && 10.0 * t.velocity > t.rms)
    && (t.direction == Falling <==> t.velocity < -EPSILON && -10.0 * t.velocity > t.rms)
  }

  lemma RootSquare(root: real -> real, a: real, b: real, r: real)
    requires IsRoot(root) && a >= 0.0 && b > 0.0 && r == root(a / b)
    ensures r >= 0.0 && r * r * b == a
  {
    var q := a / b;
    assert q * b == a;
    if q < 0.0 { StrictProduct(-q, b); }
  }

  lemma PerBarIs(root: real -> real, span: real, energy: real, c: Vec, weights: real, error: real, variation: real)
    requires IsRoot(root) && span > 0.0 && weights > 0.0
    ensures PerBar(Publish(root, span, energy, c, weights, error, variation), c, span)
  {
    ProductIs(span, span, span * span);
    Undivided(c.y, span);
    Undivided(2.0 * c.z, span * span);
  }

  lemma Undivided(a: real, b: real)
    requires b != 0.0
    ensures a / b * b == a
  { }

  lemma MeanSquaresAre(root: real -> real, span: real, energy: real, c: Vec, weights: real, error: real,
                       variation: real)
    requires IsRoot(root) && span > 0.0 && weights > 0.0 && energy >= 0.0 && error >= 0.0
    ensures MeanSquares(Publish(root, span, energy, c, weights, error, variation), energy, span, error, weights)
  {
    RootSquare(root, energy, span, root(energy / span));
    RootSquare(root, error, weights, root(error / weights));
  }

  lemma RatiosAre(root: real -> real, span: real, energy: real, c: Vec, weights: real, error: real, variation: real)
    requires IsRoot(root) && span > 0.0 && weights > 0.0
    ensures var t := Publish(root, span, energy, c, weights, error, variation); var scale := Max(t.rms, EPSILON);
      RatioOf(t.velocityRatio, t.velocity, scale) && RatioOf(t.accelerationRatio, t.acceleration, scale)
  {
    var t := Publish(root, span, energy, c, weights, error, variation);
    RatioHolds(t.velocity, Max(t.rms, EPSILON));
    RatioHolds(t.acceleration, Max(t.rms, EPSILON));
  }

  lemma RatioHolds(x: real, scale: real)
    requires scale > 0.0
    ensures RatioOf(Clamp(x / scale, -10.0, 10.0), x, scale)
  {
    Undivided(x, scale);
    RatioHeld(x, scale, x / scale);
  }

  lemma CalledAs(root: real -> real, span: real, energy: real, c: Vec, weights: real, error: real, variation: real)
    requires IsRoot(root) && span > 0.0 && weights > 0.0
    ensures Called(Publish(root, span, energy, c, weights, error, variation))
  { }

  /**
   Every trend that is published, in the numbers of its own fit: rates per bar, mean squares of returns and
   residuals, ratios against the usual return, and the direction.
   */
  lemma TrendSays(root: real -> real, logs: seq<real>, s: seq<Sample>, c: Vec)
    requires IsRoot(root) && |logs| >= 2 && s == SamplesUpTo(logs, |logs|) && Solve(NormalSystem(s)) == Some(c)
    ensures WindowTrend(root, logs).Some?
    ensures var t := WindowTrend(root, logs).value; var scale := Max(t.rms, EPSILON);
      && PerBar(t, c, Span(|logs|))
      && MeanSquares(t, ReturnEnergy(logs, |logs|), Span(|logs|), SquaredError(s, c), Moment(s, 0))
      && RatioOf(t.velocityRatio, t.velocity, scale) && RatioOf(t.accelerationRatio, t.acceleration, scale) && Called(t)
  {
    FitBounds(logs, s, c);
    var span, energy, weights := Span(|logs|), ReturnEnergy(logs, |logs|), Moment(s, 0);
    var error, variation := SquaredError(s, c), Variation(s, Target(s, 0) / Moment(s, 0));
    PerBarIs(root, span, energy, c, weights, error, variation);
    MeanSquaresAre(root, span, energy, c, weights, error, variation);
    RatiosAre(root, span, energy, c, weights, error, variation);
    CalledAs(root, span, energy, c, weights, error, variation);
  }

  /** How two variations differ, from total weight and weighted sum alone. */
  predicate About(vo: real, vm: real, m: real, t: real, mean: real, other: real) {
    vo - vm == (other - mean) * ((other + mean) * m - 2.0 * t)
  }

  lemma {:induction false} VariationAbout(s: seq<Sample>, mean: real, other: real)
    ensures About(Variation(s, other), Variation(s, mean), Moment(s, 0), Target(s, 0), mean, other)
  {
    if s != [] {
      var f, p := Front(s), Last(s);
      VariationAbout(f, mean, other);
      FirstTerms(p);
      AboutStep(Variation(f, other), Variation(f, mean), Moment(f, 0), Target(f, 0), p, mean, other,
                Variation(s, other), Variation(s, mean), Moment(s, 0), Target(s, 0));
    }
  }

  lemma FirstTerms(p: Sample)
    ensures MomentTerm(p, 0) == p.w && TargetTerm(p, 0) == p.w * p.y
  { }

  lemma AboutStep(vo: real, vm: real, m: real, t: real, p: Sample, mean: real, other: real,
                  vo': real, vm': real, m': real, t': real)
    requires About(vo, vm, m, t, mean, other)
    requires vo' == vo + VariationTerm(p, other) && vm' == vm + VariationTerm(p, mean)
    requires m' == m + p.w && t' == t + p.w * p.y
    ensures About(vo', vm', m', t', mean, other)
  {
    TermAbout(p, mean, other, p.w * p.y);
    AboutAdds(vo, vm, m, t, VariationTerm(p, other), VariationTerm(p, mean), p.w, p.w * p.y, mean, other);
  }

  lemma TermAbout(p: Sample, mean: real, other: real, z: real)
    requires z == p.w * p.y
    ensures About(VariationTerm(p, other), VariationTerm(p, mean), p.w, z, mean, other)
  { }

  lemma AboutAdds(vo: real, vm: real, m: real, t: real, uo: real, um: real, w: real, z: real, mean: real, other: real)
    requires About(vo, vm, m, t, mean, other) && About(uo, um, w, z, mean, other)
    ensures About(vo + uo, vm + um, m + w, t + z, mean, other)
  {
    Gathered(other - mean, other + mean, m, t, w, z);
  }

  lemma Gathered(d: real, e: real, m: real, t: real, w: real, z: real)
    ensures d * (e * m - 2.0 * t) + d * (e * w - 2.0 * z) == d * (e * (m + w) - 2.0 * (t + z))
  { }

  /** The level that R-squared compares with is the one with the least variation about it. */
  lemma MeanIsBest(s: seq<Sample>, mean: real, other: real)
    requires Moment(s, 0) > 0.0 && mean == Target(s, 0) / Moment(s, 0)
    ensures Variation(s, mean) <= Variation(s, other)
  {
    Undivided(Target(s, 0), Moment(s, 0));
    VariationAbout(s, mean, other);
    SquareTimes(other - mean, Moment(s, 0), other + mean, mean, Target(s, 0));
  }

  lemma SquareTimes(d: real, m: real, e: real, mean: real, t: real)
    requires m > 0.0 && mean * m == t && e == d + 2.0 * mean
    ensures d * (e * m - 2.0 * t) >= 0.0
  {
    Square(d);
    Product(d * d, m);
    assert e * m == d * m + 2.0 * (mean * m);
    assert e * m - 2.0 * t == d * m;
    assert d * (d * m) == (d * d) * m;
  }

  // ---------------------------------------------------------------- any interval

  /** The rank is the least whole number that reaches the share of one more, from one up to all. */
  lemma RankIsLeast(n: nat, level: real)
    requires n > 0
    ensures var r, share := Rank(n, level), (n + 1) as real * level;
      && 1 <= r <= n && (r < n ==> share <= r as real) && (r > 1 ==> (r - 1) as real < share)
  { }

  lemma {:induction false} CountGrows(s: seq<real>, x: real, y: real)
    requires x <= y
    ensures CountLt(s, x) <= CountLt(s, y)
  {
    if s != [] { CountGrows(s[1..], x, y); }
  }

  /** A residual is covered exactly when fewer than rank of the earlier ones lie strictly below it. */
  lemma HitExactly(rs: seq<real>, level: real, i: nat)
    requires 0 < i < |rs|
    ensures Hit(rs, level, i) <==> CountLt(rs[..i], rs[i]) < Rank(i, level)
  {
    var s, q := rs[..i], Quantile(rs[..i], level);
    QuantileExactly(s, level, q);
    if rs[i] <= q { CountGrows(s, rs[i], q); } else { CountsOrdered(s, q, rs[i]); }
  }

  /** The covered comparisons. */
  function Covered(rs: seq<real>, level: real, upto: nat): set<nat>
    requires upto <= |rs|
  {
    set i: nat | 20 <= i < upto && CountLt(rs[..i], rs[i]) < Rank(i, level)
  }

  lemma CoveredNext(rs: seq<real>, level: real, k: nat)
    requires 20 <= k < |rs|
    ensures |Covered(rs, level, k + 1)|
         == |Covered(rs, level, k)| + (if CountLt(rs[..k], rs[k]) < Rank(k, level) then 1 else 0)
  {
    if CountLt(rs[..k], rs[k]) < Rank(k, level) {
      assert Covered(rs, level, k + 1) == Covered(rs, level, k) + {k};
    } else {
      assert Covered(rs, level, k + 1) == Covered(rs, level, k);
    }
  }

  lemma {:induction false} HitsCounted(rs: seq<real>, level: real, upto: nat)
    requires 20 <= upto <= |rs|
    ensures Hits(rs, level, upto) == |Covered(rs, level, upto)|
  {
    if upto == 20 {
      assert Covered(rs, level, upto) == {};
    } else {
      HitsCounted(rs, level, upto - 1);
      HitExactly(rs, level, upto - 1);
      CoveredNext(rs, level, upto - 1);
    }
  }

  /** The distance of a bar from its prediction, at least the floor. */
  predicate ResidualIs(x: real, d: real) {
    && x >= RESIDUAL_FLOOR && x >= d && x >= -d && (x == RESIDUAL_FLOOR || x == d || x == -d)
  }

  /** Every published interval is centred on the prediction from all prices ... */
  lemma IntervalSays(fit: seq<real> -> Option<real>, logs: seq<real>, window: nat, size: nat, level: real, v: Interval)
    requires ReturnInterval(fit, logs, window, size, level) == Some(v)
    ensures fit(logs) == Some(v.predicted)
    ensures v.lower == v.predicted - v.halfWidth && v.upper == v.predicted + v.halfWidth
    ensures v.lean == (if v.lower > 0.0 then Up else if v.upper < 0.0 then Down else Uncertain)
  { }

  /** `coverage` is `hits` of `checked`. */
  predicate ShareOf(coverage: real, checked: nat, hits: nat) { coverage * checked as real == hits as real }

  lemma ShareIs(hits: nat, checked: nat)
    requires checked > 0
    ensures ShareOf(hits as real / checked as real, checked, hits)
  {
    Undivided(hits as real, checked as real);
  }

  lemma ConcludedShare(rs: seq<real>, endpoint: Option<real>, level: real, v: Interval)
    requires |rs| >= 20 && Conclude(rs, endpoint, level) == Some(v)
    ensures ShareOf(v.coverage, |rs| - 20, Hits(rs, level, |rs|))
  {
    ShareIs(Hits(rs, level, |rs|), |rs| - 20);
  }

  lemma ConcludedFrom(fit: seq<real> -> Option<real>, logs: seq<real>, window: nat, size: nat, level: real, v: Interval,
                      rs: seq<real>)
    requires ReturnInterval(fit, logs, window, size, level) == Some(v)
    requires size <= |logs| && |logs| > size && Residuals(fit, logs, |logs| - size, |logs|) == Some(rs)
    ensures |rs| == size && size > 20 && Conclude(rs, fit(logs), level) == Some(v)
  { }

  /** ... and its coverage is the share of covered comparisons from the twenty-first residual on. */
  lemma CoverageSays(fit: seq<real> -> Option<real>, logs: seq<real>, window: nat, size: nat, level: real, v: Interval,
                     rs: seq<real>)
    requires ReturnInterval(fit, logs, window, size, level) == Some(v)
    requires |logs| > size && Residuals(fit, logs, |logs| - size, |logs|) == Some(rs)
    ensures |rs| == size && size > 20 && ShareOf(v.coverage, size - 20, |Covered(rs, level, size)|)
  {
    ConcludedFrom(fit, logs, window, size, level, v, rs);
    HitsCounted(rs, level, |rs|);
    ConcludedShare(rs, fit(logs), level, v);
  }

  lemma ResidualSays(fit: seq<real> -> Option<real>, logs: seq<real>, target: nat)
    requires 0 < target < |logs| && fit(logs[..target]).Some?
    ensures var r := ResidualAt(fit, logs, target);
      r.Some? && ResidualIs(r.value, logs[target] - logs[target - 1] - fit(logs[..target]).value)
  { }

  /** An interval is published exactly for these arguments. */
  lemma PublishedInNumbers(root: real -> real, logs: seq<real>, window: nat, size: nat, level: real)
    requires IsRoot(root)
    ensures ReturnInterval(TrendPrediction(root, window), logs, window, size, level).Some?
       <==> window >= 5 && size > 20 && 0.5 < level < 1.0 && |logs| >= window + size
  {
    Conformal.PublishedExactly(root, logs, window, size, level);
  }
}
