/**
 The weighted quadratic fit of `causal_log_trend_from_logs`, over exact reals.
 */
module CausalTrend {
  import opened Options
  import opened Reals
  import opened Matrices
  import opened Elimination

  datatype Sample = Sample(x: real, y: real, w: real)

  // ---------------------------------------------------------------- samples

  function Span(window: nat): real { window as real - 1.0 }

  /** Position, height relative to the newest log price, and recency weight of one sample. */
  function SampleAt(logs: seq<real>, i: nat): Sample
    requires |logs| >= 2 && i < |logs|
  {
    Sample((i as real - Span(|logs|)) / Span(|logs|), logs[i] - logs[|logs| - 1],
           1.0 + 2.0 * (i as real) / Span(|logs|))
  }

  function SamplesUpTo(logs: seq<real>, n: nat): (s: seq<Sample>)
    requires |logs| >= 2 && n <= |logs|
    ensures |s| == n && forall i :: 0 <= i < n ==> s[i] == SampleAt(logs, i)
  {
    if n == 0 then [] else SamplesUpTo(logs, n - 1) + [SampleAt(logs, n - 1)]
  }

  predicate Weighted(s: seq<Sample>) { forall i :: 0 <= i < |s| ==> s[i].w >= 1.0 }

  /** Weights rise linearly from one to three, and no sample lies to the right of the endpoint. */
  lemma SampleRange(logs: seq<real>, i: nat)
    requires |logs| >= 2 && i < |logs|
    ensures 1.0 <= SampleAt(logs, i).w <= 3.0
    ensures -1.0 <= SampleAt(logs, i).x <= 0.0
  {
    var span := Span(|logs|);
    Fraction(i as real, span);
    Fraction(span - i as real, span);
    NegatedFraction(span - i as real, span);
    DoubleFraction(i as real, span);
  }

  /** The newest bar sits at the origin with weight three. */
  lemma EndpointSample(logs: seq<real>)
    requires |logs| >= 2
    ensures SampleAt(logs, |logs| - 1) == Sample(0.0, 0.0, 3.0)
  {
    var span := Span(|logs|);
    EndpointQuotients((|logs| - 1) as real, span);
  }

  lemma EndpointQuotients(i: real, span: real)
    requires i == span && span > 0.0
    ensures (i - span) / span == 0.0 && 2.0 * i / span == 2.0
  {
    UniqueQuotient(0.0, span, i - span);
    UniqueQuotient(2.0, span, 2.0 * i);
  }

  lemma DoubleFraction(a: real, b: real)
    requires b > 0.0
    ensures 2.0 * a / b == 2.0 * (a / b)
  { }

  lemma SamplesWeighted(logs: seq<real>)
    requires |logs| >= 2
    ensures Weighted(SamplesUpTo(logs, |logs|))
  {
    forall i | 0 <= i < |logs| ensures SamplesUpTo(logs, |logs|)[i].w >= 1.0 { SampleRange(logs, i); }
  }

  // ---------------------------------------------------------------- sums over samples

  function Pow(x: real, k: nat): real { if k == 0 then 1.0 else Pow(x, k - 1) * x }

  function Front(s: seq<Sample>): seq<Sample> requires s != [] { s[..|s| - 1] }
  function Last(s: seq<Sample>): Sample requires s != [] { s[|s| - 1] }

  function MomentTerm(p: Sample, k: nat): real { p.w * Pow(p.x, k) }

  function Moment(s: seq<Sample>, k: nat): real {
    if s == [] then 0.0 else Moment(Front(s), k) + MomentTerm(Last(s), k)
  }

  function TargetTerm(p: Sample, k: nat): real { p.w * p.y * Pow(p.x, k) }

  function Target(s: seq<Sample>, k: nat): real {
    if s == [] then 0.0 else Target(Front(s), k) + TargetTerm(Last(s), k)
  }

  function Fitted(c: Vec, x: real): real { c.x + c.y * x + c.z * x * x }

  function ErrorTerm(p: Sample, c: Vec): real { p.w * ((p.y - Fitted(c, p.x)) * (p.y - Fitted(c, p.x))) }

  /** Weighted squared error of the quadratic `c`. */
  function SquaredError(s: seq<Sample>, c: Vec): real {
    if s == [] then 0.0 else SquaredError(Front(s), c) + ErrorTerm(Last(s), c)
  }

  function VariationTerm(p: Sample, mean: real): real { p.w * ((p.y - mean) * (p.y - mean)) }

  function Variation(s: seq<Sample>, mean: real): real {
    if s == [] then 0.0 else Variation(Front(s), mean) + VariationTerm(Last(s), mean)
  }

  function SlopeTerm(p: Sample, c: Vec, k: nat): real { p.w * (p.y - Fitted(c, p.x)) * Pow(p.x, k) }

  /** Weighted residuals of `c` against the k-th power. */
  function Slope(s: seq<Sample>, c: Vec, k: nat): real {
    if s == [] then 0.0 else Slope(Front(s), c, k) + SlopeTerm(Last(s), c, k)
  }

  function EnergyTerm(p: Sample, d: Vec): real { p.w * (Fitted(d, p.x) * Fitted(d, p.x)) }

  /** Weighted squared size of the quadratic `d`. */
  function Energy(s: seq<Sample>, d: Vec): real {
    if s == [] then 0.0 else Energy(Front(s), d) + EnergyTerm(Last(s), d)
  }

  // ---------------------------------------------------------------- normal equations

  function NormalSystem(s: seq<Sample>): (rows: seq<Row>)
    ensures Three(rows)
  {
    [NormalRow(s, 0), NormalRow(s, 1), NormalRow(s, 2)]
  }

  lemma PowNext(x: real, k: nat)
    ensures Pow(x, k + 1) == Pow(x, k) * x && Pow(x, k + 2) == Pow(x, k) * x * x
  {
    assert Pow(x, k + 2) == Pow(x, k + 1) * x;
  }

  function Along(c: Vec, a: real, b: real, e: real): real { c.x * a + c.y * b + c.z * e }

  lemma AlongSum(c: Vec, a: real, b: real, e: real, p: real, q: real, r: real)
    ensures Along(c, a + p, b + q, e + r) == Along(c, a, b, e) + Along(c, p, q, r)
  { }

  lemma Spread(w: real, y: real, x: real, q: real, c: Vec)
    ensures w * (y - Fitted(c, x)) * q == w * y * q - Along(c, w * q, w * (q * x), w * (q * x * x))
  {
    var u := w * q;
    assert w * (y - Fitted(c, x)) * q == u * y - u * Fitted(c, x);
    assert u * Fitted(c, x) == c.x * u + c.y * (u * x) + c.z * (u * x * x);
  }

  lemma SlopeTermSplit(p: Sample, c: Vec, k: nat)
    ensures SlopeTerm(p, c, k)
         == TargetTerm(p, k) - Along(c, MomentTerm(p, k), MomentTerm(p, k + 1), MomentTerm(p, k + 2))
  {
    PowNext(p.x, k);
    Spread(p.w, p.y, p.x, Pow(p.x, k), c);
  }

  lemma {:induction false} SlopeByMoments(s: seq<Sample>, c: Vec, k: nat)
    ensures Slope(s, c, k) == Target(s, k) - Along(c, Moment(s, k), Moment(s, k + 1), Moment(s, k + 2))
  {
    if s != [] {
      var f, p := Front(s), Last(s);
      SlopeByMoments(f, c, k);
      SlopeTermSplit(p, c, k);
      AlongSum(c, Moment(f, k), Moment(f, k + 1), Moment(f, k + 2),
               MomentTerm(p, k), MomentTerm(p, k + 1), MomentTerm(p, k + 2));
    }
  }

  function NormalRow(s: seq<Sample>, k: nat): Row {
    Row(Moment(s, k), Moment(s, k + 1), Moment(s, k + 2), Target(s, k))
  }

  lemma RowResidual(s: seq<Sample>, c: Vec, k: nat)
    ensures Residual(NormalRow(s, k), c) == -Slope(s, c, k)
  {
    SlopeByMoments(s, c, k);
    Commute(c, Moment(s, k), Moment(s, k + 1), Moment(s, k + 2), Target(s, k));
  }

  lemma Commute(c: Vec, a: real, b: real, e: real, t: real)
    ensures Residual(Row(a, b, e, t), c) == Along(c, a, b, e) - t
  { }

  /** The equations handed to elimination say that residuals are orthogonal to 1, x and x squared. */
  lemma NormalMeansOrthogonal(s: seq<Sample>, c: Vec)
    ensures Solves(NormalSystem(s), c) <==> Slope(s, c, 0) == 0.0 && Slope(s, c, 1) == 0.0 && Slope(s, c, 2) == 0.0
  {
    var rows := NormalSystem(s);
    RowResidual(s, c, 0);
    RowResidual(s, c, 1);
    RowResidual(s, c, 2);
    SolvesThree(rows[0], rows[1], rows[2], c);
  }

  lemma SolvesThree(a: Row, b: Row, e: Row, c: Vec)
    ensures Solves([a, b, e], c) <==> Residual(a, c) == 0.0 && Residual(b, c) == 0.0 && Residual(e, c) == 0.0
  {
    var rows := [a, b, e];
    assert rows[0] == a && rows[1] == b && rows[2] == e;
  }

  // ---------------------------------------------------------------- minimality

  lemma Weigh(w: real, a: real, b: real, c: real)
    ensures w * (a - 2.0 * b + c) == w * a - 2.0 * (w * b) + w * c
  { }

  lemma ErrorStep(w: real, r: real, g: real)
    ensures w * ((r - g) * (r - g)) == w * (r * r) - 2.0 * (w * r * g) + w * (g * g)
  {
    assert (r - g) * (r - g) == r * r - 2.0 * (r * g) + g * g;
    Weigh(w, r * r, r * g, g * g);
    assert w * r * g == w * (r * g);
  }

  lemma FittedSum(c: Vec, d: Vec, x: real)
    ensures Fitted(AddVec(c, d), x) == Fitted(c, x) + Fitted(d, x)
  { }

  lemma AlongPowers(u: real, d: Vec, x: real, zero: real, one: real, two: real)
    requires zero == 1.0 && one == zero * x && two == one * x
    ensures u * Fitted(d, x) == Along(d, u * zero, u * one, u * two)
  {
    assert u * Fitted(d, x) == d.x * u + d.y * (u * x) + d.z * (u * (x * x));
  }

  lemma ErrorTermSplit(p: Sample, c: Vec, d: Vec)
    ensures ErrorTerm(p, AddVec(c, d)) == ErrorTerm(p, c)
      - 2.0 * Along(d, SlopeTerm(p, c, 0), SlopeTerm(p, c, 1), SlopeTerm(p, c, 2)) + EnergyTerm(p, d)
  {
    FittedSum(c, d, p.x);
    SplitError(p.w, p.y, Fitted(c, p.x), Fitted(d, p.x), Fitted(AddVec(c, d), p.x));
    AlongPowers(p.w * (p.y - Fitted(c, p.x)), d, p.x, Pow(p.x, 0), Pow(p.x, 1), Pow(p.x, 2));
  }

  lemma SplitError(w: real, y: real, f: real, g: real, both: real)
    requires both == f + g
    ensures w * ((y - both) * (y - both)) == w * ((y - f) * (y - f)) - 2.0 * (w * (y - f) * g) + w * (g * g)
  {
    ErrorStep(w, y - f, g);
  }

  /** Moving from `c` to `c + d` changes the error by the slopes along `d` and by the energy of `d`. */
  lemma {:induction false} ErrorAlong(s: seq<Sample>, c: Vec, d: Vec)
    ensures SquaredError(s, AddVec(c, d)) == SquaredError(s, c)
      - 2.0 * Along(d, Slope(s, c, 0), Slope(s, c, 1), Slope(s, c, 2)) + Energy(s, d)
  {
    if s != [] {
      var f, p := Front(s), Last(s);
      ErrorAlong(f, c, d);
      ErrorTermSplit(p, c, d);
      AlongSum(d, Slope(f, c, 0), Slope(f, c, 1), Slope(f, c, 2),
               SlopeTerm(p, c, 0), SlopeTerm(p, c, 1), SlopeTerm(p, c, 2));
    }
  }

  lemma {:induction false} EnergyNonnegative(s: seq<Sample>, d: Vec)
    requires Weighted(s)
    ensures Energy(s, d) >= 0.0
  {
    if s != [] {
      EnergyNonnegative(Front(s), d);
      Square(Fitted(d, Last(s).x));
      Product(Last(s).w, Fitted(d, Last(s).x) * Fitted(d, Last(s).x));
    }
  }

  function SubVec(a: Vec, b: Vec): Vec { Vec(a.x - b.x, a.y - b.y, a.z - b.z) }

  /** The coefficients elimination returns beat every other quadratic, by exactly the energy of the difference. */
  lemma FitIsMinimal(s: seq<Sample>, other: Vec)
    requires Weighted(s) && Solve(NormalSystem(s)).Some?
    ensures var c := Solve(NormalSystem(s)).value;
      && SquaredError(s, other) == SquaredError(s, c) + Energy(s, SubVec(other, c))
      && SquaredError(s, c) <= SquaredError(s, other)
  {
    var c := Solve(NormalSystem(s)).value;
    var d := SubVec(other, c);
    SolveIsTheSolution(NormalSystem(s), c);
    NormalMeansOrthogonal(s, c);
    ErrorAlong(s, c, d);
    assert AddVec(c, d) == other;
    EnergyNonnegative(s, d);
  }

  lemma {:induction false} ConstantError(s: seq<Sample>, mean: real)
    ensures SquaredError(s, Vec(mean, 0.0, 0.0)) == Variation(s, mean)
  {
    if s != [] {
      ConstantError(Front(s), mean);
      assert Fitted(Vec(mean, 0.0, 0.0), Last(s).x) == mean;
    }
  }

  lemma {:induction false} ErrorNonnegative(s: seq<Sample>, c: Vec)
    requires Weighted(s)
    ensures SquaredError(s, c) >= 0.0
  {
    if s != [] {
      ErrorNonnegative(Front(s), c);
      var r := Last(s).y - Fitted(c, Last(s).x);
      Square(r);
      Product(Last(s).w, r * r);
    }
  }

  /** The error of the fit never exceeds the total variation about any level. */
  lemma ErrorWithinVariation(s: seq<Sample>, mean: real)
    requires Weighted(s) && Solve(NormalSystem(s)).Some?
    ensures 0.0 <= SquaredError(s, Solve(NormalSystem(s)).value) <= Variation(s, mean)
  {
    FitIsMinimal(s, Vec(mean, 0.0, 0.0));
    ConstantError(s, mean);
    ErrorNonnegative(s, Solve(NormalSystem(s)).value);
  }

  // ---------------------------------------------------------------- the estimate

  datatype Direction = Rising | Falling | Flat

  datatype Trend = Trend(
    velocity: real, acceleration: real, rms: real, velocityRatio: real, accelerationRatio: real,
    r2: real, residualStd: real, confidence: real, direction: Direction)

  function RSquared(error: real, variation: real): real {
    if variation <= EPSILON then (if error <= EPSILON then 1.0 else 0.0)
    else Clamp(1.0 - error / variation, 0.0, 1.0)
  }

  /** Sum of squared one-bar returns among the first `n` log prices. */
  function ReturnEnergy(logs: seq<real>, n: nat): (e: real)
    requires n <= |logs|
    ensures e >= 0.0
  {
    if n < 2 then 0.0
    else
      var r := logs[n - 1] - logs[n - 2];
      Square(r);
      ReturnEnergy(logs, n - 1) + r * r
  }

  lemma {:induction false} MomentPositive(s: seq<Sample>)
    requires Weighted(s) && s != []
    ensures Moment(s, 0) >= 1.0
  {
    if |s| > 1 { MomentPositive(Front(s)); } else { assert Front(s) == []; }
  }

  /** What the estimate publishes, from the coefficients, the error and the variation of the fit. */
  function Publish(root: real -> real, span: real, energy: real, c: Vec, weights: real, error: real,
                   variation: real): Trend
    requires IsRoot(root) && span > 0.0 && weights > 0.0
  {
    var square := span * span;
    ProductIs(span, span, square);
    var rms := root(energy / span);
    var velocity, acceleration := c.y / span, 2.0 * c.z / square;
    var scale := Max(rms, EPSILON);
    var vr, ar := Clamp(velocity / scale, -10.0, 10.0), Clamp(acceleration / scale, -10.0, 10.0);
    var r2 := RSquared(error, variation);
    var flat := Max(EPSILON, rms * 0.10);
    Trend(velocity, acceleration, rms, vr, ar, r2, root(Max(0.0, error) / weights),
          Clamp(r2 * Min(1.0, Abs(vr)), 0.0, 1.0),
          if velocity > flat then Rising else if velocity < -flat then Falling else Flat)
  }

  function WindowTrend(root: real -> real, logs: seq<real>): Option<Trend>
    requires IsRoot(root) && |logs| >= 2
  {
    var s := SamplesUpTo(logs, |logs|);
    SamplesWeighted(logs);
    MomentPositive(s);
    match Solve(NormalSystem(s))
    case None => None
    case Some(c) =>
      var mean := Target(s, 0) / Moment(s, 0);
      Some(Publish(root, Span(|logs|), ReturnEnergy(logs, |logs|), c, Moment(s, 0), SquaredError(s, c),
                   Variation(s, mean)))
  }

  function TrendFromLogs(root: real -> real, logs: seq<real>, window: nat): Option<Trend>
    requires IsRoot(root)
  {
    if window < 5 || |logs| < window then None else WindowTrend(root, logs[|logs| - window..])
  }

  /** With the error between zero and the variation, the R-squared clamp does nothing and its zero branch is dead. */
  lemma RSquaredExact(error: real, variation: real)
    requires 0.0 <= error <= variation
    ensures RSquared(error, variation) == if variation <= EPSILON then 1.0 else 1.0 - error / variation
    ensures 0.0 <= RSquared(error, variation) <= 1.0
  {
    if variation > EPSILON { Fraction(error, variation); }
  }

  lemma FitBounds(logs: seq<real>, s: seq<Sample>, c: Vec)
    requires |logs| >= 2 && s == SamplesUpTo(logs, |logs|) && Solve(NormalSystem(s)) == Some(c)
    ensures Moment(s, 0) > 0.0
    ensures 0.0 <= SquaredError(s, c) <= Variation(s, Target(s, 0) / Moment(s, 0))
  {
    SamplesWeighted(logs);
    MomentPositive(s);
    ErrorWithinVariation(s, Target(s, 0) / Moment(s, 0));
  }

  /** Neither the R-squared nor the confidence clamp ever changes a value. */
  lemma ClampsAreIdle(root: real -> real, logs: seq<real>, s: seq<Sample>, c: Vec)
    requires IsRoot(root) && |logs| >= 2 && s == SamplesUpTo(logs, |logs|) && Solve(NormalSystem(s)) == Some(c)
    ensures WindowTrend(root, logs).Some? && Moment(s, 0) > 0.0
    ensures var t := WindowTrend(root, logs).value;
      var error, variation := SquaredError(s, c), Variation(s, Target(s, 0) / Moment(s, 0));
      t.r2 == (if variation <= EPSILON then 1.0 else 1.0 - error / variation) && Bounded(t)
  {
    FitBounds(logs, s, c);
    PublishedBounded(root, Span(|logs|), ReturnEnergy(logs, |logs|), c, Moment(s, 0),
                     SquaredError(s, c), Variation(s, Target(s, 0) / Moment(s, 0)));
  }

  /** R-squared and confidence lie in the unit interval, and confidence is exactly their unclamped product. */
  predicate Bounded(t: Trend) {
    && 0.0 <= t.r2 <= 1.0 && 0.0 <= t.confidence <= 1.0
    && t.confidence == t.r2 * Min(1.0, Abs(t.velocityRatio))
  }

  lemma PublishedBounded(root: real -> real, span: real, energy: real, c: Vec, weights: real, error: real,
                         variation: real)
    requires IsRoot(root) && span > 0.0 && weights > 0.0 && 0.0 <= error <= variation
    ensures var t := Publish(root, span, energy, c, weights, error, variation);
      t.r2 == (if variation <= EPSILON then 1.0 else 1.0 - error / variation) && Bounded(t)
  {
    var t := Publish(root, span, energy, c, weights, error, variation);
    RSquaredExact(error, variation);
    UnitProduct(t.r2, Min(1.0, Abs(t.velocityRatio)));
  }

  // ---------------------------------------------------------------- shifting the price scale

  function Shifted(logs: seq<real>, k: real): seq<real> {
    seq(|logs|, i requires 0 <= i < |logs| => logs[i] + k)
  }

  lemma {:induction false} ReturnsShifted(logs: seq<real>, k: real, n: nat)
    requires n <= |logs|
    ensures ReturnEnergy(Shifted(logs, k), n) == ReturnEnergy(logs, n)
  {
    if n >= 2 { ReturnsShifted(logs, k, n - 1); }
  }

  lemma SampleShifted(logs: seq<real>, k: real, i: nat)
    requires |logs| >= 2 && i < |logs|
    ensures SampleAt(Shifted(logs, k), i) == SampleAt(logs, i)
  {
    assert Shifted(logs, k)[i] - Shifted(logs, k)[|logs| - 1] == logs[i] - logs[|logs| - 1];
  }

  lemma {:induction false} SamplesShifted(logs: seq<real>, k: real, n: nat)
    requires |logs| >= 2 && n <= |logs|
    ensures SamplesUpTo(Shifted(logs, k), n) == SamplesUpTo(logs, n)
  {
    if n > 0 {
      SamplesShifted(logs, k, n - 1);
      SampleShifted(logs, k, n - 1);
    }
  }

  lemma WindowShifted(root: real -> real, logs: seq<real>, k: real)
    requires IsRoot(root) && |logs| >= 2
    ensures WindowTrend(root, Shifted(logs, k)) == WindowTrend(root, logs)
  {
    SamplesShifted(logs, k, |logs|);
    ReturnsShifted(logs, k, |logs|);
  }

  lemma ShiftedPart(logs: seq<real>, k: real, n: nat)
    requires n <= |logs|
    ensures Shifted(logs, k)[n..] == Shifted(logs[n..], k)
  { }

  lemma PartShifted(root: real -> real, part: seq<real>, other: seq<real>, k: real)
    requires IsRoot(root) && |part| >= 2 && |other| >= 2 && other == Shifted(part, k)
    ensures WindowTrend(root, other) == WindowTrend(root, part)
  {
    WindowShifted(root, part, k);
  }

  /** Adding a constant to every log price, that is, rescaling every price, changes no output. */
  lemma ShiftInvariant(root: real -> real, logs: seq<real>, k: real, window: nat)
    requires IsRoot(root)
    ensures TrendFromLogs(root, Shifted(logs, k), window) == TrendFromLogs(root, logs, window)
  {
    if window >= 5 && |logs| >= window {
      var n := |logs| - window;
      ShiftedPart(logs, k, n);
      PartShifted(root, logs[n..], Shifted(logs, k)[n..], k);
    }
  }

  // ---------------------------------------------------------------- quadratics are recovered

  /** The value of a + b t + c t^2 at the i-th of `n` bars, time counted from the newest bar. */
  function Parabola(a: real, b: real, c: real, n: nat, i: nat): real {
    var t := i as real - Span(n);
    a + b * t + c * (t * t)
  }

  predicate OnParabola(logs: seq<real>, a: real, b: real, c: real) {
    forall i :: 0 <= i < |logs| ==> logs[i] == Parabola(a, b, c, |logs|, i)
  }

  lemma Rescale(t: real, span: real, b: real, c: real, x: real)
    requires span > 0.0 && x == t / span
    ensures Fitted(Rescaled(b, c, span), x) == b * t + c * (t * t)
  {
    assert x * span == t;
    RescaleProducts(x, span, t, b, c);
  }

  lemma RescaleProducts(x: real, span: real, t: real, b: real, c: real)
    requires x * span == t
    ensures (b * span) * x == b * t && (c * (span * span)) * x * x == c * (t * t)
  {
    assert (span * span) * x * x == t * t;
    assert (c * (span * span)) * x * x == c * ((span * span) * x * x);
  }

  predicate FitsExactly(s: seq<Sample>, c: Vec) { forall i :: 0 <= i < |s| ==> s[i].y == Fitted(c, s[i].x) }

  lemma {:induction false} ExactFit(s: seq<Sample>, c: Vec, k: nat)
    requires FitsExactly(s, c)
    ensures SquaredError(s, c) == 0.0 && Slope(s, c, k) == 0.0
  {
    if s != [] {
      assert Last(s).y == Fitted(c, Last(s).x);
      ExactFit(Front(s), c, k);
    }
  }

  /**
   On a window that is exactly a parabola the fit returns its derivatives at the newest bar, explains
   everything, and its one-bar prediction is the parabola's next step.
   */
  lemma QuadraticRecovered(root: real -> real, logs: seq<real>, a: real, b: real, c: real)
    requires IsRoot(root) && |logs| >= 2 && OnParabola(logs, a, b, c) && WindowTrend(root, logs).Some?
    ensures var t := WindowTrend(root, logs).value;
      && Exactly(t, b, c)
      && t.velocity + t.acceleration / 2.0 == Parabola(a, b, c, |logs|, |logs|) - logs[|logs| - 1]
  {
    var s := SamplesUpTo(logs, |logs|);
    var v := Rescaled(b, c, Span(|logs|));
    RecoveredFit(logs, a, b, c);
    RecoveredTrend(root, logs, s, v, b, c);
    NextStep(a, b, c, |logs|);
  }

  lemma RecoveredFit(logs: seq<real>, a: real, b: real, c: real)
    requires |logs| >= 2 && OnParabola(logs, a, b, c) && Solve(NormalSystem(SamplesUpTo(logs, |logs|))).Some?
    ensures var s, v := SamplesUpTo(logs, |logs|), Rescaled(b, c, Span(|logs|));
      Solve(NormalSystem(s)) == Some(v) && SquaredError(s, v) == 0.0
  {
    ParabolaFits(logs, a, b, c);
    ExactIsTheFit(SamplesUpTo(logs, |logs|), Rescaled(b, c, Span(|logs|)));
  }

  lemma RecoveredTrend(root: real -> real, logs: seq<real>, s: seq<Sample>, v: Vec, b: real, c: real)
    requires IsRoot(root) && |logs| >= 2 && s == SamplesUpTo(logs, |logs|)
    requires Solve(NormalSystem(s)) == Some(v) && SquaredError(s, v) == 0.0 && v == Rescaled(b, c, Span(|logs|))
    ensures WindowTrend(root, logs).Some? && Exactly(WindowTrend(root, logs).value, b, c)
  {
    SamplesWeighted(logs);
    MomentPositive(s);
    PublishedExactly(root, Span(|logs|), ReturnEnergy(logs, |logs|), v, b, c, Moment(s, 0),
                     Variation(s, Target(s, 0) / Moment(s, 0)));
  }

  /** The trend of a window without noise: velocity `b`, acceleration `2 c`, nothing unexplained. */
  predicate Exactly(t: Trend, b: real, c: real) {
    t.velocity == b && t.acceleration == 2.0 * c && t.residualStd == 0.0 && t.r2 == 1.0
  }

  lemma NextStep(a: real, b: real, c: real, n: nat)
    requires n >= 1
    ensures Parabola(a, b, c, n, n) == a + b + c && Parabola(a, b, c, n, n - 1) == a
  { }

  function Rescaled(b: real, c: real, span: real): Vec { Vec(0.0, b * span, c * (span * span)) }

  lemma ExactIsTheFit(s: seq<Sample>, v: Vec)
    requires FitsExactly(s, v) && Solve(NormalSystem(s)).Some?
    ensures Solve(NormalSystem(s)).value == v && SquaredError(s, v) == 0.0
  {
    ExactFit(s, v, 0);
    ExactFit(s, v, 1);
    ExactFit(s, v, 2);
    NormalMeansOrthogonal(s, v);
    SolveIsTheSolution(NormalSystem(s), v);
  }

  lemma ParabolaFits(logs: seq<real>, a: real, b: real, c: real)
    requires |logs| >= 2 && OnParabola(logs, a, b, c)
    ensures FitsExactly(SamplesUpTo(logs, |logs|), Rescaled(b, c, Span(|logs|)))
  {
    var s := SamplesUpTo(logs, |logs|);
    forall i | 0 <= i < |s| ensures s[i].y == Fitted(Rescaled(b, c, Span(|logs|)), s[i].x) {
      BarFits(logs, a, b, c, i, Span(|logs|), i as real - Span(|logs|));
    }
  }

  lemma BarFits(logs: seq<real>, a: real, b: real, c: real, i: nat, span: real, t: real)
    requires |logs| >= 2 && OnParabola(logs, a, b, c) && i < |logs| && span == Span(|logs|) && t == i as real - span
    ensures SampleAt(logs, i).y == Fitted(Rescaled(b, c, span), SampleAt(logs, i).x)
  {
    HeightAt(logs, a, b, c, i);
    Rescale(t, span, b, c, SampleAt(logs, i).x);
  }

  lemma HeightAt(logs: seq<real>, a: real, b: real, c: real, i: nat)
    requires |logs| >= 2 && OnParabola(logs, a, b, c) && i < |logs|
    ensures var t := i as real - Span(|logs|); SampleAt(logs, i).y == b * t + c * (t * t)
  {
    assert logs[i] == Parabola(a, b, c, |logs|, i);
    assert logs[|logs| - 1] == Parabola(a, b, c, |logs|, |logs| - 1);
    NextStep(a, b, c, |logs|);
  }

  lemma PublishedExactly(root: real -> real, span: real, energy: real, v: Vec, b: real, c: real, weights: real,
                         variation: real)
    requires IsRoot(root) && span > 0.0 && weights > 0.0 && v == Rescaled(b, c, span)
    ensures Exactly(Publish(root, span, energy, v, weights, 0.0, variation), b, c)
  {
    RescaledQuotients(b, c, span, span * span);
    UniqueQuotient(0.0, weights, 0.0);
    RootOfZero(root, 0.0 / weights);
    RSquaredOfZero(variation);
  }

  lemma RSquaredOfZero(variation: real)
    ensures RSquared(0.0, variation) == 1.0
  {
    if variation > EPSILON { UniqueQuotient(0.0, variation, 0.0); }
  }

  lemma RescaledQuotients(b: real, c: real, span: real, square: real)
    requires span > 0.0 && square == span * span
    ensures square > 0.0 && b * span / span == b && 2.0 * (c * square) / square == 2.0 * c
  {
    ProductIs(span, span, square);
    DoubledQuotient(c, square);
    UniqueQuotient(b, span, b * span);
  }

  lemma RootOfZero(root: real -> real, z: real)
    requires IsRoot(root) && z == 0.0
    ensures root(z) == 0.0
  {
    if root(z) != 0.0 { SquareIs(root(z), z); }
  }

  lemma DoubledQuotient(c: real, q: real)
    requires q > 0.0
    ensures 2.0 * (c * q) / q == 2.0 * c
  {
    UniqueQuotient(2.0 * c, q, 2.0 * (c * q));
  }

  // ---------------------------------------------------------------- the loops

  method BuildSamples(logs: seq<real>) returns (s: seq<Sample>)
    requires |logs| >= 2
    ensures s == SamplesUpTo(logs, |logs|)
  {
    var span := Span(|logs|);
    s := [];
    for i := 0 to |logs|
      invariant s == SamplesUpTo(logs, i)
    {
      var x := (i as real - span) / span;
      var y := logs[i] - logs[|logs| - 1];
      var w := 1.0 + 2.0 * (i as real) / span;
      s := s + [Sample(x, y, w)];
    }
  }

  method Accumulate(s: seq<Sample>, c: Vec, mean: real) returns (error: real, variation: real)
    ensures error == SquaredError(s, c) && variation == Variation(s, mean)
  {
    error, variation := 0.0, 0.0;
    for i := 0 to |s|
      invariant error == SquaredError(s[..i], c) && variation == Variation(s[..i], mean)
    {
      assert Front(s[..i + 1]) == s[..i];
      var fitted := c.x + c.y * s[i].x + c.z * s[i].x * s[i].x;
      error := error + s[i].w * ((s[i].y - fitted) * (s[i].y - fitted));
      variation := variation + s[i].w * ((s[i].y - mean) * (s[i].y - mean));
    }
    assert s[..|s|] == s;
  }

  method FitWindow(root: real -> real, logs: seq<real>) returns (t: Option<Trend>)
    requires IsRoot(root) && |logs| >= 2
    ensures t == WindowTrend(root, logs)
  {
    var s := BuildSamples(logs);
    var rows := new Row[3](i => if 0 <= i < 3 then NormalSystem(s)[i] else NormalSystem(s)[0]);
    assert rows[..] == NormalSystem(s);
    var c := SolveInPlace(rows);
    if c == None { return None; }
    SamplesWeighted(logs);
    MomentPositive(s);
    var error, variation := Accumulate(s, c.value, Target(s, 0) / Moment(s, 0));
    t := Some(Publish(root, Span(|logs|), ReturnEnergy(logs, |logs|), c.value, Moment(s, 0), error, variation));
  }

  /** `causal_log_trend_from_logs`. */
  method FitTrend(root: real -> real, prices: seq<real>, window: nat) returns (t: Option<Trend>)
    requires IsRoot(root)
    ensures t == TrendFromLogs(root, prices, window)
  {
    if window < 5 || |prices| < window { return None; }
    t := FitWindow(root, prices[|prices| - window..]);
  }
}
