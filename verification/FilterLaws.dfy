/**
 What one step of the state filter computes, in plain numbers: where the prediction goes, how far an
 observation moves the state, what variance is left, and that steady motion is tracked exactly.
 */
module FilterLaws {
  import opened Options
  import opened Matrices
  import opened Reals
  import opened CausalState

  // ---------------------------------------------------------------- motion

  /** Level, velocity and acceleration at time `t` of motion that starts at `x` with `v` and keeps `a`. */
  function Motion(x: real, v: real, a: real, t: real): Vec { Vec(x + v * t + a * (t * t) / 2.0, v + a * t, a) }

  /** The prediction is motion with constant acceleration, one bar on. */
  lemma PredictionIsMotion(x: real, v: real, a: real, t: real)
    ensures PredictState(Motion(x, v, a, t)) == Motion(x, v, a, t + 1.0)
  {
    assert a * ((t + 1.0) * (t + 1.0)) == a * (t * t) + 2.0 * (a * t) + a;
  }

  /** The matrix that carries the covariance is the prediction of the state. */
  lemma TransitionIsPrediction(s: Vec)
    ensures Apply(TRANSITION, s) == PredictState(s)
  { }

  // ---------------------------------------------------------------- the predicted covariance

  /** The first column of the prediction, from the entries of a symmetric covariance and the noise scale. */
  predicate PredictedColumn(p: Mat, q: real, level: real, velocity: real, acceleration: real) {
    && level == p.r.x + 2.0 * p.r.y + p.r.z + p.s.y + p.s.z + p.t.z / 4.0 + q / 36.0
    && velocity == p.r.y + p.r.z + p.s.y + 1.5 * p.s.z + p.t.z / 2.0 + q / 12.0
    && acceleration == p.r.z + p.s.z + p.t.z / 2.0 + q / 6.0
  }

  lemma ColumnPredicted(p: Mat, q: real)
    requires Symmetric(p)
    ensures var m := PredictCovariance(p, ProcessNoise(q)); PredictedColumn(p, q, m.r.x, m.s.x, m.t.x)
  { }

  /** The rest of the prediction: velocity and acceleration pick up the variance of what drives them. */
  lemma RatesPredicted(p: Mat, q: real)
    requires Symmetric(p)
    ensures var m := PredictCovariance(p, ProcessNoise(q));
      && m.s.y == p.s.y + 2.0 * p.s.z + p.t.z + q / 4.0
      && m.t.y == p.s.z + p.t.z + q / 2.0 && m.t.z == p.t.z + q
  { }

  // ---------------------------------------------------------------- what an observation does to the state

  /**
   What an observation makes of a predicted state. The distance that is left to the observation is the noise's
   share of the surprise, and velocity and acceleration move with the surprise by their covariance with the level.
   */
  predicate Corrected(n: Innovation, before: Vec, observation: real, state: Vec) {
    && n.variance == n.predicted.r.x + n.noise
    && n.variance * (observation - state.x) == n.noise * (observation - before.x)
    && n.variance * (state.y - before.y) == n.predicted.s.x * (observation - before.x)
    && n.variance * (state.z - before.z) == n.predicted.t.x * (observation - before.x)
  }

  lemma CorrectionLaw(n: Innovation, before: Vec, observation: real, state: Vec)
    requires n.variance > 0.0 && n.variance == n.predicted.r.x + n.noise && n.value == observation - before.x
    requires state == AddVec(before, Scale(n.value, Gain(n)))
    ensures Corrected(n, before, observation, state)
  {
    var g := Gain(n);
    assert g.x * n.variance == n.predicted.r.x;
    assert g.y * n.variance == n.predicted.s.x && g.z * n.variance == n.predicted.t.x;
    Shares(n.value, g.x, n.variance, n.predicted.r.x, state.x - before.x);
    Shares(n.value, g.y, n.variance, n.predicted.s.x, state.y - before.y);
    Shares(n.value, g.z, n.variance, n.predicted.t.x, state.z - before.z);
    LeftShare(n.variance, n.value, state.x - before.x, n.predicted.r.x, n.noise);
  }

  lemma Shares(value: real, g: real, k: real, p: real, move: real)
    requires g * k == p && move == value * g
    ensures k * move == p * value
  { }

  lemma LeftShare(k: real, value: real, move: real, p: real, r: real)
    requires k * move == p * value && k == p + r
    ensures k * (value - move) == r * value
  { }

  /** The stored state is the corrected prediction, and its surprise is measured from constant-acceleration motion. */
  lemma StateLaw(root: real -> real, variance: real, f: Filter, observation: real)
    requires IsRoot(root) && variance > 0.0 && Psd(f.cov)
    ensures Corrected(Innovate(root, variance, f, observation),
                      Vec(f.state.x + f.state.y + f.state.z / 2.0, f.state.y + f.state.z, f.state.z),
                      observation, Observe(root, variance, f, observation).state)
  {
    CorrectionLaw(Innovate(root, variance, f, observation), PredictState(f.state), observation,
                  Observe(root, variance, f, observation).state);
  }

  /** The covariances that steer it, from the entries of the stored covariance. */
  lemma ColumnLaw(root: real -> real, variance: real, f: Filter, observation: real)
    requires IsRoot(root) && variance > 0.0 && Psd(f.cov)
    ensures var p := Innovate(root, variance, f, observation).predicted;
      PredictedColumn(f.cov, variance * 0.02, p.r.x, p.s.x, p.t.x)
  {
    ColumnPredicted(f.cov, variance * 0.02);
  }

  lemma MovesTowards(n: Innovation, before: Vec, observation: real, state: Vec)
    requires Corrected(n, before, observation, state) && n.variance > 0.0 && n.predicted.r.x >= 0.0 && n.noise >= 0.0
    ensures if before.x <= observation then before.x <= state.x <= observation
            else observation <= state.x <= before.x
  {
    Between(n.variance, n.predicted.r.x, n.noise, observation, before.x, state.x);
  }

  /** A surprise never carries the level past the observation, nor away from it. */
  lemma LevelMovesTowards(root: real -> real, variance: real, f: Filter, observation: real)
    requires IsRoot(root) && variance > 0.0 && Psd(f.cov)
    ensures var level := Observe(root, variance, f, observation).state.x;
      var before := f.state.x + f.state.y + f.state.z / 2.0;
      if before <= observation then before <= level <= observation else observation <= level <= before
  {
    StateLaw(root, variance, f, observation);
    DiagonalNonnegative(Innovate(root, variance, f, observation).predicted);
    MovesTowards(Innovate(root, variance, f, observation),
                 Vec(f.state.x + f.state.y + f.state.z / 2.0, f.state.y + f.state.z, f.state.z),
                 observation, Observe(root, variance, f, observation).state);
  }

  lemma Between(k: real, p: real, r: real, o: real, before: real, level: real)
    requires k > 0.0 && k == p + r && p >= 0.0 && r >= 0.0 && k * (o - level) == r * (o - before)
    ensures if before <= o then before <= level <= o else o <= level <= before
  {
    var gap := o - before;
    assert k * (level - before) == p * gap by { assert k * (level - before) == k * gap - k * (o - level); }
    SameSign(k, o - level, r, gap);
    SameSign(k, level - before, p, gap);
  }

  lemma SameSign(k: real, x: real, p: real, gap: real)
    requires k > 0.0 && p >= 0.0 && k * x == p * gap
    ensures gap >= 0.0 ==> x >= 0.0
    ensures gap <= 0.0 ==> x <= 0.0
  {
    if gap >= 0.0 && x < 0.0 { Product(p, gap); StrictProduct(k, -x); }
    if gap <= 0.0 && x > 0.0 { Product(p, -gap); StrictProduct(k, x); }
  }

  // ---------------------------------------------------------------- what an observation does to the covariance

  lemma ReducedForm(p: Mat, r: real, s: real, g: Vec, v: Vec, c: real, d: real)
    requires Symmetric(p) && s == p.r.x + r && s > 0.0 && c == Dot(p.r, v) && d == Dot(g, v) && Times(s, d) == c
    ensures s * Quad(Joseph(p, g, r), v) == s * Quad(p, v) - c * c
  {
    JosephForm(p, g, r, v);
    LeftIs(p, v, d, r, c, s);
    ReducedProducts(Quad(Joseph(p, g, r), v), Quad(p, v), d, c, s);
  }

  lemma ReducedProducts(after: real, before: real, d: real, c: real, s: real)
    requires after == before - 2.0 * (d * c) + d * d * s && s * d == c
    ensures s * after == s * before - c * c
  {
    assert d * d * s == d * c;
    assert s * (d * c) == c * c;
  }

  /** In every direction the observation takes away the squared covariance with the level over the variance. */
  ghost predicate Reduced(n: Innovation, m: Mat) {
    forall v: Vec :: n.variance * Quad(m, v) == n.variance * Quad(n.predicted, v) - Squared(Dot(n.predicted.r, v))
  }

  lemma JosephReduces(n: Innovation)
    requires n.variance > 0.0 && n.variance == n.predicted.r.x + n.noise && Symmetric(n.predicted)
    ensures Reduced(n, Joseph(n.predicted, Gain(n), n.noise))
  {
    var m := Joseph(n.predicted, Gain(n), n.noise);
    forall v: Vec
      ensures n.variance * Quad(m, v) == n.variance * Quad(n.predicted, v) - Squared(Dot(n.predicted.r, v))
    {
      GainAlong(n, v);
      ReducedForm(n.predicted, n.noise, n.variance, Gain(n), v, Dot(n.predicted.r, v), Dot(Gain(n), v));
    }
  }

  /** The matrix with every diagonal entry raised to epsilon. */
  predicate Floored(m: Mat, after: Mat) {
    && after.r == Vec(if m.r.x < EPSILON then EPSILON else m.r.x, m.r.y, m.r.z)
    && after.s == Vec(m.s.x, if m.s.y < EPSILON then EPSILON else m.s.y, m.s.z)
    && after.t == Vec(m.t.x, m.t.y, if m.t.z < EPSILON then EPSILON else m.t.z)
  }

  lemma UpdateFloors(n: Innovation)
    requires n.variance > 0.0 && Psd(n.predicted) && n.noise >= 0.0
    ensures Floored(Joseph(n.predicted, Gain(n), n.noise), JosephUpdate(n.predicted, Gain(n), n.noise))
  {
    UpdatedPsd(n.predicted, Gain(n), n.noise);
  }

  /** The stored covariance is the reduced prediction with its diagonal at least epsilon. */
  lemma CovarianceLaw(root: real -> real, variance: real, f: Filter, observation: real) returns (m: Mat)
    requires IsRoot(root) && variance > 0.0 && Psd(f.cov)
    ensures Reduced(Innovate(root, variance, f, observation), m)
    ensures Floored(m, Observe(root, variance, f, observation).cov)
  {
    var n := Innovate(root, variance, f, observation);
    m := Joseph(n.predicted, Gain(n), n.noise);
    JosephReduces(n);
    UpdateFloors(n);
  }

  function Squared(x: real): real { x * x }

  // ---------------------------------------------------------------- how a surprise is weighed

  /**
   The noise of an observation: the plain variance for a surprise within two and a half deviations, and beyond
   that inflated by the square of how far beyond it lies.
   */
  predicate Weighted(variance: real, noise: real, surprise: real, total: real) {
    if surprise * surprise <= 6.25 * total then noise == variance
    else noise * (6.25 * total) == variance * (surprise * surprise)
  }

  lemma WeighLaw(root: real -> real, variance: real, predicted: Mat, value: real, total: real)
    requires IsRoot(root) && variance >= EPSILON && Psd(predicted) && total == predicted.r.x + variance
    ensures Weighted(variance, Weigh(root, variance, predicted, value).noise, value, total)
  {
    var n := Weigh(root, variance, predicted, value);
    DiagonalNonnegative(predicted);
    RootPositive(root, total);
    var std, w := root(total), RobustWeight(n.z);
    UniqueProduct(value, std, n.z);
    WeightRange(n.z);
    SmallerWeight(variance, w);
    WeightLaw(variance, n.z, std, value, total, w, n.noise);
  }

  lemma NoiseLaw(root: real -> real, variance: real, f: Filter, observation: real)
    requires IsRoot(root) && variance >= EPSILON && Psd(f.cov)
    ensures var n := Innovate(root, variance, f, observation);
      Weighted(variance, n.noise, observation - (f.state.x + f.state.y + f.state.z / 2.0), n.predicted.r.x + variance)
  {
    PredictedPsd(f.cov, variance);
    var predicted := PredictCovariance(f.cov, ProcessNoise(variance * 0.02));
    WeighLaw(root, variance, predicted, observation - PredictState(f.state).x, predicted.r.x + variance);
  }

  lemma WeightLaw(variance: real, z: real, std: real, value: real, total: real, w: real, noise: real)
    requires variance > 0.0 && std > 0.0 && std * std == total && z * std == value
    requires w == RobustWeight(z) && noise * (w * w) == variance
    ensures Weighted(variance, noise, value, total)
  {
    SquareIs(std, total);
    SquareRatio(z, std, value, total);
    if Abs(z) > HUBER {
      WeightTimes(z, Abs(z), w);
      InflationLaw(w, Abs(z), z * z, noise, variance, total, value * value);
      BeyondSquare(Abs(z), z * z, total, value * value);
    } else {
      WithinSquare(Abs(z), z * z, total, value * value);
    }
  }

  lemma WeightTimes(z: real, a: real, w: real)
    requires a == Abs(z) && a > HUBER && w == RobustWeight(z)
    ensures w * a == HUBER && a * a == z * z
  { }

  lemma SquareRatio(z: real, std: real, value: real, total: real)
    requires z * std == value && std * std == total
    ensures (z * z) * total == value * value
  {
    assert (z * z) * (std * std) == (z * std) * (z * std);
  }

  lemma BeyondSquare(a: real, q: real, total: real, sq: real)
    requires a > HUBER && q == a * a && total > 0.0 && q * total == sq
    ensures sq > 6.25 * total
  {
    assert a * a > 6.25;
    StrictScaling(6.25, q, total);
  }

  lemma WithinSquare(a: real, q: real, total: real, sq: real)
    requires 0.0 <= a <= HUBER && q == a * a && total > 0.0 && q * total == sq
    ensures sq <= 6.25 * total
  {
    SmallProduct(a, a, q);
    Scaling(q, 6.25, total);
  }

  lemma SmallProduct(a: real, b: real, q: real)
    requires 0.0 <= a <= 2.5 && 0.0 <= b <= 2.5 && q == a * b
    ensures q <= 6.25
  {
    Product(2.5 - a, b);
    assert (2.5 - a) * b == 2.5 * b - q;
  }

  lemma InflationLaw(w: real, a: real, q: real, noise: real, variance: real, total: real, sq: real)
    requires w * a == HUBER && q == a * a && noise * (w * w) == variance && q * total == sq
    ensures noise * (6.25 * total) == variance * sq
  {
    assert (w * w) * (a * a) == (w * a) * (w * a);
    InflationProducts(noise, w * w, a * a, variance, total, sq);
  }

  lemma InflationProducts(noise: real, u: real, q: real, variance: real, total: real, sq: real)
    requires u * q == 6.25 && noise * u == variance && q * total == sq
    ensures noise * (6.25 * total) == variance * sq
  {
    assert noise * ((u * q) * total) == (noise * u) * (q * total);
  }

  /** The scores of a step: the surprise in deviations, its excess over the threshold, and whether it exceeds it. */
  lemma ScoreLaw(root: real -> real, variance: real, f: Filter, observation: real)
    requires IsRoot(root) && variance > 0.0 && Psd(f.cov)
    ensures var n, g := Innovate(root, variance, f, observation), Observe(root, variance, f, observation);
      && n.z * NominalStd(root, variance, n.predicted.r.x) == observation - (f.state.x + f.state.y + f.state.z / 2.0)
      && g.scores == f.scores + [if n.z < -20.0 then -20.0 else if n.z > 20.0 then 20.0 else n.z]
      && |g.shocks| == |f.shocks| + 1 && g.shocks[..|f.shocks|] == f.shocks
      && var shock, size := g.shocks[|f.shocks|], Abs(n.z);
         (size <= 2.5 ==> shock == 0.0 && g.outliers == f.outliers)
         && (2.5 < size ==> g.outliers == f.outliers + 1)
         && (2.5 <= size <= 7.5 ==> 5.0 * shock == size - 2.5) && (7.5 <= size ==> shock == 1.0)
  {
    var n := Innovate(root, variance, f, observation);
    DiagonalNonnegative(n.predicted);
    RootPositive(root, Max(n.predicted.r.x + variance, EPSILON));
    UniqueProduct(n.value, NominalStd(root, variance, n.predicted.r.x), n.z);
  }

  // ---------------------------------------------------------------- steady motion is tracked

  lemma NothingMoves(n: Innovation, before: Vec)
    requires n.variance > 0.0 && n.value == 0.0
    ensures AddVec(before, Scale(n.value, Gain(n))) == before
  { }

  lemma NoSurpriseWeighed(root: real -> real, variance: real, predicted: Mat)
    requires IsRoot(root) && variance > 0.0 && Psd(predicted)
    ensures Weigh(root, variance, predicted, 0.0).z == 0.0
  {
    DiagonalNonnegative(predicted);
    RootPositive(root, Max(predicted.r.x + variance, EPSILON));
  }

  /** An observation where it was predicted moves nothing and surprises nothing. */
  lemma NoSurprise(root: real -> real, variance: real, f: Filter, observation: real)
    requires IsRoot(root) && variance > 0.0 && Psd(f.cov) && observation == PredictState(f.state).x
    ensures var g := Observe(root, variance, f, observation);
      && g.state == PredictState(f.state) && g.outliers == f.outliers
      && g.scores == f.scores + [0.0] && g.shocks == f.shocks + [0.0]
  {
    PredictedPsd(f.cov, variance);
    NoSurpriseWeighed(root, variance, PredictCovariance(f.cov, ProcessNoise(variance * 0.02)));
    NothingMoves(Innovate(root, variance, f, observation), PredictState(f.state));
  }

  predicate OnMotion(logs: seq<real>, x: real, v: real, a: real) {
    forall i :: 0 <= i < |logs| ==> logs[i] == Motion(x, v, a, (i + 1) as real).x
  }

  /**
   On a series that moves with constant acceleration, a filter that starts at its state stays at it: every
   innovation is zero, and level, velocity and acceleration are exact at every bar.
   */
  lemma {:induction false} MotionTracked(root: real -> real, variance: real, f: Filter, logs: seq<real>, i: nat,
                                         x: real, v: real, a: real)
    requires IsRoot(root) && variance > 0.0 && Sound(f) && i <= |logs| && OnMotion(logs, x, v, a)
    requires f.state == Motion(x, v, a, 0.0)
    ensures Quiet(f, Run(root, variance, f, logs, i), Motion(x, v, a, i as real), i)
  {
    if i > 0 {
      MotionTracked(root, variance, f, logs, i - 1, x, v, a);
      PredictionIsMotion(x, v, a, (i - 1) as real);
      assert (i - 1) as real + 1.0 == i as real;
      NoSurprise(root, variance, Run(root, variance, f, logs, i - 1), logs[i - 1]);
      StaysQuiet(f, Run(root, variance, f, logs, i - 1), Run(root, variance, f, logs, i),
                 Motion(x, v, a, i as real), i);
    }
  }

  /** From `f` to `g` nothing surprised the filter for `n` bars, and it ended in `state`. */
  predicate Quiet(f: Filter, g: Filter, state: Vec, n: nat) {
    && g.state == state && g.outliers == f.outliers && |g.scores| == |f.scores| + n && |g.shocks| == |f.shocks| + n
    && (forall k :: |f.scores| <= k < |g.scores| ==> g.scores[k] == 0.0)
    && (forall k :: |f.shocks| <= k < |g.shocks| ==> g.shocks[k] == 0.0)
  }

  lemma StaysQuiet(f: Filter, g: Filter, h: Filter, state: Vec, n: nat)
    requires n > 0 && Quiet(f, g, g.state, n - 1) && h.state == state && h.outliers == g.outliers
    requires h.scores == g.scores + [0.0] && h.shocks == g.shocks + [0.0]
    ensures Quiet(f, h, state, n)
  { }

  // ---------------------------------------------------------------- what is published

  /** The observation scale is the largest of its four candidates. */
  lemma ScaleLaw(mad: real, rms: real, drift: real)
    ensures var s := ScaleOf(mad, rms, drift);
      && s >= mad && 2.0 * s >= rms && 50.0 * s >= drift && 50.0 * s >= -drift && s >= MINIMUM_SCALE
      && (s == mad || 2.0 * s == rms || 50.0 * s == drift || 50.0 * s == -drift || s == MINIMUM_SCALE)
      && VarianceOf(mad, rms, drift) == s * s
  { }

  /** The filter starts on the first price, with the drift as velocity, and four, one and a quarter variances. */
  lemma StartLaw(first: real, drift: real, variance: real, v: Vec)
    ensures var f := Start(first, drift, variance);
      && f.state == Vec(first, drift, 0.0) && f.scores == [] && f.shocks == [] && f.outliers == 0
      && Quad(f.cov, v) == StartForm(variance, v.x * v.x, v.y * v.y, v.z * v.z)
  {
    DiagonalForm(variance * 4.0, variance, variance / 4.0, v);
    StartTerms(variance, v.x * v.x, v.y * v.y, v.z * v.z);
  }

  function StartForm(variance: real, x: real, y: real, z: real): real {
    4.0 * (variance * x) + variance * y + variance * z / 4.0
  }

  lemma StartTerms(variance: real, x: real, y: real, z: real)
    ensures variance * 4.0 * x + variance * y + variance / 4.0 * z == StartForm(variance, x, y, z)
  { }

  lemma DiagonalForm(a: real, b: real, c: real, v: Vec)
    ensures Quad(Diagonal(a, b, c), v) == a * (v.x * v.x) + b * (v.y * v.y) + c * (v.z * v.z)
  { }

  /** A z-score is the rate over its deviation, cut off at twenty. */
  predicate ZScore(z: real, rate: real, std: real) {
    && -20.0 <= z <= 20.0
    && (-20.0 < z < 20.0 ==> z * std == rate)
    && (z == 20.0 ==> rate >= 20.0 * std) && (z == -20.0 ==> rate <= -20.0 * std)
  }

  lemma ZScored(rate: real, std: real)
    requires std >= EPSILON
    ensures ZScore(Clamp(rate / Max(std, EPSILON), -20.0, 20.0), rate, std)
  {
    var q := rate / std;
    assert q * std == rate;
    if q >= 20.0 { Scaling(20.0, q, std); }
    if q <= -20.0 { Scaling(q, -20.0, std); }
  }

  /**
   The published estimate in terms of the filter: rates from the state, z-scores against their deviations, a
   direction only when the velocity is 1.96 deviations from zero, no confidence below one deviation of
   velocity and full confidence from four on, less the shock.
   */
  predicate ReportsOf(root: real -> real, f: Filter, e: Estimate)
    requires |f.shocks| >= 5 && |f.scores| >= 1
  {
    && e.velocity == f.state.y && e.acceleration == f.state.z && e.outliers == f.outliers
    && e.velocityStd == root(f.cov.s.y) && e.accelerationStd == root(f.cov.t.z)
    && ZScore(e.velocityZ, e.velocity, e.velocityStd) && ZScore(e.accelerationZ, e.acceleration, e.accelerationStd)
    && e.innovationZ == f.scores[|f.scores| - 1]
    && (e.direction == Rising <==> e.velocity > 1.96 * e.velocityStd)
    && (e.direction == Falling <==> e.velocity < -1.96 * e.velocityStd)
    && Confident(e.confidence, Abs(e.velocityZ), e.shock) && ShockOf(f.shocks, e.shock)
  }

  predicate Confident(confidence: real, size: real, shock: real) {
    && (size <= 1.0 ==> confidence == 0.0) && (1.0 <= size <= 4.0 ==> 3.0 * confidence == (size - 1.0) * (1.0 - shock))
    && (size >= 4.0 ==> confidence == 1.0 - shock)
  }

  /** The larger of the latest shock and the recent average, in which each bar counts half of the one after it. */
  predicate ShockOf(s: seq<real>, shock: real)
    requires |s| >= 5
  {
    var n := |s|;
    var average := (s[n - 5] + s[n - 4] + 2.0 * s[n - 3] + 4.0 * s[n - 2] + 8.0 * s[n - 1]) / 16.0;
    shock >= s[n - 1] && shock >= average && (shock == s[n - 1] || shock == average)
  }

  lemma ConfidenceLaw(z: real, shock: real)
    requires 0.0 <= shock <= 1.0
    ensures Confident(Significance(z) * (1.0 - shock), Abs(z), shock)
  {
    var k := Significance(z);
    if 1.0 <= Abs(z) <= 4.0 { assert 3.0 * k == Abs(z) - 1.0; ThreeTimes(k, Abs(z) - 1.0, 1.0 - shock); }
  }

  lemma ThreeTimes(k: real, a: real, b: real)
    requires 3.0 * k == a
    ensures 3.0 * (k * b) == a * b
  { }

  lemma ShockLaw(s: seq<real>)
    requires |s| >= 5
    ensures ShockOf(s, RawShock(s))
  { }

  lemma StdAtLeast(root: real -> real, x: real)
    requires IsRoot(root) && x >= EPSILON
    ensures root(x) >= EPSILON
  {
    RootPositive(root, x);
    SmallSquare(root(x), x);
  }

  lemma SmallSquare(r: real, x: real)
    requires r > 0.0 && r * r == x && x >= EPSILON
    ensures r >= EPSILON
  {
    if r < 1.0 {
      var q := (1.0 - r) * r;
      ProductIs(1.0 - r, r, q);
      assert q == r - r * r;
    }
  }

  lemma ReportLaw(y: real, z: real, vs: real, as_: real, score: real, raw: real, outliers: nat)
    requires vs >= EPSILON && as_ >= EPSILON && 0.0 <= raw <= 1.0 && -20.0 <= score <= 20.0
    ensures var e := Report(y, z, vs, as_, score, raw, outliers);
      && ZScore(e.velocityZ, y, vs) && ZScore(e.accelerationZ, z, as_) && Confident(e.confidence, Abs(e.velocityZ), raw)
      && e.shock == raw
  {
    ZScored(y, vs);
    ZScored(z, as_);
    ReportBounds(y, z, vs, as_, score, raw, outliers);
    ConfidenceLaw(Report(y, z, vs, as_, score, raw, outliers).velocityZ, raw);
  }

  lemma SummaryLaw(root: real -> real, f: Filter)
    requires IsRoot(root) && CausalState.Sound(f) && DiagonalFloor(f.cov) && |f.shocks| >= 5
    ensures ReportsOf(root, f, Summary(root, f))
  {
    StdAtLeast(root, f.cov.s.y);
    StdAtLeast(root, f.cov.t.z);
    ShockBounds(f.shocks);
    ShockLaw(f.shocks);
    ReportLaw(f.state.y, f.state.z, root(f.cov.s.y), root(f.cov.t.z), f.scores[|f.scores| - 1], RawShock(f.shocks),
              f.outliers);
  }

  /** `e` reports the filter that starts on the first of these prices and observes the others in order. */
  ghost predicate Reports(root: real -> real, logs: seq<real>, drift: real, variance: real, e: Estimate)
    requires IsRoot(root) && |logs| >= 20 && variance > 0.0
  {
    && CausalState.Sound(Start(logs[0], drift, variance))
    && var f := Run(root, variance, Start(logs[0], drift, variance), logs[1..], |logs| - 1);
       |f.shocks| == |logs| - 1 && |f.scores| == |logs| - 1 && ReportsOf(root, f, e)
  }

  lemma {:induction false} WindowReports(root: real -> real, logs: seq<real>, drift: real, variance: real)
    requires IsRoot(root) && |logs| >= 20 && variance > 0.0
    ensures Reports(root, logs, drift, variance, Summary(root, Filtered(root, logs, drift, variance)))
  {
    StartSound(logs[0], drift, variance);
    SummaryLaw(root, Filtered(root, logs, drift, variance));
  }

  lemma EstimateIs(root: real -> real, prices: seq<real>, window: nat, drift: real, mad: real, rms: real)
    requires IsRoot(root) && 20 <= window <= |prices|
    ensures EstimateOf(root, prices, window, drift, mad, rms)
         == Some(Summary(root, Filtered(root, prices[|prices| - window..], drift, VarianceOf(mad, rms, drift))))
  { }

  /** The whole estimate reports the filter over the last `window` prices. */
  lemma {:induction false} EstimateLaw(root: real -> real, prices: seq<real>, window: nat, drift: real, mad: real,
                                       rms: real)
    requires IsRoot(root) && 20 <= window <= |prices|
    ensures var e := EstimateOf(root, prices, window, drift, mad, rms);
      e.Some? && Reports(root, prices[|prices| - window..], drift, VarianceOf(mad, rms, drift), e.value)
  {
    EstimateIs(root, prices, window, drift, mad, rms);
    WindowReports(root, prices[|prices| - window..], drift, VarianceOf(mad, rms, drift));
  }
}
