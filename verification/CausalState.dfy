/**
 The robust constant-acceleration filter of `causal_state_estimate`, over exact reals. Log prices are
 inputs, and the square root is any function with its defining property.
 */
module CausalState {
  import opened Options
  import opened Matrices
  import opened Reals

  const MINIMUM_SCALE: real := 0.0000000001
  const HUBER: real := 2.5

  // ---------------------------------------------------------------- prediction

  const TRANSITION: Mat := Mat(Vec(1.0, 1.0, 0.5), Vec(0.0, 1.0, 1.0), Vec(0.0, 0.0, 1.0))

  /** Process noise, entry by entry as the source writes it. */
  function ProcessNoise(p: real): Mat {
    Mat(Vec(p / 36.0, p / 12.0, p / 6.0), Vec(p / 12.0, p / 4.0, p / 2.0), Vec(p / 6.0, p / 2.0, p))
  }

  lemma NoiseIsOuter(p: real)
    ensures ProcessNoise(p) == Outer(p, Vec(1.0 / 6.0, 1.0 / 2.0, 1.0))
  { }

  function PredictCovariance(cov: Mat, noise: Mat): Mat {
    Add(Multiply(Multiply(TRANSITION, cov), Transpose(TRANSITION)), noise)
  }

  lemma PredictedPsd(cov: Mat, variance: real)
    requires Psd(cov) && variance >= 0.0
    ensures Psd(PredictCovariance(cov, ProcessNoise(variance * 0.02)))
  {
    CongruencePsd(TRANSITION, cov);
    NoiseIsOuter(variance * 0.02);
    OuterPsd(variance * 0.02, Vec(1.0 / 6.0, 1.0 / 2.0, 1.0));
    AddPsd(Multiply(Multiply(TRANSITION, cov), Transpose(TRANSITION)), ProcessNoise(variance * 0.02));
  }

  // ---------------------------------------------------------------- the Joseph update

  function IdentityMinus(gain: Vec): Mat {
    Mat(Vec(1.0 - gain.x, 0.0, 0.0), Vec(0.0 - gain.y, 1.0, 0.0), Vec(0.0 - gain.z, 0.0, 1.0))
  }

  /** The covariance before the clean-up of round-off. */
  function Joseph(predicted: Mat, gain: Vec, noise: real): Mat {
    var a := IdentityMinus(gain);
    Add(Multiply(Multiply(a, predicted), Transpose(a)), Outer(noise, gain))
  }

  function RaiseDiagonal(m: Mat): Mat {
    Mat(Vec(Max(m.r.x, EPSILON), m.r.y, m.r.z), Vec(m.s.x, Max(m.s.y, EPSILON), m.s.z),
        Vec(m.t.x, m.t.y, Max(m.t.z, EPSILON)))
  }

  function Symmetrize(m: Mat): Mat {
    var xy, xz, yz := (m.r.y + m.s.x) / 2.0, (m.r.z + m.t.x) / 2.0, (m.s.z + m.t.y) / 2.0;
    Mat(Vec(m.r.x, xy, xz), Vec(xy, m.s.y, yz), Vec(xz, yz, m.t.z))
  }

  function JosephUpdate(predicted: Mat, gain: Vec, noise: real): Mat {
    Symmetrize(RaiseDiagonal(Joseph(predicted, gain, noise)))
  }

  /** One entry of the rank-one term. */
  function Push(gain: Vec, noise: real, i: nat, j: nat): real { Part(gain, i) * noise * Part(gain, j) }

  method AddRankOne(c: array2<real>, start: Mat, gain: Vec, noise: real)
    requires c.Length0 == 3 && c.Length1 == 3
    requires forall i, j :: 0 <= i < 3 && 0 <= j < 3 ==> c[i, j] == Entry(start, i, j)
    modifies c
    ensures forall i, j :: 0 <= i < 3 && 0 <= j < 3 ==> c[i, j] == Entry(start, i, j) + Push(gain, noise, i, j)
  {
    for row := 0 to 3
      invariant forall i, j :: 0 <= i < 3 && 0 <= j < 3 ==>
        c[i, j] == Entry(start, i, j) + (if i < row then Push(gain, noise, i, j) else 0.0)
    {
      for column := 0 to 3
        invariant forall i, j :: 0 <= i < 3 && 0 <= j < 3 ==>
          c[i, j] == Entry(start, i, j) + (if i < row || (i == row && j < column) then Push(gain, noise, i, j) else 0.0)
      {
        c[row, column] := c[row, column] + Push(gain, noise, row, column);
      }
    }
  }

  /** The clean-up loop: raise the diagonal, average mirrored entries. */
  method CleanUp(c: array2<real>, m: Mat)
    requires c.Length0 == 3 && c.Length1 == 3
    requires forall i, j :: 0 <= i < 3 && 0 <= j < 3 ==> c[i, j] == Entry(m, i, j)
    modifies c
    ensures forall i, j :: 0 <= i < 3 && 0 <= j < 3 ==> c[i, j] == Entry(Symmetrize(RaiseDiagonal(m)), i, j)
  {
    ghost var clean := Symmetrize(RaiseDiagonal(m));
    for row := 0 to 3
      invariant forall i, j :: 0 <= i < 3 && 0 <= j < 3 ==>
        c[i, j] == (if i < row || j < row then Entry(clean, i, j) else Entry(m, i, j))
    {
      c[row, row] := Max(c[row, row], EPSILON);
      for column := row + 1 to 3
        invariant forall i, j :: 0 <= i < 3 && 0 <= j < 3 ==>
          c[i, j] == (if i < row || j < row || (i == row && j < column) || (j == row && i < column)
                      then Entry(clean, i, j) else Entry(m, i, j))
      {
        var mean := (c[row, column] + c[column, row]) / 2.0;
        c[row, column] := mean;
        c[column, row] := mean;
      }
    }
  }

  function Rows(a: real, b: real, c: real, d: real, e: real, f: real, g: real, h: real, i: real): Mat {
    Mat(Vec(a, b, c), Vec(d, e, f), Vec(g, h, i))
  }

  lemma EntryPushed(start: Mat, gain: Vec, noise: real, i: nat, j: nat)
    requires i < 3 && j < 3
    ensures Entry(Add(start, Outer(noise, gain)), i, j) == Entry(start, i, j) + Push(gain, noise, i, j)
  {
    EntryOuter(noise, gain, i, j);
    EntryAddTo(start, Outer(noise, gain), i, j, Push(gain, noise, i, j));
  }

  lemma EntryAddTo(a: Mat, b: Mat, i: nat, j: nat, entry: real)
    requires i < 3 && j < 3 && Entry(b, i, j) == entry
    ensures Entry(Add(a, b), i, j) == Entry(a, i, j) + entry
  {
    EntryAdd(a, b, i, j);
  }

  lemma EntryAdd(a: Mat, b: Mat, i: nat, j: nat)
    requires i < 3 && j < 3
    ensures Entry(Add(a, b), i, j) == Entry(a, i, j) + Entry(b, i, j)
  { }

  lemma EntryOuter(k: real, u: Vec, i: nat, j: nat)
    requires i < 3 && j < 3
    ensures Entry(Outer(k, u), i, j) == Push(u, k, i, j)
  {
    if i == 0 { FirstRow(k, u, j); } else if i == 1 { SecondRow(k, u, j); } else { ThirdRow(k, u, j); }
  }

  lemma FirstRow(k: real, u: Vec, j: nat)
    requires j < 3
    ensures Entry(Outer(k, u), 0, j) == Push(u, k, 0, j)
  {
    PartOfScale(u.x * k, u, j);
  }

  lemma SecondRow(k: real, u: Vec, j: nat)
    requires j < 3
    ensures Entry(Outer(k, u), 1, j) == Push(u, k, 1, j)
  {
    PartOfScale(u.y * k, u, j);
  }

  lemma ThirdRow(k: real, u: Vec, j: nat)
    requires j < 3
    ensures Entry(Outer(k, u), 2, j) == Push(u, k, 2, j)
  {
    PartOfScale(u.z * k, u, j);
  }

  lemma PartOfScale(a: real, u: Vec, j: nat)
    requires j < 3
    ensures Part(Scale(a, u), j) == a * Part(u, j)
  { }

  /** `_joseph_update` with its in-place loops over the matrix. */
  method UpdateInPlace(predicted: Mat, gain: Vec, noise: real) returns (m: Mat)
    ensures m == JosephUpdate(predicted, gain, noise)
  {
    var a := IdentityMinus(gain);
    var start := Multiply(Multiply(a, predicted), Transpose(a));
    var c := new real[3, 3]((i, j) => if 0 <= i < 3 && 0 <= j < 3 then Entry(start, i, j) else 0.0);
    AddRankOne(c, start, gain, noise);
    forall i, j | 0 <= i < 3 && 0 <= j < 3 ensures c[i, j] == Entry(Joseph(predicted, gain, noise), i, j) {
      EntryPushed(start, gain, noise, i, j);
    }
    CleanUp(c, Joseph(predicted, gain, noise));
    m := Rows(c[0, 0], c[0, 1], c[0, 2], c[1, 0], c[1, 1], c[1, 2], c[2, 0], c[2, 1], c[2, 2]);
    MatFromEntries(m, JosephUpdate(predicted, gain, noise));
  }

  lemma MatFromEntries(a: Mat, b: Mat)
    requires forall i: nat, j: nat :: i < 3 && j < 3 ==> Entry(a, i, j) == Entry(b, i, j)
    ensures a == b
  {
    assert Entry(a, 0, 0) == Entry(b, 0, 0) && Entry(a, 0, 1) == Entry(b, 0, 1) && Entry(a, 0, 2) == Entry(b, 0, 2);
    assert Entry(a, 1, 0) == Entry(b, 1, 0) && Entry(a, 1, 1) == Entry(b, 1, 1) && Entry(a, 1, 2) == Entry(b, 1, 2);
    assert Entry(a, 2, 0) == Entry(b, 2, 0) && Entry(a, 2, 1) == Entry(b, 2, 1) && Entry(a, 2, 2) == Entry(b, 2, 2);
  }

  lemma RaisePsd(m: Mat)
    requires Psd(m)
    ensures Psd(RaiseDiagonal(m))
  {
    var d := Diagonal(Max(m.r.x, EPSILON) - m.r.x, Max(m.s.y, EPSILON) - m.s.y, Max(m.t.z, EPSILON) - m.t.z);
    DiagonalPsd(d.r.x, d.s.y, d.t.z);
    AddPsd(m, d);
    assert Add(m, d) == RaiseDiagonal(m);
  }

  /**
   The update keeps the covariance positive semidefinite with diagonal at least epsilon; averaging changes
   nothing.
   */
  lemma UpdatedPsd(predicted: Mat, gain: Vec, noise: real)
    requires Psd(predicted) && noise >= 0.0
    ensures var m := JosephUpdate(predicted, gain, noise);
      && Psd(m) && m.r.x >= EPSILON && m.s.y >= EPSILON && m.t.z >= EPSILON
      && m == RaiseDiagonal(Joseph(predicted, gain, noise))
  {
    var a := IdentityMinus(gain);
    CongruencePsd(a, predicted);
    OuterPsd(noise, gain);
    AddPsd(Multiply(Multiply(a, predicted), Transpose(a)), Outer(noise, gain));
    RaisePsd(Joseph(predicted, gain, noise));
  }

  // ---------------------------------------------------------------- one observation

  datatype Filter = Filter(state: Vec, cov: Mat, scores: seq<real>, shocks: seq<real>, outliers: nat)

  function PredictState(s: Vec): Vec { Vec(s.x + s.y + s.z / 2.0, s.y + s.z, s.z) }

  function RobustWeight(z: real): real { if Abs(z) > HUBER then HUBER / Abs(z) else 1.0 }

  /** The predicted covariance, the normalised innovation and the variance used for one observation. */
  datatype Innovation = Innovation(predicted: Mat, value: real, z: real, noise: real, variance: real)

  function NominalStd(root: real -> real, variance: real, level: real): real { root(Max(level + variance, EPSILON)) }

  /** Normalise an innovation and inflate the observation variance of an outlier. */
  function Weigh(root: real -> real, variance: real, predicted: Mat, value: real): (n: Innovation)
    requires IsRoot(root) && variance > 0.0 && Psd(predicted)
    ensures n.predicted == predicted && n.value == value
    ensures n.noise >= variance && n.variance > 0.0 && n.variance == predicted.r.x + n.noise
  {
    DiagonalNonnegative(predicted);
    var std := NominalStd(root, variance, predicted.r.x);
    RootPositive(root, Max(predicted.r.x + variance, EPSILON));
    var z := value / std;
    var w := RobustWeight(z);
    WeightRange(z);
    SmallerWeight(variance, w);
    var noise := variance / (w * w);
    Innovation(predicted, value, z, noise, predicted.r.x + noise)
  }

  function Innovate(root: real -> real, variance: real, f: Filter, observation: real): (n: Innovation)
    requires IsRoot(root) && variance > 0.0 && Psd(f.cov)
    ensures Psd(n.predicted) && n.noise >= variance && n.variance > 0.0 && n.variance == n.predicted.r.x + n.noise
  {
    PredictedPsd(f.cov, variance);
    Weigh(root, variance, PredictCovariance(f.cov, ProcessNoise(variance * 0.02)),
          observation - PredictState(f.state).x)
  }

  lemma WeightRange(z: real)
    ensures 0.0 < RobustWeight(z) <= 1.0
  {
    if Abs(z) > HUBER { Quotient(HUBER, Abs(z)); }
  }

  lemma Quotient(a: real, b: real)
    requires 0.0 < a <= b
    ensures 0.0 < a / b <= 1.0
  { }

  /** Down-weighting an observation inflates its variance and never shrinks it. */
  lemma SmallerWeight(variance: real, w: real)
    requires variance > 0.0 && 0.0 < w <= 1.0
    ensures w * w > 0.0 && variance / (w * w) >= variance
  {
    Product(w, 1.0 - w);
    Enlarges(variance, w * w, variance / (w * w));
  }

  lemma Enlarges(v: real, q: real, n: real)
    requires v > 0.0 && 0.0 < q <= 1.0 && n * q == v
    ensures n >= v
  {
    if n < 0.0 { StrictProduct(-n, q); } else { Product(n, 1.0 - q); }
  }

  function Gain(n: Innovation): Vec
    requires n.variance > 0.0
  {
    Vec(n.predicted.r.x / n.variance, n.predicted.s.x / n.variance, n.predicted.t.x / n.variance)
  }

  function Observe(root: real -> real, variance: real, f: Filter, observation: real): Filter
    requires IsRoot(root) && variance > 0.0 && Psd(f.cov)
  {
    var n := Innovate(root, variance, f, observation);
    var g := Gain(n);
    Filter(AddVec(PredictState(f.state), Scale(n.value, g)),
           JosephUpdate(n.predicted, g, n.noise),
           f.scores + [Clamp(n.z, -20.0, 20.0)],
           f.shocks + [Clamp((Abs(n.z) - HUBER) / 5.0, 0.0, 1.0)],
           f.outliers + (if Abs(n.z) > HUBER then 1 else 0))
  }

  ghost predicate Sound(f: Filter) {
    && Psd(f.cov) && |f.scores| == |f.shocks| && f.outliers <= |f.shocks|
    && (forall i :: 0 <= i < |f.shocks| ==> 0.0 <= f.shocks[i] <= 1.0 && -20.0 <= f.scores[i] <= 20.0)
  }

  predicate DiagonalFloor(m: Mat) { m.r.x >= EPSILON && m.s.y >= EPSILON && m.t.z >= EPSILON }

  lemma ObserveSound(root: real -> real, variance: real, f: Filter, observation: real)
    requires IsRoot(root) && variance > 0.0 && Sound(f)
    ensures Sound(Observe(root, variance, f, observation))
    ensures DiagonalFloor(Observe(root, variance, f, observation).cov)
  {
    var n := Innovate(root, variance, f, observation);
    UpdatedPsd(n.predicted, Gain(n), n.noise);
  }

  // ---------------------------------------------------------------- the gain is the best one

  /** The variance along `v` when an update takes `d` of the first coordinate and adds noise `r`. */
  function Left(p: Mat, v: Vec, d: real, r: real): real { Quad(p, Vec(v.x - d, v.y, v.z)) + Times(Times(r, d), d) }

  lemma JosephForm(p: Mat, k: Vec, r: real, v: Vec)
    ensures Quad(Joseph(p, k, r), v) == Left(p, v, Dot(k, v), r)
  {
    var a := IdentityMinus(k);
    CongruenceForm(a, p, v);
    OuterForm(r, k, v);
    QuadAdd(Multiply(Multiply(a, p), Transpose(a)), Outer(r, k), v);
    ReadBack(k, v);
  }

  lemma ReadBack(k: Vec, v: Vec)
    ensures Apply(Transpose(IdentityMinus(k)), v) == Vec(v.x - Dot(k, v), v.y, v.z)
  { }

  lemma ShiftedApply(p: Mat, v: Vec, d: real)
    ensures Apply(p, Vec(v.x - d, v.y, v.z))
         == Vec(Dot(p.r, v) - d * p.r.x, Dot(p.s, v) - d * p.s.x, Dot(p.t, v) - d * p.t.x)
  {
    RowShift(p.r, v, d);
    RowShift(p.s, v, d);
    RowShift(p.t, v, d);
  }

  /** Moving the first coordinate back by `d` changes a symmetric form quadratically in `d`. */
  lemma ShiftedForm(p: Mat, v: Vec, d: real, c: real)
    requires Symmetric(p) && c == Dot(p.r, v)
    ensures Quad(p, Vec(v.x - d, v.y, v.z)) == Quad(p, v) - 2.0 * (d * c) + d * d * p.r.x
  {
    ShiftedApply(p, v, d);
    FirstColumn(p, v);
    ShiftedDot(v, d, c, Dot(p.s, v), Dot(p.t, v), p.r.x, p.s.x, p.t.x, c);
  }

  lemma RowShift(a: Vec, v: Vec, d: real)
    ensures Dot(a, Vec(v.x - d, v.y, v.z)) == Dot(a, v) - d * a.x
  { }

  lemma ShiftedDot(v: Vec, d: real, x: real, y: real, z: real, a: real, b: real, c: real, column: real)
    requires column == Dot(v, Vec(a, b, c)) && column == x
    ensures Dot(Vec(v.x - d, v.y, v.z), Vec(x - d * a, y - d * b, z - d * c))
         == Dot(v, Vec(x, y, z)) - 2.0 * (d * x) + d * d * a
  {
    assert d * column == d * (v.x * a) + d * (v.y * b) + d * (v.z * c);
  }

  lemma FirstColumn(p: Mat, v: Vec)
    requires Symmetric(p)
    ensures Dot(v, Vec(p.r.x, p.s.x, p.t.x)) == Dot(p.r, v)
  { }

  /** Completing the square around the gain for which s d0 = c. */
  lemma SquareCompleted(other: real, own: real, before: real, d: real, d0: real, c: real, s: real, gap: real)
    requires s > 0.0 && s * d0 == c && gap == d - d0
    requires other == before - 2.0 * (d * c) + d * d * s && own == before - 2.0 * (d0 * c) + d0 * d0 * s
    ensures other == own + Penalty(s, gap) && own <= other
  {
    assert s * (gap * gap) == d * d * s - 2.0 * (d * (s * d0)) + d0 * (s * d0);
    assert d0 * d0 * s == d0 * c;
    Square(gap);
    Product(s, gap * gap);
  }

  lemma GainAlong(n: Innovation, v: Vec)
    requires n.variance > 0.0 && Symmetric(n.predicted)
    ensures Times(n.variance, Dot(Gain(n), v)) == Dot(n.predicted.r, v)
  {
    var g := Gain(n);
    var p := n.predicted;
    assert g.x * n.variance == p.r.x && g.y * n.variance == p.s.x && g.z * n.variance == p.t.x;
    GainDot(n.variance, g, n.predicted.r, v);
  }

  lemma GainDot(k: real, g: Vec, r: Vec, v: Vec)
    requires g.x * k == r.x && g.y * k == r.y && g.z * k == r.z
    ensures k * Dot(g, v) == Dot(r, v)
  { }

  lemma LeftIs(p: Mat, v: Vec, d: real, r: real, c: real, s: real)
    requires Symmetric(p) && c == Dot(p.r, v) && s == p.r.x + r
    ensures Left(p, v, d, r) == Quad(p, v) - 2.0 * (d * c) + d * d * s
  {
    ShiftedForm(p, v, d, c);
    SquareOut(r, d);
    Gathered(Left(p, v, d, r), Quad(p, Vec(v.x - d, v.y, v.z)), Quad(p, v), d, c, p.r.x, r, s);
  }

  lemma Gathered(after: real, shifted: real, before: real, d: real, c: real, p: real, r: real, s: real)
    requires after == shifted + r * (d * d) && shifted == before - 2.0 * (d * c) + d * d * p && s == p + r
    ensures after == before - 2.0 * (d * c) + d * d * s
  { }

  function Penalty(s: real, gap: real): real { s * (gap * gap) }

  lemma LeftLeast(p: Mat, v: Vec, r: real, s: real, d: real, d0: real)
    requires Symmetric(p) && s == p.r.x + r && s > 0.0 && Times(s, d0) == Dot(p.r, v)
    ensures Left(p, v, d, r) == Left(p, v, d0, r) + Penalty(s, d - d0) && Left(p, v, d0, r) <= Left(p, v, d, r)
  {
    var c := Dot(p.r, v);
    LeftIs(p, v, d, r, c, s);
    LeftIs(p, v, d0, r, c, s);
    SquareCompleted(Left(p, v, d, r), Left(p, v, d0, r), Quad(p, v), d, d0, c, s, d - d0);
  }

  /**
   The gain of the filter is the best linear gain: in every direction any other gain leaves more variance,
   by exactly the innovation variance times the squared difference of the two gains along it.
   */
  lemma GainIsOptimal(n: Innovation, k: Vec, v: Vec)
    requires n.variance > 0.0 && n.variance == n.predicted.r.x + n.noise && Symmetric(n.predicted)
    ensures var own, other := Quad(Joseph(n.predicted, Gain(n), n.noise), v), Quad(Joseph(n.predicted, k, n.noise), v);
      other == own + Penalty(n.variance, Dot(k, v) - Dot(Gain(n), v)) && own <= other
  {
    GainAlong(n, v);
    JosephForm(n.predicted, k, n.noise, v);
    JosephForm(n.predicted, Gain(n), n.noise, v);
    LeftLeast(n.predicted, v, n.noise, n.variance, Dot(k, v), Dot(Gain(n), v));
  }

  /** What is left of an innovation after the update is its share of observation noise. */
  lemma ResidualAfterUpdate(n: Innovation)
    requires n.variance > 0.0 && n.variance == n.predicted.r.x + n.noise
    ensures n.variance * (n.value - Scale(n.value, Gain(n)).x) == n.noise * n.value
  {
    var g := Gain(n).x;
    assert g * n.variance == n.predicted.r.x;
    LeftOver(n.value, g, n.variance, n.predicted.r.x, n.noise);
  }

  lemma LeftOver(value: real, g: real, s: real, p: real, r: real)
    requires g * s == p && s == p + r
    ensures s * (value - value * g) == r * value
  { }

  // ---------------------------------------------------------------- the whole window

  function Start(first: real, drift: real, variance: real): Filter {
    Filter(Vec(first, drift, 0.0), Diagonal(variance * 4.0, variance, variance / 4.0), [], [], 0)
  }

  lemma StartSound(first: real, drift: real, variance: real)
    requires variance > 0.0
    ensures Sound(Start(first, drift, variance))
  {
    DiagonalPsd(variance * 4.0, variance, variance / 4.0);
  }

  /** The filter after the first `i` observations. */
  function Run(root: real -> real, variance: real, f: Filter, logs: seq<real>, i: nat): (g: Filter)
    requires IsRoot(root) && variance > 0.0 && Sound(f) && i <= |logs|
    ensures Sound(g) && |g.shocks| == |f.shocks| + i && (i > 0 ==> DiagonalFloor(g.cov))
  {
    if i == 0 then f
    else
      var g := Run(root, variance, f, logs, i - 1);
      ObserveSound(root, variance, g, logs[i - 1]);
      Observe(root, variance, g, logs[i - 1])
  }

  /**
   For every observation sequence: each covariance the filter predicts or stores is symmetric positive
   semidefinite, stored diagonals are at least epsilon, and every variance it divides by is positive.
   */
  lemma EveryStepIsSound(root: real -> real, variance: real, first: real, drift: real, logs: seq<real>, i: nat)
    requires IsRoot(root) && variance > 0.0 && i < |logs|
    ensures Sound(Start(first, drift, variance))
    ensures var f := Run(root, variance, Start(first, drift, variance), logs, i);
      var n := Innovate(root, variance, f, logs[i]);
      && Psd(f.cov) && (i > 0 ==> DiagonalFloor(f.cov))
      && Psd(n.predicted) && n.variance > 0.0 && n.noise >= variance
      && Psd(Observe(root, variance, f, logs[i]).cov)
  {
    StartSound(first, drift, variance);
    ObserveSound(root, variance, Run(root, variance, Start(first, drift, variance), logs, i), logs[i]);
  }

  // ---------------------------------------------------------------- the estimate

  function ScaleOf(mad: real, rms: real, drift: real): (s: real)
    ensures s >= MINIMUM_SCALE
  {
    Max(Max(mad, rms * 0.5), Max(Abs(drift) * 0.02, MINIMUM_SCALE))
  }

  /** The weighted mean of the five latest shock scores. */
  function WeightedShock(s: seq<real>): real
    requires |s| >= 5
  {
    var n := |s|;
    0.0625 * s[n - 5] + 0.0625 * s[n - 4] + 0.125 * s[n - 3] + 0.25 * s[n - 2] + 0.5 * s[n - 1]
  }

  function RawShock(s: seq<real>): real
    requires |s| >= 5
  {
    Max(WeightedShock(s), s[|s| - 1])
  }

  function Significance(z: real): real { Clamp((Abs(z) - 1.0) / 3.0, 0.0, 1.0) }

  datatype Direction = Rising | Falling | Flat

  datatype Estimate = Estimate(
    velocity: real, acceleration: real, velocityStd: real, accelerationStd: real, velocityZ: real,
    accelerationZ: real, innovationZ: real, shock: real, confidence: real, direction: Direction, outliers: nat)

  /** The published fields, from the final rates with their standard deviations and the latest scores. */
  function Report(y: real, z: real, vs: real, as_: real, score: real, raw: real, outliers: nat): Estimate {
    var vz := Clamp(y / Max(vs, EPSILON), -20.0, 20.0);
    var az := Clamp(z / Max(as_, EPSILON), -20.0, 20.0);
    var shock := Clamp(raw, 0.0, 1.0);
    var confidence := Clamp(Significance(vz) * (1.0 - shock), 0.0, 1.0);
    var lower, upper := y - 1.96 * vs, y + 1.96 * vs;
    Estimate(y, z, vs, as_, vz, az, score, shock, confidence,
             if lower > 0.0 then Rising else if upper < 0.0 then Falling else Flat, outliers)
  }

  function Summary(root: real -> real, f: Filter): Estimate
    requires IsRoot(root) && Sound(f) && DiagonalFloor(f.cov) && |f.shocks| >= 5
  {
    Report(f.state.y, f.state.z, root(f.cov.s.y), root(f.cov.t.z), f.scores[|f.scores| - 1], RawShock(f.shocks),
           f.outliers)
  }

  lemma ClampWithin(x: real, lo: real, hi: real)
    requires lo <= hi
    ensures lo <= Clamp(x, lo, hi) <= hi
  { }

  lemma ShockBounds(s: seq<real>)
    requires |s| >= 5 && forall i :: 0 <= i < |s| ==> 0.0 <= s[i] <= 1.0
    ensures 0.0 <= RawShock(s) <= 1.0 && Clamp(RawShock(s), 0.0, 1.0) == RawShock(s)
  { }

  lemma ConfidenceBounds(z: real, shock: real)
    requires 0.0 <= shock <= 1.0
    ensures 0.0 <= Significance(z) * (1.0 - shock) <= 1.0
    ensures Clamp(Significance(z) * (1.0 - shock), 0.0, 1.0) == Significance(z) * (1.0 - shock)
  {
    ClampWithin((Abs(z) - 1.0) / 3.0, 0.0, 1.0);
    UnitProduct(Significance(z), 1.0 - shock);
  }

  /** The bounds promised for a published estimate, with every clamp but the z-score ones redundant. */
  predicate Published(e: Estimate, raw: real) {
    && e.shock == raw && 0.0 <= e.shock <= 1.0
    && e.confidence == Significance(e.velocityZ) * (1.0 - e.shock) && 0.0 <= e.confidence <= 1.0
    && e.velocityStd > 0.0 && e.accelerationStd > 0.0
    && -20.0 <= e.velocityZ <= 20.0 && -20.0 <= e.accelerationZ <= 20.0 && -20.0 <= e.innovationZ <= 20.0
  }

  lemma ReportBounds(y: real, z: real, vs: real, as_: real, score: real, raw: real, outliers: nat)
    requires 0.0 <= raw <= 1.0 && -20.0 <= score <= 20.0 && vs > 0.0 && as_ > 0.0
    ensures Published(Report(y, z, vs, as_, score, raw, outliers), raw)
  {
    var a, b := y / Max(vs, EPSILON), z / Max(as_, EPSILON);
    ClampWithin(a, -20.0, 20.0);
    ClampWithin(b, -20.0, 20.0);
    ConfidenceBounds(Clamp(a, -20.0, 20.0), raw);
  }

  lemma SummaryBounds(root: real -> real, f: Filter)
    requires IsRoot(root) && Sound(f) && DiagonalFloor(f.cov) && |f.shocks| >= 5
    ensures Published(Summary(root, f), RawShock(f.shocks))
  {
    RootPositive(root, f.cov.s.y);
    RootPositive(root, f.cov.t.z);
    ShockBounds(f.shocks);
    ReportBounds(f.state.y, f.state.z, root(f.cov.s.y), root(f.cov.t.z), f.scores[|f.scores| - 1], RawShock(f.shocks),
                 f.outliers);
  }

  /** The body of the filter loop: state, covariance and score lists after one more observation. */
  method Absorb(root: real -> real, variance: real, f: Filter, observation: real) returns (g: Filter)
    requires IsRoot(root) && variance > 0.0 && Sound(f)
    ensures g == Observe(root, variance, f, observation)
  {
    var n := Innovate(root, variance, f, observation);
    var gain := Gain(n);
    var scores := f.scores + [Clamp(n.z, -20.0, 20.0)];
    var outliers := f.outliers;
    if Abs(n.z) > HUBER { outliers := outliers + 1; }
    var state := AddVec(PredictState(f.state), Scale(n.value, gain));
    var cov := UpdateInPlace(n.predicted, gain, n.noise);
    var shocks := f.shocks + [Clamp((Abs(n.z) - HUBER) / 5.0, 0.0, 1.0)];
    g := Filter(state, cov, scores, shocks, outliers);
  }

  method FilterAll(root: real -> real, variance: real, start: Filter, rest: seq<real>) returns (f: Filter)
    requires IsRoot(root) && variance > 0.0 && Sound(start)
    ensures f == Run(root, variance, start, rest, |rest|)
  {
    f := start;
    for i := 0 to |rest|
      invariant Sound(f) && f == Run(root, variance, start, rest, i)
    {
      ObserveSound(root, variance, f, rest[i]);
      f := Absorb(root, variance, f, rest[i]);
    }
  }

  function VarianceOf(mad: real, rms: real, drift: real): (v: real)
    ensures v > 0.0
  {
    var scale := ScaleOf(mad, rms, drift);
    StrictProduct(scale, scale);
    scale * scale
  }

  /** Start and filter over a whole window of log prices. */
  function Filtered(root: real -> real, logs: seq<real>, drift: real, variance: real): (f: Filter)
    requires IsRoot(root) && |logs| >= 20 && variance > 0.0
    ensures Sound(f) && DiagonalFloor(f.cov) && |f.shocks| == |logs| - 1
  {
    StartSound(logs[0], drift, variance);
    Run(root, variance, Start(logs[0], drift, variance), logs[1..], |logs| - 1)
  }

  /** The estimate of the last `window` log prices, or none when there are too few or the window is too short. */
  function EstimateOf(root: real -> real, prices: seq<real>, window: nat, drift: real, mad: real,
                      rms: real): Option<Estimate>
    requires IsRoot(root)
  {
    if window < 20 || |prices| < window then None
    else Some(Summary(root, Filtered(root, prices[|prices| - window..], drift, VarianceOf(mad, rms, drift))))
  }

  /**
   Every window: an estimate exists exactly from twenty log prices on, and a published one has shock and
   confidence in the unit interval, positive deviations and bounded z-scores.
   */
  lemma EstimateBounds(root: real -> real, prices: seq<real>, window: nat, drift: real, mad: real, rms: real)
    requires IsRoot(root)
    ensures var e := EstimateOf(root, prices, window, drift, mad, rms);
      && (e.Some? <==> 20 <= window <= |prices|)
      && (e.Some? ==> Published(e.value, e.value.shock))
  {
    if 20 <= window <= |prices| {
      WindowBounds(root, prices[|prices| - window..], drift, VarianceOf(mad, rms, drift));
    }
  }

  lemma WindowBounds(root: real -> real, logs: seq<real>, drift: real, variance: real)
    requires IsRoot(root) && |logs| >= 20 && variance > 0.0
    ensures var e := Summary(root, Filtered(root, logs, drift, variance)); Published(e, e.shock)
  {
    SummaryBounds(root, Filtered(root, logs, drift, variance));
  }

  method FilterWindow(root: real -> real, logs: seq<real>, drift: real, variance: real) returns (f: Filter)
    requires IsRoot(root) && |logs| >= 20 && variance > 0.0
    ensures f == Filtered(root, logs, drift, variance)
  {
    StartSound(logs[0], drift, variance);
    f := FilterAll(root, variance, Start(logs[0], drift, variance), logs[1..]);
  }

  method EstimateWindow(root: real -> real, logs: seq<real>, drift: real, variance: real) returns (e: Estimate)
    requires IsRoot(root) && |logs| >= 20 && variance > 0.0
    ensures e == Summary(root, Filtered(root, logs, drift, variance))
  {
    var f := FilterWindow(root, logs, drift, variance);
    e := Summary(root, f);
  }

  /** `causal_state_estimate` from log prices; drift, median deviation and rms come from the window's returns. */
  method EstimateState(root: real -> real, prices: seq<real>, window: nat, drift: real, mad: real, rms: real)
    returns (e: Option<Estimate>)
    requires IsRoot(root)
    ensures e == EstimateOf(root, prices, window, drift, mad, rms)
  {
    if window < 20 || |prices| < window { return None; }
    var estimate := EstimateWindow(root, prices[|prices| - window..], drift, VarianceOf(mad, rms, drift));
    e := Some(estimate);
  }

  // ---------------------------------------------------------------- how much a shock can move the level

  /** The observation variance after Huber weighting, written out. */
  function Inflated(variance: real, z: real): (v: real)
    ensures variance > 0.0 ==> v > 0.0
  {
    if Abs(z) <= HUBER then variance
    else InflatedPositive(variance, Abs(z)); variance * (Abs(z) * Abs(z)) / (HUBER * HUBER)
  }

  lemma InflatedPositive(variance: real, a: real)
    requires a > 0.0
    ensures variance > 0.0 ==> variance * (a * a) / (HUBER * HUBER) > 0.0
  {
    var q := a * a;
    SquareIs(a, q);
    if variance > 0.0 { StrictProduct(variance, q); }
  }

  /** The size of the level correction for an observation `z` standard deviations away. */
  function Correction(p: real, r: real, std: real, z: real): real
    requires p >= 0.0 && r > 0.0
  {
    p * (z * std) / (p + Inflated(r, z))
  }

  lemma CrossMultiply(a: real, b: real, c: real, d: real)
    requires b > 0.0 && d > 0.0
    ensures a / b <= c / d <==> a * d <= c * b
  {
    var x, y := a / b, c / d;
    assert x * b == a && y * d == c;
    CrossProducts(x, b, y, d, a, c);
  }

  lemma CrossProducts(x: real, b: real, y: real, d: real, a: real, c: real)
    requires b > 0.0 && d > 0.0 && x * b == a && y * d == c
    ensures x <= y <==> a * d <= c * b
  {
    assert b * d > 0.0;
    assert a * d == x * (b * d);
    assert c * b == y * (b * d);
    if x <= y { Product(y - x, b * d); } else { StrictProduct(x - y, b * d); }
  }

  lemma CorrectionsCompare(p: real, r: real, std: real, z: real)
    requires p > 0.0 && r > 0.0 && std > 0.0 && z > HUBER
    ensures Correction(p, r, std, z) <= Correction(p, r, std, HUBER) <==> p * HUBER <= r * z
  {
    var noise := r * (z * z) / (HUBER * HUBER);
    assert noise > 0.0;
    CrossMultiply(p * (z * std), p + noise, p * (HUBER * std), p + r);
    InfluenceAlgebra(p, r, std, z, noise);
  }

  lemma InfluenceAlgebra(p: real, r: real, std: real, z: real, noise: real)
    requires p > 0.0 && r > 0.0 && std > 0.0 && z > HUBER && noise * (HUBER * HUBER) == r * (z * z)
    ensures p * (z * std) * (p + r) <= p * (HUBER * std) * (p + noise) <==> p * HUBER <= r * z
  {
    var k := p * std;
    StrictProduct(p, std);
    var left, right := z * (p + r), HUBER * (p + noise);
    assert p * (z * std) * (p + r) == k * left;
    assert p * (HUBER * std) * (p + noise) == k * right;
    if left <= right { Product(right - left, k); } else { StrictProduct(left - right, k); }
    var gap := z - HUBER;
    assert HUBER * (right - left) == gap * (r * z - p * HUBER);
    if p * HUBER <= r * z { Product(gap, r * z - p * HUBER); } else { StrictProduct(gap, p * HUBER - r * z); }
  }

  lemma InflatedNoise(variance: real, z: real)
    requires variance > 0.0 && z != 0.0
    ensures var w := RobustWeight(z);
      && w * w > 0.0
      && variance / (w * w) == Inflated(variance, z)
  {
    var w, a := RobustWeight(z), Abs(z);
    WeightRange(z);
    StrictProduct(w, w);
    if a > HUBER {
      assert w * a == HUBER;
      assert (w * w) * (a * a) == HUBER * HUBER;
      var n := variance * (a * a) / (HUBER * HUBER);
      assert n * (HUBER * HUBER) == variance * (a * a);
      CancelSquares(n, w * w, a * a, HUBER * HUBER, variance);
    }
  }

  lemma CancelSquares(n: real, q: real, b: real, c: real, v: real)
    requires q > 0.0 && b > 0.0 && q * b == c && n * c == v * b
    ensures v / q == n
  {
    assert (n * q - v) * b == 0.0;
    if n * q > v { StrictProduct(n * q - v, b); }
    if n * q < v { StrictProduct(v - n * q, b); }
    UniqueQuotient(n, q, v);
  }

  /** What the filter knows after weighing an innovation whose nominal deviation is `std`. */
  predicate Weighed(n: Innovation, variance: real, std: real) {
    && std > 0.0 && n.value == n.z * std && n.noise == Inflated(variance, n.z)
    && n.predicted.r.x >= 0.0 && n.variance > 0.0 && n.variance == n.predicted.r.x + n.noise
  }

  lemma WeighMeans(root: real -> real, variance: real, predicted: Mat, value: real)
    requires IsRoot(root) && variance > 0.0 && Psd(predicted) && value != 0.0
    ensures var n := Weigh(root, variance, predicted, value);
      n.z != 0.0 && Weighed(n, variance, NominalStd(root, variance, predicted.r.x))
  {
    var n := Weigh(root, variance, predicted, value);
    DiagonalNonnegative(predicted);
    RootPositive(root, Max(predicted.r.x + variance, EPSILON));
    UniqueProduct(value, NominalStd(root, variance, predicted.r.x), n.z);
    InflatedNoise(variance, n.z);
  }

  /** How far the update moves the level: the first gain times the innovation. */
  function Moved(n: Innovation): real
    requires n.variance > 0.0
  {
    Abs(Gain(n).x * n.value)
  }

  /** The correction above is the one the filter applies. */
  lemma CorrectionIsTheFilters(n: Innovation, variance: real, std: real, size: real)
    requires variance > 0.0 && n.z != 0.0 && Weighed(n, variance, std) && size == Abs(n.z)
    ensures Moved(n) == Correction(n.predicted.r.x, variance, std, size)
  {
    StepCorrection(n.predicted.r.x, n.variance, n.value, std, n.z);
    assert Inflated(variance, size) == n.noise;
  }

  /** The observation that lies `z` nominal deviations above the prediction of `f`, or below for negative `z`. */
  function ObservationAt(root: real -> real, variance: real, f: Filter, z: real): real {
    PredictState(f.state).x + z * NominalStd(root, variance, PredictedLevel(f, variance))
  }

  function PredictedLevel(f: Filter, variance: real): real {
    PredictCovariance(f.cov, ProcessNoise(variance * 0.02)).r.x
  }

  /** How far the filter's next step moves the level for an observation `z` deviations away. */
  function Influence(root: real -> real, variance: real, f: Filter, z: real): real
    requires IsRoot(root) && variance > 0.0 && Psd(f.cov)
  {
    Moved(Innovate(root, variance, f, ObservationAt(root, variance, f, z)))
  }

  lemma NonzeroProduct(a: real, b: real, q: real)
    requires a != 0.0 && b > 0.0 && q == a * b
    ensures q != 0.0
  {
    if a > 0.0 { StrictProduct(a, b); } else { StrictProduct(-a, b); }
  }

  lemma WeighedAt(root: real -> real, variance: real, predicted: Mat, z: real, value: real, std: real)
    requires IsRoot(root) && variance > 0.0 && Psd(predicted) && z != 0.0
    requires std == NominalStd(root, variance, predicted.r.x) && std > 0.0 && value == z * std
    ensures var n := Weigh(root, variance, predicted, value); n.z == z && Weighed(n, variance, std)
  {
    NonzeroProduct(z, std, value);
    WeighMeans(root, variance, predicted, value);
    SameFactor(Weigh(root, variance, predicted, value).z, z, std);
  }

  lemma InfluenceIs(root: real -> real, variance: real, predicted: Mat, z: real, value: real, std: real, size: real)
    requires IsRoot(root) && variance > 0.0 && Psd(predicted) && z != 0.0 && size == Abs(z)
    requires std == NominalStd(root, variance, predicted.r.x) && std > 0.0 && value == z * std
    ensures predicted.r.x >= 0.0
    ensures Moved(Weigh(root, variance, predicted, value)) == Correction(predicted.r.x, variance, std, size)
  {
    WeighedAt(root, variance, predicted, z, value, std);
    CorrectionIsTheFilters(Weigh(root, variance, predicted, value), variance, std, size);
  }

  lemma SameFactor(a: real, b: real, s: real)
    requires s > 0.0 && a * s == b * s
    ensures a == b
  {
    if a < b { StrictProduct(b - a, s); }
    if b < a { StrictProduct(a - b, s); }
  }

  lemma InfluenceOfStep(root: real -> real, variance: real, f: Filter, z: real, p: real, std: real, size: real)
    requires IsRoot(root) && variance > 0.0 && Psd(f.cov) && z != 0.0 && size == Abs(z)
    requires p == PredictedLevel(f, variance) && std == NominalStd(root, variance, p) && std > 0.0
    ensures p >= 0.0 && Influence(root, variance, f, z) == Correction(p, variance, std, size)
  {
    PredictedPsd(f.cov, variance);
    var predicted := PredictCovariance(f.cov, ProcessNoise(variance * 0.02));
    InfluenceIs(root, variance, predicted, z, ObservationAt(root, variance, f, z) - PredictState(f.state).x, std, size);
  }

  /** Process noise keeps the predicted level uncertain. */
  lemma LevelUncertain(f: Filter, variance: real)
    requires Psd(f.cov) && variance > 0.0
    ensures PredictedLevel(f, variance) > 0.0
  {
    var moved := Multiply(Multiply(TRANSITION, f.cov), Transpose(TRANSITION));
    CongruencePsd(TRANSITION, f.cov);
    DiagonalNonnegative(moved);
    assert PredictedLevel(f, variance) == moved.r.x + variance * 0.02 / 36.0;
  }

  /**
   The documented promise that a wick gets no more influence than an ordinary sample, on the filter's own
   step: an observation beyond the threshold, above or below, moves the level no further than one at the
   threshold if and only if the predicted level variance is at most the observation variance times the size
   of its z-score over the threshold.
   */
  lemma OutlierInfluenceExactly(root: real -> real, variance: real, f: Filter, z: real, size: real)
    requires IsRoot(root) && variance > 0.0 && Psd(f.cov) && size == Abs(z) && size > HUBER
    ensures Influence(root, variance, f, z) <= Influence(root, variance, f, HUBER)
       <==> PredictedLevel(f, variance) * HUBER <= variance * size
  {
    var p := PredictedLevel(f, variance);
    LevelUncertain(f, variance);
    RootPositive(root, Max(p + variance, EPSILON));
    OutlierOfSize(root, variance, f, z, p, NominalStd(root, variance, p), size);
  }

  lemma OutlierOfSize(root: real -> real, variance: real, f: Filter, z: real, p: real, std: real, size: real)
    requires IsRoot(root) && variance > 0.0 && Psd(f.cov) && size == Abs(z) && size > HUBER
    requires p == PredictedLevel(f, variance) && p > 0.0 && std == NominalStd(root, variance, p) && std > 0.0
    ensures Influence(root, variance, f, z) <= Influence(root, variance, f, HUBER) <==> p * HUBER <= variance * size
  {
    InfluenceOfStep(root, variance, f, z, p, std, size);
    InfluenceOfStep(root, variance, f, HUBER, p, std, HUBER);
    CorrectionsCompare(p, variance, std, size);
  }

  lemma StartLevel(first: real, drift: real, variance: real)
    requires variance > 0.0
    ensures PredictedLevel(Start(first, drift, variance), variance) > 5.0 * variance
  { }

  /**
   On the first step of every window, each wick up to twelve deviations above or below the prediction moves
   the level further than a threshold sample.
   */
  lemma FirstWickGetsMore(root: real -> real, variance: real, first: real, drift: real, z: real, size: real)
    requires IsRoot(root) && variance > 0.0 && size == Abs(z) && HUBER < size <= 12.0
    ensures Sound(Start(first, drift, variance))
    ensures var f := Start(first, drift, variance);
      Influence(root, variance, f, z) > Influence(root, variance, f, HUBER)
  {
    StartSound(first, drift, variance);
    StartLevel(first, drift, variance);
    WickGetsMore(root, variance, Start(first, drift, variance), z, size);
  }

  lemma WickGetsMore(root: real -> real, variance: real, f: Filter, z: real, size: real)
    requires IsRoot(root) && variance > 0.0 && Psd(f.cov) && size == Abs(z) && HUBER < size <= 12.0
    requires PredictedLevel(f, variance) > 5.0 * variance
    ensures Influence(root, variance, f, z) > Influence(root, variance, f, HUBER)
  {
    OutlierInfluenceExactly(root, variance, f, z, size);
    WickArithmetic(PredictedLevel(f, variance), variance, size);
  }

  lemma WickArithmetic(p: real, variance: real, z: real)
    requires variance > 0.0 && p > 5.0 * variance && z <= 12.0
    ensures p * HUBER > variance * z
  {
    Product(variance, 12.0 - z);
  }

  lemma UniqueProduct(v: real, std: real, z: real)
    requires std > 0.0 && z == v / std
    ensures v == z * std
  { }

  lemma StepCorrection(p: real, d: real, value: real, std: real, z: real)
    requires p >= 0.0 && d > 0.0 && std > 0.0 && value == z * std
    ensures Abs(p / d * value) == p * (Abs(z) * std) / d
  {
    var g := p / d;
    assert g * d == p;
    QuotientSign(g, d, p);
    AbsProduct(z, std);
    AbsProduct(value, g);
    UniqueQuotient(g * (Abs(z) * std), d, p * (Abs(z) * std));
  }

  lemma QuotientSign(g: real, d: real, p: real)
    requires d > 0.0 && p >= 0.0 && g * d == p
    ensures g >= 0.0
  {
    if g < 0.0 { StrictProduct(-g, d); }
  }

  lemma AbsProduct(a: real, b: real)
    requires b >= 0.0
    ensures Abs(a * b) == Abs(a) * b && Abs(b * a) == Abs(a) * b
  {
    if a >= 0.0 { Product(a, b); } else { Product(-a, b); }
  }
}
