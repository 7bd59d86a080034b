/**
 The fit always exists: on every window of at least five log prices no pivot of the elimination is small,
 so a trend is missing only when the window is too short or the prices too few.
 */
module TrendExists {
  import opened Options
  import opened Reals
  import opened Matrices
  import opened Elimination
  import opened CausalTrend
  import opened TrendMoments

  // ---------------------------------------------------------------- elimination of a symmetric system

  lemma MinusZero(r: Row, s: Row)
    ensures Minus(r, 0.0, s) == r
  { }

  /** With the largest entry of the first column already on top, nothing is swapped. */
  lemma FirstColumn(s: seq<Row>)
    requires Three(s) && Abs(s[0].a) > EPSILON && Abs(s[1].a) <= Abs(s[0].a) && Abs(s[2].a) <= Abs(s[0].a)
    ensures Reduce(s, 0).Some?
    ensures var t := Reduce(s, 0).value; var top := Divided(s[0], s[0].a);
      t[1] == Minus(s[1], s[1].a, top) && t[2] == Minus(s[2], s[2].a, top)
  {
    assert PivotRow(s, 0) == 0 by {
      assert At(s[0], 0) == s[0].a && At(s[1], 0) == s[1].a && At(s[2], 0) == s[2].a;
    }
    assert Swapped(s, 0, 0) == s;
    var n := Normalised(s, 0);
    var top := Divided(s[0], s[0].a);
    MinusZero(s[1], top);
    MinusZero(s[2], top);
    assert Cleared(n, 0, 0) == n;
    assert Cleared(n, 0, 1) == n;
    var c := Cleared(n, 0, 2);
    assert c == ClearOne(n, 0, 1) && c[0] == top && c[1] == Minus(s[1], s[1].a, top) && c[2] == s[2];
    assert Cleared(n, 0, 3) == ClearOne(c, 0, 2);
  }

  lemma LastRowCleared(n: seq<Row>)
    requires Three(n)
    ensures Cleared(n, 1, 3)[2] == Minus(n[2], n[2].b, n[1])
  {
    MinusZero(n[2], n[1]);
    assert Cleared(n, 1, 1) == ClearOne(Cleared(n, 1, 0), 1, 0);
    var c := Cleared(n, 1, 2);
    assert c == ClearOne(Cleared(n, 1, 1), 1, 1) && c[1] == n[1] && c[2] == n[2];
    assert Cleared(n, 1, 3) == ClearOne(c, 1, 2);
  }

  /** What the second column leaves as the last candidate pivot, with and without a swap. */
  lemma SecondColumn(t: seq<Row>)
    requires Three(t) && Abs(t[1].b) > EPSILON
    ensures Reduce(t, 1).Some?
    ensures var u := Reduce(t, 1).value;
      if Abs(t[2].b) > Abs(t[1].b) then u[2] == Minus(t[1], t[1].b, Divided(t[2], t[2].b))
      else u[2] == Minus(t[2], t[2].b, Divided(t[1], t[1].b))
  {
    assert At(t[1], 1) == t[1].b && At(t[2], 1) == t[2].b;
    LastRowCleared(Normalised(Swapped(t, 1, PivotRow(t, 1)), 1));
  }

  lemma ThirdColumn(u: seq<Row>)
    requires Three(u) && Abs(u[2].c) > EPSILON
    ensures SolveFrom(u, 2).Some?
  {
    assert PivotRow(u, 2) == 2 && At(u[2], 2) == u[2].c;
    var v := Reduce(u, 2);
    assert SolveFrom(v.value, 3).Some?;
  }

  // ---------------------------------------------------------------- the pivots, in plain reals

  const KAPPA: real := 0.0144

  lemma PlainPivot(a: real, b: real, d: real)
    requires a >= 0.5 && a * d - b * b >= KAPPA * a
    ensures Abs(d - b * (b / a)) > EPSILON
  {
    var q := b / a;
    assert q * a == b;
    PlainPivotProducts(a, b, d, q);
  }

  lemma PlainPivotProducts(a: real, b: real, d: real, q: real)
    requires a >= 0.5 && q * a == b && a * d - b * b >= KAPPA * a
    ensures d - b * q >= KAPPA
  {
    var x := d - b * q;
    assert a * x == a * d - b * b;
    if x < KAPPA { StrictProduct(KAPPA - x, a); }
  }

  lemma SwappedPivot(a: real, b: real, d: real)
    requires a >= 0.5 && a < Abs(b) <= 2.0 * a && a * d - b * b >= KAPPA * a
    ensures Abs(b - a * (d / b)) > EPSILON
  {
    var q := d / b;
    assert q * b == d;
    SwappedPivotProducts(a, b, d, q);
  }

  lemma SwappedPivotProducts(a: real, b: real, d: real, q: real)
    requires a >= 0.5 && a < Abs(b) <= 2.0 * a && q * b == d && a * d - b * b >= KAPPA * a
    ensures Abs(b - a * q) > EPSILON
  {
    var x := b - a * q;
    assert x * b == b * b - a * d;
    var y, c := Abs(x), Abs(b);
    AbsTimes(x, b, x * b);
    if y <= EPSILON { Product(EPSILON - y, c); }
  }

  lemma AbsTimes(x: real, b: real, p: real)
    requires p == x * b && p < 0.0
    ensures Abs(x) * Abs(b) == -p
  { }

  /** The reduced lower-right block of a symmetric moment matrix. */
  datatype Block = Block(a: real, b: real, d: real)

  function BlockOf(s: seq<Row>): Block
    requires Three(s) && s[0].a != 0.0
  {
    Block(Lessened(s[1].b, s[1].a, s[0].b, s[0].a), Lessened(s[1].c, s[1].a, s[0].c, s[0].a),
          Lessened(s[2].c, s[2].a, s[0].c, s[0].a))
  }

  /** An entry after its row is cleared by a first row with that corner. */
  function Lessened(entry: real, factor: real, above: real, corner: real): real
    requires corner != 0.0
  {
    entry - factor * (above / corner)
  }

  predicate GoodBlock(k: Block) { k.a >= 0.5 && Abs(k.b) <= 2.0 * k.a && k.a * k.d - k.b * k.b >= KAPPA * k.a }

  lemma Crossed(x: real, y: real, z: real, y': real, x': real)
    requires z != 0.0 && x' == x && y' == y
    ensures x * (y / z) == y' * (x' / z)
  {
    CrossedProducts(x, y, z, y / z, x' / z, y');
  }

  lemma CrossedProducts(x: real, y: real, z: real, p: real, q: real, y': real)
    requires z != 0.0 && p * z == y && q * z == x && y' == y
    ensures x * p == y' * q
  { }

  lemma LastPivotLarge(k: Block)
    requires GoodBlock(k)
    ensures if Abs(k.b) > Abs(k.a) then Abs(k.b - k.a * (k.d / k.b)) > EPSILON
            else Abs(k.d - k.b * (k.b / k.a)) > EPSILON
  {
    if Abs(k.b) > Abs(k.a) { SwappedPivot(k.a, k.b, k.d); } else { PlainPivot(k.a, k.b, k.d); }
  }

  predicate CarriesBlock(t: seq<Row>, k: Block) {
    Three(t) && t[1].b == k.a && t[1].c == k.b && t[2].b == k.b && t[2].c == k.d
  }

  lemma LastEntries(t: seq<Row>, k: Block, u: seq<Row>)
    requires CarriesBlock(t, k) && GoodBlock(k) && Three(u)
    requires if Abs(k.b) > Abs(k.a) then u[2] == Minus(t[1], t[1].b, Divided(t[2], t[2].b))
             else u[2] == Minus(t[2], t[2].b, Divided(t[1], t[1].b))
    ensures if Abs(k.b) > Abs(k.a) then u[2].c == k.b - k.a * (k.d / k.b) else u[2].c == k.d - k.b * (k.b / k.a)
  { }

  lemma BlockSolves(t: seq<Row>, k: Block)
    requires CarriesBlock(t, k) && GoodBlock(k)
    ensures SolveFrom(t, 1).Some?
  {
    SecondColumn(t);
    var u := Reduce(t, 1).value;
    LastEntries(t, k, u);
    LastPivotLarge(k);
    ThirdColumn(u);
  }

  /** The left-hand side is a symmetric matrix whose first entry dominates its column. */
  predicate Dominant(s: seq<Row>) {
    && Three(s) && s[0].b == s[1].a && s[0].c == s[2].a && s[1].c == s[2].b
    && s[0].a > EPSILON && Abs(s[1].a) <= s[0].a && Abs(s[2].a) <= s[0].a
  }

  lemma LessenedRow(s: Row, p: Row, t: Row)
    requires p.a != 0.0 && t == Minus(s, s.a, Divided(p, p.a))
    ensures t.b == Lessened(s.b, s.a, p.b, p.a) && t.c == Lessened(s.c, s.a, p.c, p.a)
  { }

  /** The first elimination leaves the block in the lower two rows. */
  lemma BlockRemains(s: seq<Row>, t: seq<Row>)
    requires Dominant(s) && Three(t)
    requires t[1].b == Lessened(s[1].b, s[1].a, s[0].b, s[0].a) && t[1].c == Lessened(s[1].c, s[1].a, s[0].c, s[0].a)
    requires t[2].b == Lessened(s[2].b, s[2].a, s[0].b, s[0].a) && t[2].c == Lessened(s[2].c, s[2].a, s[0].c, s[0].a)
    ensures CarriesBlock(t, BlockOf(s))
  {
    MirrorEntry(s[0].a, s[0].b, s[0].c, s[1].a, s[2].a, s[1].c, s[2].b);
  }

  lemma MirrorEntry(corner: real, b: real, c: real, b': real, c': real, e: real, e': real)
    requires corner != 0.0 && b' == b && c' == c && e' == e
    ensures Lessened(e', c', b, corner) == Lessened(e, b', c, corner)
  {
    Crossed(c', b, corner, b', c);
  }

  /** A symmetric system with a dominant corner and a good block is always solved. */
  lemma GoodBlockSolves(s: seq<Row>)
    requires Dominant(s) && GoodBlock(BlockOf(s))
    ensures Solve(s).Some?
  {
    FirstColumn(s);
    var t := Reduce(s, 0).value;
    LessenedRow(s[1], s[0], t[1]);
    LessenedRow(s[2], s[0], t[2]);
    BlockRemains(s, t);
    BlockSolves(t, BlockOf(s));
  }

  // ---------------------------------------------------------------- the moments of a window

  predicate Spanned(s: seq<Sample>) { forall i :: 0 <= i < |s| ==> s[i].w >= 1.0 && -1.0 <= s[i].x <= 0.0 }

  lemma EvalLow(x: real)
    requires -1.0 <= x <= 0.0
    ensures Eval(Poly(0.0, -1.0, 0.0, 0.0, 0.0), x) >= 0.0 && Eval(Poly(1.0, 1.0, 0.0, 0.0, 0.0), x) >= 0.0
    ensures Eval(Poly(0.0, 0.0, 1.0, 0.0, 0.0), x) >= 0.0 && Eval(Poly(1.0, 0.0, -1.0, 0.0, 0.0), x) >= 0.0
  {
    Square(x);
    Product(1.0 + x, 1.0 - x);
  }

  /** The first two moments lie between zero and the total weight, in size. */
  lemma MomentRange(s: seq<Sample>)
    requires Spanned(s)
    ensures -Moment(s, 0) <= Moment(s, 1) <= 0.0 && 0.0 <= Moment(s, 2) <= Moment(s, 0)
  {
    forall x: real | -1.0 <= x <= 0.0
      ensures Eval(Poly(0.0, -1.0, 0.0, 0.0, 0.0), x) >= 0.0 && Eval(Poly(1.0, 1.0, 0.0, 0.0, 0.0), x) >= 0.0
      ensures Eval(Poly(0.0, 0.0, 1.0, 0.0, 0.0), x) >= 0.0 && Eval(Poly(1.0, 0.0, -1.0, 0.0, 0.0), x) >= 0.0
    {
      EvalLow(x);
    }
    NonnegativeMix(s, Poly(0.0, -1.0, 0.0, 0.0, 0.0));
    NonnegativeMix(s, Poly(1.0, 1.0, 0.0, 0.0, 0.0));
    NonnegativeMix(s, Poly(0.0, 0.0, 1.0, 0.0, 0.0));
    NonnegativeMix(s, Poly(1.0, 0.0, -1.0, 0.0, 0.0));
  }

  lemma NonnegativeMix(s: seq<Sample>, c: Poly)
    requires Nonnegative(s, c)
    ensures MixOf(s, c) >= 0.0
  {
    PolyNonnegative(s, c);
    PolyByMoments(s, c);
  }

  // ---------------------------------------------------------------- the block of a window

  /** Centre and slope quotients of the moments, as elimination divides them. */
  predicate Centred(g: real, h: real, m0: real, m1: real, m2: real) { m0 > 0.0 && g * m0 == m1 && h * m0 == m2 }

  lemma LineMix(g: real, h: real, m0: real, m1: real, m2: real, m3: real, m4: real)
    requires Centred(g, h, m0, m1, m2)
    ensures Mix(Line(-g), m0, m1, m2, m3, m4) == m2 - m1 * g
  {
    assert g * g * m0 == g * m1;
  }

  lemma TiltedMix(g: real, h: real, k: real, m0: real, m1: real, m2: real, m3: real, m4: real)
    requires Centred(g, h, m0, m1, m2)
    ensures Mix(Tilted(g, k), m0, m1, m2, m3, m4) == 2.0 * (m2 - m1 * g) + k * (m3 - m2 * g)
  {
    var z := 2.0 + k * g;
    assert g * g * z * m0 == z * (g * m1);
    assert (k * (g * g) - 2.0 * (g * z)) * m1 == k * (g * (g * m1)) - 2.0 * (z * (g * m1));
    assert (z - 2.0 * (k * g)) * m2 == z * m2 - 2.0 * (k * (g * m2));
    assert z * (m2 - g * m1) == 2.0 * (m2 - g * m1) + k * (g * (m2 - g * m1));
  }

  lemma QuarticMix(g: real, h: real, r: real, m0: real, m1: real, m2: real, m3: real, m4: real, a: real, b: real)
    requires Centred(g, h, m0, m1, m2) && a == m2 - m1 * g && b == m3 - m2 * g && r * a == b
    ensures Mix(Quartic(-r, r * g - h), m0, m1, m2, m3, m4) == m4 - m2 * h - b * r
  {
    var v := r * g - h;
    assert v * m0 == r * m1 - m2;
    assert v * v * m0 == v * (r * m1 - m2);
    assert 2.0 * ((-r) * v) * m1 == -2.0 * (v * (r * m1));
    assert (r * r + 2.0 * v) * m2 == r * (r * m2) + 2.0 * (v * m2);
    assert v * (m2 - r * m1) == r * (g * m2) - h * m2 - r * (g * (r * m1)) + h * (r * m1);
    assert h * m1 == g * m2 by { assert h * m1 == h * (g * m0); assert g * m2 == g * (h * m0); }
    assert r * (r * a) == r * b;
    assert r * (r * a) == r * (r * m2) - r * (r * (m1 * g));
    assert r * b == r * m3 - r * (m2 * g);
    assert h * (r * m1) == r * (h * m1) && r * (h * m1) == r * (g * m2);
    assert r * (g * (r * m1)) == r * (r * (m1 * g)) && r * (g * m2) == r * (m2 * g);
  }

  /** Two samples, one bar apart by the whole window, keep the variance of positions at one half or more. */
  lemma LineLarge(s: seq<Sample>, g: real)
    requires Spanned(s) && |s| >= 2 && s[0].x == -1.0 && s[|s| - 1].x == 0.0
    ensures PolySum(s, Line(-g)) >= 0.5
  {
    forall i | 0 <= i < |s| ensures s[i].w >= 1.0 && Eval(Line(-g), s[i].x) >= 0.0 {
      LineIs(-g, s[i].x);
      Square(s[i].x - g);
    }
    TwoPoints(s, Line(-g), 0, |s| - 1);
    LineIs(-g, -1.0);
    LineIs(-g, 0.0);
    EndsApart(g);
  }

  lemma EndsApart(g: real)
    ensures (-1.0 + -g) * (-1.0 + -g) + (0.0 + -g) * (0.0 + -g) >= 0.5
  {
    Square(2.0 * g + 1.0);
  }

  lemma TiltedNonnegative(s: seq<Sample>, g: real, k: real)
    requires Spanned(s) && -1.0 <= g <= 0.0 && (k == 1.0 || k == -1.0)
    ensures Nonnegative(s, Tilted(g, k))
  {
    forall i | 0 <= i < |s| ensures s[i].w >= 1.0 && Eval(Tilted(g, k), s[i].x) >= 0.0 {
      TiltedIs(g, k, s[i].x);
      TiltedSign(s[i].x, g, 2.0 + k * (s[i].x + g), Eval(Tilted(g, k), s[i].x));
    }
  }

  lemma TiltedSign(x: real, g: real, t: real, e: real)
    requires t >= 0.0 && e == (x - g) * (x - g) * t
    ensures e >= 0.0
  {
    Square(x - g);
    Product((x - g) * (x - g), t);
  }

  // ---------------------------------------------------------------- three bars

  /** Weighted by the position of the middle bar, the three values of a monic quadratic differ by h (1 - h). */
  lemma MonicSpread(u: real, v: real, h: real)
    ensures (1.0 - h) * Monic(u, v, 0.0) + h * Monic(u, v, -1.0) - Monic(u, v, -h) == h * (1.0 - h)
  { }

  lemma MiddleGap(h: real)
    requires 0.4 <= h <= 0.5
    ensures h * (1.0 - h) >= 0.24
  {
    Product(h - 0.4, 0.6 - h);
  }

  lemma SmallShare(w: real, p: real, wp: real)
    requires w > 0.0 && wp == w * p && p < 0.12
    ensures wp < 0.12 * w
  {
    var gap := 0.12 - p;
    StrictProduct(w, gap);
    assert w * gap == 0.12 * w - wp;
  }

  lemma OneIsFar(p: real, q: real, r: real, h: real)
    requires 0.4 <= h <= 0.5 && (1.0 - h) * p + h * q - r == h * (1.0 - h)
    ensures p >= 0.12 || q >= 0.12 || r <= -0.12
  {
    MiddleGap(h);
    if p < 0.12 && q < 0.12 {
      SmallShare(1.0 - h, p, (1.0 - h) * p);
      SmallShare(h, q, h * q);
    }
  }

  lemma OneIsLarge(p: real, q: real, r: real, h: real, p2: real, q2: real, r2: real)
    requires 0.4 <= h <= 0.5 && (1.0 - h) * p + h * q - r == h * (1.0 - h)
    requires p2 == p * p && q2 == q * q && r2 == r * r
    ensures p2 + q2 + r2 >= KAPPA
  {
    OneIsFar(p, q, r, h);
    Squared(p, p2);
    Squared(q, q2);
    Squared(r, r2);
  }

  lemma Squared(p: real, p2: real)
    requires p2 == p * p
    ensures p2 >= 0.0 && (p >= 0.12 || p <= -0.12 ==> p2 >= KAPPA)
  {
    Square(p);
    if p >= 0.12 || p <= -0.12 { SquareAtLeast(p); }
  }

  lemma SquareAtLeast(p: real)
    requires Abs(p) >= 0.12
    ensures p * p >= KAPPA
  {
    Product(Abs(p) - 0.12, Abs(p) + 0.12);
  }

  lemma QuarticNonnegative(s: seq<Sample>, u: real, v: real)
    requires Spanned(s)
    ensures Nonnegative(s, Quartic(u, v))
  {
    forall i | 0 <= i < |s| ensures s[i].w >= 1.0 && Eval(Quartic(u, v), s[i].x) >= 0.0 {
      QuarticIs(u, v, s[i].x);
      Square(Monic(u, v, s[i].x));
    }
  }

  lemma ThreeValues(u: real, v: real, h: real)
    requires 0.4 <= h <= 0.5
    ensures Eval(Quartic(u, v), -1.0) + Eval(Quartic(u, v), -h) + Eval(Quartic(u, v), 0.0) >= KAPPA
  {
    QuarticIs(u, v, -1.0);
    QuarticIs(u, v, -h);
    QuarticIs(u, v, 0.0);
    MonicSpread(u, v, h);
    OneIsLarge(Monic(u, v, 0.0), Monic(u, v, -1.0), Monic(u, v, -h), h,
               Eval(Quartic(u, v), 0.0), Eval(Quartic(u, v), -1.0), Eval(Quartic(u, v), -h));
  }

  lemma QuarticLarge(s: seq<Sample>, j: nat, u: real, v: real, h: real)
    requires Spanned(s) && 0 < j < |s| - 1 && s[0].x == -1.0 && s[j].x == -h && s[|s| - 1].x == 0.0 && 0.4 <= h <= 0.5
    ensures PolySum(s, Quartic(u, v)) >= KAPPA
  {
    QuarticNonnegative(s, u, v);
    ThreePoints(s, Quartic(u, v), 0, j, |s| - 1);
    ThreeValues(u, v, h);
  }

  // ---------------------------------------------------------------- every window has a fit

  /** The samples of a window: both ends and a bar near the middle. */
  predicate Anchored(s: seq<Sample>, j: nat, h: real) {
    && Spanned(s) && 0 < j < |s| - 1 && s[0].x == -1.0 && s[j].x == -h && s[|s| - 1].x == 0.0 && 0.4 <= h <= 0.5
  }

  predicate CentredOn(s: seq<Sample>, g: real, h: real) { Centred(g, h, Moment(s, 0), Moment(s, 1), Moment(s, 2)) }

  lemma BlockVariance(s: seq<Sample>, j: nat, mid: real, g: real, h: real, a: real)
    requires Anchored(s, j, mid) && CentredOn(s, g, h) && a == Moment(s, 2) - Moment(s, 1) * g
    ensures a >= 0.5
  {
    LineLarge(s, g);
    PolyByMoments(s, Line(-g));
    LineMix(g, h, Moment(s, 0), Moment(s, 1), Moment(s, 2), Moment(s, 3), Moment(s, 4));
  }

  lemma TiltedTotal(g: real, h: real, k: real, m0: real, m1: real, m2: real, m3: real, m4: real, a: real, b: real)
    requires Centred(g, h, m0, m1, m2) && a == m2 - m1 * g && b == m3 - m2 * g
    ensures Mix(Tilted(g, k), m0, m1, m2, m3, m4) == 2.0 * a + k * b
  {
    TiltedMix(g, h, k, m0, m1, m2, m3, m4);
  }

  lemma TiltedMixNonnegative(s: seq<Sample>, g: real, k: real)
    requires Spanned(s) && -1.0 <= g <= 0.0 && (k == 1.0 || k == -1.0)
    ensures MixOf(s, Tilted(g, k)) >= 0.0
  {
    TiltedNonnegative(s, g, k);
    NonnegativeMix(s, Tilted(g, k));
  }

  lemma BlockTiltSide(s: seq<Sample>, g: real, h: real, k: real, a: real, b: real)
    requires Spanned(s) && CentredOn(s, g, h) && -1.0 <= g <= 0.0 && (k == 1.0 || k == -1.0)
    requires a == Moment(s, 2) - Moment(s, 1) * g && b == Moment(s, 3) - Moment(s, 2) * g
    ensures 2.0 * a + k * b >= 0.0
  {
    TiltedMixNonnegative(s, g, k);
    TiltedTotal(g, h, k, Moment(s, 0), Moment(s, 1), Moment(s, 2), Moment(s, 3), Moment(s, 4), a, b);
  }

  lemma BlockTilt(s: seq<Sample>, g: real, h: real, a: real, b: real)
    requires Spanned(s) && CentredOn(s, g, h) && -1.0 <= g <= 0.0
    requires a == Moment(s, 2) - Moment(s, 1) * g && b == Moment(s, 3) - Moment(s, 2) * g
    ensures Abs(b) <= 2.0 * a
  {
    BlockTiltSide(s, g, h, 1.0, a, b);
    BlockTiltSide(s, g, h, -1.0, a, b);
  }

  lemma BlockCurvature(s: seq<Sample>, j: nat, mid: real, g: real, h: real, r: real, a: real, b: real, d: real)
    requires Anchored(s, j, mid) && CentredOn(s, g, h)
    requires a == Moment(s, 2) - Moment(s, 1) * g && b == Moment(s, 3) - Moment(s, 2) * g && r * a == b
    requires d == Moment(s, 4) - Moment(s, 2) * h
    ensures d - b * r >= KAPPA
  {
    QuarticLarge(s, j, -r, r * g - h, mid);
    PolyByMoments(s, Quartic(-r, r * g - h));
    QuarticMix(g, h, r, Moment(s, 0), Moment(s, 1), Moment(s, 2), Moment(s, 3), Moment(s, 4), a, b);
  }

  lemma RatioExists(a: real, b: real) returns (r: real)
    requires a > 0.0
    ensures r * a == b
  {
    r := b / a;
  }

  lemma Determinant(a: real, b: real, d: real, r: real)
    requires a > 0.0 && r * a == b && d - b * r >= KAPPA
    ensures a * d - b * b >= KAPPA * a
  {
    var x := d - b * r;
    Product(x - KAPPA, a);
    assert a * x == a * d - b * b;
  }

  lemma BlockGood(s: seq<Sample>, j: nat, mid: real, g: real, h: real, k: Block)
    requires Anchored(s, j, mid) && CentredOn(s, g, h) && -1.0 <= g <= 0.0
    requires k.a == Moment(s, 2) - Moment(s, 1) * g && k.b == Moment(s, 3) - Moment(s, 2) * g
    requires k.d == Moment(s, 4) - Moment(s, 2) * h
    ensures GoodBlock(k)
  {
    BlockVariance(s, j, mid, g, h, k.a);
    BlockTilt(s, g, h, k.a, k.b);
    var r := RatioExists(k.a, k.b);
    BlockCurvature(s, j, mid, g, h, r, k.a, k.b, k.d);
    Determinant(k.a, k.b, k.d, r);
  }

  lemma Quotients(m0: real, m1: real, m2: real)
    requires m0 > 0.0 && -m0 <= m1 <= 0.0
    ensures Centred(m1 / m0, m2 / m0, m0, m1, m2) && -1.0 <= m1 / m0 <= 0.0
    ensures m1 * (m2 / m0) == m2 * (m1 / m0)
  {
    Fraction(-m1, m0);
    NegatedFraction(m1, m0);
    Crossed(m1, m2, m0, m2, m1);
  }

  /** Elimination succeeds on the samples of every window of five or more. */
  lemma AnchoredSolves(s: seq<Sample>, j: nat, mid: real)
    requires Anchored(s, j, mid)
    ensures Solve(NormalSystem(s)).Some?
  {
    var rows := NormalSystem(s);
    MomentRange(s);
    MomentPositive(s);
    var m0, m1, m2 := Moment(s, 0), Moment(s, 1), Moment(s, 2);
    Quotients(m0, m1, m2);
    BlockGood(s, j, mid, m1 / m0, m2 / m0, BlockOf(rows));
    GoodBlockSolves(rows);
  }

  lemma MiddleBar(n: nat) returns (k: nat, mid: real)
    requires n >= 4
    ensures 0 < k < n && mid * n as real == k as real && 0.4 <= mid <= 0.5
  {
    k := n / 2;
    mid := k as real / n as real;
    MiddleFraction(k as real, n as real, mid);
  }

  lemma MiddleFraction(k: real, n: real, q: real)
    requires n > 0.0 && 2.0 * n <= 5.0 * k && 2.0 * k <= n && q * n == k
    ensures 0.4 <= q <= 0.5
  {
    if q < 0.4 { StrictProduct(0.4 - q, n); }
    if q > 0.5 { StrictProduct(q - 0.5, n); }
  }

  lemma WindowSpanned(logs: seq<real>)
    requires |logs| >= 2
    ensures Spanned(SamplesUpTo(logs, |logs|))
  {
    forall i | 0 <= i < |logs| ensures SampleAt(logs, i).w >= 1.0 && -1.0 <= SampleAt(logs, i).x <= 0.0 {
      SampleRange(logs, i);
    }
  }

  /** A bar lies to the left of the newest by its share of the span. */
  lemma BarAt(logs: seq<real>, i: nat, span: real, q: real)
    requires |logs| >= 2 && i < |logs| && span == Span(|logs|) && q * span == span - i as real
    ensures SampleAt(logs, i).x == -q
  {
    UniqueQuotient(-q, span, i as real - span);
  }

  lemma EndBars(logs: seq<real>)
    requires |logs| >= 5
    ensures var s := SamplesUpTo(logs, |logs|); s[0].x == -1.0 && s[|s| - 1].x == 0.0
  {
    EndpointSample(logs);
    BarAt(logs, 0, Span(|logs|), 1.0);
  }

  lemma MiddleBarAt(logs: seq<real>, i: nat, mid: real)
    requires |logs| >= 5 && i < |logs| && mid * Span(|logs|) == Span(|logs|) - i as real
    ensures SamplesUpTo(logs, |logs|)[i].x == -mid
  {
    BarAt(logs, i, Span(|logs|), mid);
  }

  lemma MiddleShare(n: nat, k: nat, i: nat, mid: real)
    requires k <= n && i == n - k && mid * n as real == k as real
    ensures mid * Span(n + 1) == Span(n + 1) - i as real
  { }

  lemma WindowAnchored(logs: seq<real>, n: nat, k: nat, mid: real)
    requires |logs| >= 5 && n == |logs| - 1 && 0 < k < n && mid * n as real == k as real && 0.4 <= mid <= 0.5
    ensures Anchored(SamplesUpTo(logs, |logs|), n - k, mid)
  {
    MiddleShare(n, k, n - k, mid);
    MiddleBarAt(logs, n - k, mid);
    WindowSpanned(logs);
    EndBars(logs);
  }

  /** Every window of at least five log prices has a trend. */
  lemma WindowHasTrend(root: real -> real, logs: seq<real>)
    requires IsRoot(root) && |logs| >= 5
    ensures WindowTrend(root, logs).Some?
  {
    var n := |logs| - 1;
    var k, mid := MiddleBar(n);
    WindowAnchored(logs, n, k, mid);
    AnchoredSolves(SamplesUpTo(logs, |logs|), n - k, mid);
  }

  /** The estimate is missing exactly when the window is shorter than five or longer than the data. */
  lemma TrendExactly(root: real -> real, logs: seq<real>, window: nat)
    requires IsRoot(root)
    ensures TrendFromLogs(root, logs, window).Some? <==> 5 <= window <= |logs|
  {
    if 5 <= window <= |logs| { WindowHasTrend(root, logs[|logs| - window..]); }
  }
}
