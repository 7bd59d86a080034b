/**
 Sums of polynomials over the samples of a fit, and the moment inequalities that keep its pivots large.
 */
module TrendMoments {
  import opened Reals
  import opened CausalTrend

  /** A polynomial of degree four by its coefficients. */
  datatype Poly = Poly(c0: real, c1: real, c2: real, c3: real, c4: real)

  function Eval(c: Poly, x: real): real {
    c.c0 + c.c1 * x + c.c2 * (x * x) + c.c3 * (x * x * x) + c.c4 * (x * x * x * x)
  }

  function PolyTerm(p: Sample, c: Poly): real { p.w * Eval(c, p.x) }

  function PolySum(s: seq<Sample>, c: Poly): real {
    if s == [] then 0.0 else PolySum(Front(s), c) + PolyTerm(Last(s), c)
  }

  function Mix(c: Poly, m0: real, m1: real, m2: real, m3: real, m4: real): real {
    c.c0 * m0 + c.c1 * m1 + c.c2 * m2 + c.c3 * m3 + c.c4 * m4
  }

  function MixOf(s: seq<Sample>, c: Poly): real {
    Mix(c, Moment(s, 0), Moment(s, 1), Moment(s, 2), Moment(s, 3), Moment(s, 4))
  }

  lemma MixAdds(c: Poly, a0: real, a1: real, a2: real, a3: real, a4: real, b0: real, b1: real, b2: real, b3: real,
                b4: real)
    ensures Mix(c, a0 + b0, a1 + b1, a2 + b2, a3 + b3, a4 + b4)
         == Mix(c, a0, a1, a2, a3, a4) + Mix(c, b0, b1, b2, b3, b4)
  { }

  lemma PowersAre(x: real)
    ensures Pow(x, 0) == 1.0 && Pow(x, 1) == x && Pow(x, 2) == x * x
    ensures Pow(x, 3) == x * x * x && Pow(x, 4) == x * x * x * x
  {
    assert Pow(x, 1) == Pow(x, 0) * x;
    assert Pow(x, 2) == Pow(x, 1) * x;
    assert Pow(x, 3) == Pow(x, 2) * x;
    assert Pow(x, 4) == Pow(x, 3) * x;
  }

  lemma TermByPowers(w: real, c: Poly, x: real)
    ensures w * Eval(c, x) == Mix(c, w * 1.0, w * x, w * (x * x), w * (x * x * x), w * (x * x * x * x))
  { }

  lemma TermByMoments(p: Sample, c: Poly)
    ensures PolyTerm(p, c)
         == Mix(c, MomentTerm(p, 0), MomentTerm(p, 1), MomentTerm(p, 2), MomentTerm(p, 3), MomentTerm(p, 4))
  {
    PowersAre(p.x);
    TermByPowers(p.w, c, p.x);
  }

  /** A weighted sum of polynomial values is the same mix of moments. */
  lemma {:induction false} PolyByMoments(s: seq<Sample>, c: Poly)
    ensures PolySum(s, c) == MixOf(s, c)
  {
    if s != [] {
      var f, p := Front(s), Last(s);
      PolyByMoments(f, c);
      TermByMoments(p, c);
      MixAdds(c, Moment(f, 0), Moment(f, 1), Moment(f, 2), Moment(f, 3), Moment(f, 4),
              MomentTerm(p, 0), MomentTerm(p, 1), MomentTerm(p, 2), MomentTerm(p, 3), MomentTerm(p, 4));
    }
  }

  predicate Nonnegative(s: seq<Sample>, c: Poly) {
    forall i :: 0 <= i < |s| ==> s[i].w >= 1.0 && Eval(c, s[i].x) >= 0.0
  }

  lemma TermAtLeast(p: Sample, c: Poly)
    requires p.w >= 1.0 && Eval(c, p.x) >= 0.0
    ensures PolyTerm(p, c) >= Eval(c, p.x)
  {
    ScaleUp(p.w, Eval(c, p.x));
  }

  lemma ScaleUp(w: real, e: real)
    requires w >= 1.0 && e >= 0.0
    ensures w * e >= e
  {
    Product(w - 1.0, e);
  }

  lemma {:induction false} PolyNonnegative(s: seq<Sample>, c: Poly)
    requires Nonnegative(s, c)
    ensures PolySum(s, c) >= 0.0
  {
    if s != [] {
      PolyNonnegative(Front(s), c);
      TermAtLeast(Last(s), c);
    }
  }

  /** A sum of nonnegative terms is at least any one of them plus the sum before it. */
  lemma {:induction false} PolyAtLeast(s: seq<Sample>, c: Poly, i: nat)
    requires Nonnegative(s, c) && i < |s|
    ensures PolySum(s, c) >= PolySum(s[..i], c) + Eval(c, s[i].x)
  {
    TermAtLeast(Last(s), c);
    if i < |s| - 1 {
      assert Front(s)[..i] == s[..i];
      PolyAtLeast(Front(s), c, i);
    } else {
      assert s[..i] == Front(s);
    }
  }

  lemma TwoPoints(s: seq<Sample>, c: Poly, i: nat, j: nat)
    requires Nonnegative(s, c) && i < j < |s|
    ensures PolySum(s, c) >= Eval(c, s[i].x) + Eval(c, s[j].x)
  {
    PolyAtLeast(s, c, j);
    var f := s[..j];
    PolyAtLeast(f, c, i);
    PolyNonnegative(f[..i], c);
  }

  lemma ThreePoints(s: seq<Sample>, c: Poly, i: nat, j: nat, k: nat)
    requires Nonnegative(s, c) && i < j < k < |s|
    ensures PolySum(s, c) >= Eval(c, s[i].x) + Eval(c, s[j].x) + Eval(c, s[k].x)
  {
    PolyAtLeast(s, c, k);
    TwoPoints(s[..k], c, i, j);
  }

  // ---------------------------------------------------------------- particular polynomials

  /** (x + t)^2 */
  function Line(t: real): Poly { Poly(t * t, 2.0 * t, 1.0, 0.0, 0.0) }

  lemma LineIs(t: real, x: real)
    ensures Eval(Line(t), x) == (x + t) * (x + t)
  { }

  /** (x^2 + u x + v)^2 */
  function Quartic(u: real, v: real): Poly { Poly(v * v, 2.0 * (u * v), u * u + 2.0 * v, 2.0 * u, 1.0) }

  function Monic(u: real, v: real, x: real): real { x * x + u * x + v }

  lemma QuarticIs(u: real, v: real, x: real)
    ensures Eval(Quartic(u, v), x) == Monic(u, v, x) * Monic(u, v, x)
  {
    var q := x * x;
    assert Monic(u, v, x) * Monic(u, v, x)
        == q * q + 2.0 * (u * x * q) + u * x * (u * x) + 2.0 * (v * q) + 2.0 * (u * x * v) + v * v;
  }

  /** (x - g)^2 (2 + k (x + g)) */
  function Tilted(g: real, k: real): Poly {
    Poly(g * g * (2.0 + k * g), k * (g * g) - 2.0 * (g * (2.0 + k * g)), 2.0 + k * g - 2.0 * (k * g), k, 0.0)
  }

  /** (x - g)^2 (h + k x), multiplied out. */
  function Expanded(g: real, k: real, h: real, x: real): real {
    h * (x * x) - 2.0 * (h * (g * x)) + h * (g * g) + k * (x * x * x) - 2.0 * (k * (g * (x * x))) + k * (g * g) * x
  }

  lemma TiltedExpands(g: real, k: real, h: real, x: real)
    requires h == 2.0 + k * g
    ensures Eval(Tilted(g, k), x) == Expanded(g, k, h, x)
  {
    assert Eval(Poly(g * g * h, k * (g * g) - 2.0 * (g * h), h - 2.0 * (k * g), k, 0.0), x) == Expanded(g, k, h, x);
  }

  lemma ProductExpands(g: real, k: real, h: real, x: real)
    ensures (x - g) * (x - g) * (h + k * x) == Expanded(g, k, h, x)
  {
    assert (x - g) * (x - g) == x * x - 2.0 * (g * x) + g * g;
  }

  lemma TiltedIs(g: real, k: real, x: real)
    ensures Eval(Tilted(g, k), x) == (x - g) * (x - g) * (2.0 + k * (x + g))
  {
    var h := 2.0 + k * g;
    TiltedExpands(g, k, h, x);
    ProductExpands(g, k, h, x);
    assert 2.0 + k * (x + g) == h + k * x;
  }
}
