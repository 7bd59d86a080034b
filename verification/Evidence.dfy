/**
 Weighted evidence: totals, weighted means and disagreement, the arithmetic behind every fusion step.
 */
module Evidence {
  import opened Reals

  datatype Vote = Vote(weight: real, signal: real)

  function Sum(f: Vote -> real, es: seq<Vote>): real {
    if es == [] then 0.0 else Sum(f, es[..|es| - 1]) + f(es[|es| - 1])
  }

  function WeightOf(e: Vote): real { e.weight }
  function Weighted(e: Vote): real { e.weight * e.signal }
  function DistanceOf(e: Vote, m: real): real { e.weight * Abs(e.signal - m) }
  function Distance(m: real): Vote -> real { (e: Vote) => DistanceOf(e, m) }

  function Total(es: seq<Vote>): real { Sum(WeightOf, es) }
  function WeightedSum(es: seq<Vote>): real { Sum(Weighted, es) }

  /** Weighted distance of the signals from `m`. */
  function Spread(es: seq<Vote>, m: real): real { Sum(Distance(m), es) }

  function Mean(es: seq<Vote>): real {
    if Total(es) == 0.0 then 0.0 else WeightedSum(es) / Total(es)
  }

  predicate Sane(es: seq<Vote>) {
    forall i :: 0 <= i < |es| ==> es[i].weight >= 0.0 && -1.0 <= es[i].signal <= 1.0
  }

  /** Every vote that carries weight lies between `lo` and `hi`. */
  predicate Within(es: seq<Vote>, lo: real, hi: real) {
    forall i :: 0 <= i < |es| ==> es[i].weight >= 0.0 && (es[i].weight > 0.0 ==> lo <= es[i].signal <= hi)
  }

  // ---------------------------------------------------------------- sums

  lemma SumAppend(f: Vote -> real, es: seq<Vote>, e: Vote)
    ensures Sum(f, es + [e]) == Sum(f, es) + f(e)
  {
    assert (es + [e])[..|es|] == es;
  }

  lemma {:induction false} SumMonotone(f: Vote -> real, g: Vote -> real, es: seq<Vote>)
    requires forall i :: 0 <= i < |es| ==> f(es[i]) <= g(es[i])
    ensures Sum(f, es) <= Sum(g, es)
  {
    if es != [] { SumMonotone(f, g, es[..|es| - 1]); }
  }

  lemma {:induction false} SumNonnegative(f: Vote -> real, es: seq<Vote>)
    requires forall i :: 0 <= i < |es| ==> f(es[i]) >= 0.0
    ensures Sum(f, es) >= 0.0
    ensures Sum(f, es) > 0.0 <==> exists i :: 0 <= i < |es| && f(es[i]) > 0.0
  {
    if es != [] {
      var front := es[..|es| - 1];
      SumNonnegative(f, front);
      if Sum(f, front) > 0.0 {
        var i :| 0 <= i < |front| && f(front[i]) > 0.0;
        assert f(es[i]) > 0.0;
      }
      if exists i :: 0 <= i < |es| && f(es[i]) > 0.0 {
        var i :| 0 <= i < |es| && f(es[i]) > 0.0;
        if i < |front| { assert f(front[i]) > 0.0; }
      }
    }
  }

  lemma {:induction false} SumScaled(f: Vote -> real, g: Vote -> real, k: real, es: seq<Vote>)
    requires forall e :: g(e) == k * f(e)
    ensures Sum(g, es) == k * Sum(f, es)
  {
    if es != [] {
      var front, e := es[..|es| - 1], es[|es| - 1];
      SumScaled(f, g, k, front);
      Expand(k, Sum(f, front), f(e), Sum(f, es));
    }
  }

  lemma Expand(k: real, a: real, b: real, sum: real)
    requires sum == a + b
    ensures k * sum == k * a + k * b
  { }

  lemma {:induction false} SumDifference(f: Vote -> real, g: Vote -> real, h: Vote -> real, es: seq<Vote>)
    requires forall e :: h(e) == f(e) - g(e)
    ensures Sum(h, es) == Sum(f, es) - Sum(g, es)
  {
    if es != [] { SumDifference(f, g, h, es[..|es| - 1]); }
  }

  lemma TotalNonnegative(es: seq<Vote>)
    requires forall i :: 0 <= i < |es| ==> es[i].weight >= 0.0
    ensures Total(es) >= 0.0
    ensures Total(es) > 0.0 <==> exists i :: 0 <= i < |es| && es[i].weight > 0.0
  {
    SumNonnegative(WeightOf, es);
    assert forall i :: 0 <= i < |es| ==> WeightOf(es[i]) == es[i].weight;
  }

  // ---------------------------------------------------------------- means

  function Scaled(k: real): Vote -> real { (e: Vote) => k * e.weight }

  lemma BetweenScaled(e: Vote, lo: real, hi: real)
    requires e.weight >= 0.0 && (e.weight > 0.0 ==> lo <= e.signal <= hi)
    ensures lo * e.weight <= e.weight * e.signal <= hi * e.weight
  {
    if e.weight > 0.0 {
      Product(e.weight, e.signal - lo);
      Product(e.weight, hi - e.signal);
    }
  }

  lemma ScaledTotal(es: seq<Vote>, k: real)
    ensures Sum(Scaled(k), es) == k * Total(es)
  {
    SumScaled(WeightOf, Scaled(k), k, es);
  }

  lemma BetweenSums(es: seq<Vote>, lo: real, hi: real)
    requires Within(es, lo, hi)
    ensures Sum(Scaled(lo), es) <= WeightedSum(es) <= Sum(Scaled(hi), es)
  {
    forall i | 0 <= i < |es| ensures Scaled(lo)(es[i]) <= Weighted(es[i]) <= Scaled(hi)(es[i]) {
      BetweenScaled(es[i], lo, hi);
    }
    SumMonotone(Scaled(lo), Weighted, es);
    SumMonotone(Weighted, Scaled(hi), es);
  }

  lemma SumWithin(es: seq<Vote>, lo: real, hi: real)
    requires Within(es, lo, hi)
    ensures lo * Total(es) <= WeightedSum(es) <= hi * Total(es)
  {
    BetweenSums(es, lo, hi);
    ScaledTotal(es, lo);
    ScaledTotal(es, hi);
  }

  lemma QuotientWithin(sum: real, total: real, lo: real, hi: real)
    requires total > 0.0 && lo * total <= sum <= hi * total
    ensures lo <= sum / total <= hi
  {
    var q := sum / total;
    assert q * total == sum;
    if q < lo { StrictProduct(lo - q, total); }
    if q > hi { StrictProduct(q - hi, total); }
  }

  /** A weighted mean is a convex combination: it stays between any bounds its counted signals share. */
  lemma MeanWithin(es: seq<Vote>, lo: real, hi: real)
    requires Within(es, lo, hi) && Total(es) > 0.0
    ensures lo <= Mean(es) <= hi
  {
    SumWithin(es, lo, hi);
    QuotientWithin(WeightedSum(es), Total(es), lo, hi);
  }

  lemma MeanBounded(es: seq<Vote>)
    requires Sane(es)
    ensures -1.0 <= Mean(es) <= 1.0
  {
    TotalNonnegative(es);
    if Total(es) > 0.0 { MeanWithin(es, -1.0, 1.0); }
  }

  // ---------------------------------------------------------------- disagreement

  /** Inside the unit range, distance is at most one minus the product. */
  lemma DistanceBound(s: real, m: real)
    requires -1.0 <= s <= 1.0 && -1.0 <= m <= 1.0
    ensures Abs(s - m) <= 1.0 - s * m
  {
    if s >= m { Product(1.0 - s, 1.0 + m); } else { Product(1.0 - m, 1.0 + s); }
  }

  /** Weight times one minus the product with `m`. */
  function RoomOf(e: Vote, m: real): real { WeightOf(e) - PulledOf(e, m) }
  function PulledOf(e: Vote, m: real): real { m * Weighted(e) }
  function Room(m: real): Vote -> real { (e: Vote) => RoomOf(e, m) }
  function Pulled(m: real): Vote -> real { (e: Vote) => PulledOf(e, m) }

  lemma DistanceWithinRoom(e: Vote, m: real)
    requires e.weight >= 0.0 && -1.0 <= e.signal <= 1.0 && -1.0 <= m <= 1.0
    ensures 0.0 <= DistanceOf(e, m) <= RoomOf(e, m)
  {
    DistanceBound(e.signal, m);
    WeighRoom(e.weight, e.signal, m, Abs(e.signal - m), DistanceOf(e, m));
  }

  lemma WeighRoom(w: real, s: real, m: real, d: real, q: real)
    requires w >= 0.0 && 0.0 <= d <= 1.0 - s * m && q == w * d
    ensures 0.0 <= q <= w - m * (w * s)
  {
    Product(w, d);
    Product(w, 1.0 - s * m - d);
    assert w * (1.0 - s * m - d) == w - m * (w * s) - w * d;
  }

  lemma SpreadUnderRoom(es: seq<Vote>, m: real)
    requires Sane(es) && -1.0 <= m <= 1.0
    ensures 0.0 <= Spread(es, m) <= Sum(Room(m), es)
  {
    forall i | 0 <= i < |es| ensures 0.0 <= Distance(m)(es[i]) <= Room(m)(es[i]) {
      DistanceWithinRoom(es[i], m);
    }
    SumNonnegative(Distance(m), es);
    SumMonotone(Distance(m), Room(m), es);
  }

  lemma PulledTotal(es: seq<Vote>, m: real)
    ensures Sum(Pulled(m), es) == m * WeightedSum(es)
  {
    SumScaled(Weighted, Pulled(m), m, es);
  }

  lemma RoomTotal(es: seq<Vote>, m: real)
    ensures Sum(Room(m), es) == Total(es) - Sum(Pulled(m), es)
  {
    SumDifference(WeightOf, Pulled(m), Room(m), es);
  }

  lemma SpreadBound(es: seq<Vote>, m: real)
    requires Sane(es) && -1.0 <= m <= 1.0
    ensures 0.0 <= Spread(es, m) <= Total(es) - m * WeightedSum(es)
  {
    SpreadUnderRoom(es, m);
    RoomTotal(es, m);
    PulledTotal(es, m);
  }

  function Disagreement(es: seq<Vote>): real
    requires Total(es) > 0.0
  {
    Spread(es, Mean(es)) / (2.0 * Total(es))
  }

  /**
   Disagreement never exceeds (1 - m^2) / 2 for mean m, so one minus it lies between one half and one and
   needs no clamp.
   */
  lemma DisagreementBound(es: seq<Vote>)
    requires Sane(es) && Total(es) > 0.0
    ensures 0.0 <= Disagreement(es) <= (1.0 - Mean(es) * Mean(es)) / 2.0
  {
    MeanBounded(es);
    SpreadBound(es, Mean(es));
    DisagreementPlain(Spread(es, Mean(es)), WeightedSum(es), Total(es), Mean(es));
  }

  lemma DisagreementPlain(spread: real, sum: real, t: real, m: real)
    requires t > 0.0 && m == sum / t && 0.0 <= spread <= t - m * sum
    ensures 0.0 <= spread / (2.0 * t) <= (1.0 - m * m) / 2.0
  {
    assert m * t == sum;
    DisagreementProducts(spread, sum, t, m);
  }

  lemma DisagreementProducts(spread: real, sum: real, t: real, m: real)
    requires t > 0.0 && m * t == sum && 0.0 <= spread <= t - m * sum
    ensures 0.0 <= spread / (2.0 * t) <= (1.0 - m * m) / 2.0
  {
    var q := m * m;
    assert m * sum == q * t;
    QuotientWithin(spread, 2.0 * t, 0.0, (1.0 - q) / 2.0);
  }
}
