/**
 The split-conformal interval of `causal_return_interval`: a finite-sample quantile of past one-bar
 residuals, and its prequential coverage count.
 */
module Conformal {
  import opened Options
  import opened Reals
  import opened Elimination
  import opened CausalTrend
  import opened TrendExists

  // ---------------------------------------------------------------- sorting and counting

  predicate Ascending(s: seq<real>) { forall i, j :: 0 <= i < j < |s| ==> s[i] <= s[j] }

  function Insert(x: real, s: seq<real>): (t: seq<real>)
    requires Ascending(s)
    ensures Ascending(t) && |t| == |s| + 1
    ensures forall i :: 0 <= i < |t| ==> t[i] == x || t[i] in s
  {
    if s == [] || x <= s[0] then [x] + s
    else
      var rest := Insert(x, s[1..]);
      assert forall i :: 0 <= i < |rest| ==> s[0] <= rest[i];
      [s[0]] + rest
  }

  function Sorted(s: seq<real>): (t: seq<real>)
    ensures Ascending(t) && |t| == |s|
  {
    if s == [] then [] else Insert(s[0], Sorted(s[1..]))
  }

  function CountLe(s: seq<real>, x: real): (n: nat)
    ensures n <= |s|
  {
    if s == [] then 0 else (if s[0] <= x then 1 else 0) + CountLe(s[1..], x)
  }

  function CountLt(s: seq<real>, x: real): (n: nat)
    ensures n <= |s|
  {
    if s == [] then 0 else (if s[0] < x then 1 else 0) + CountLt(s[1..], x)
  }

  lemma {:induction false} InsertCounts(y: real, s: seq<real>, x: real)
    requires Ascending(s)
    ensures CountLe(Insert(y, s), x) == CountLe([y] + s, x)
    ensures CountLt(Insert(y, s), x) == CountLt([y] + s, x)
  {
    assert ([y] + s)[1..] == s;
    if s != [] && y > s[0] {
      InsertCounts(y, s[1..], x);
      assert ([y] + s[1..])[1..] == s[1..];
      assert Insert(y, s)[1..] == Insert(y, s[1..]);
    }
  }

  lemma {:induction false} SortedCounts(s: seq<real>, x: real)
    ensures CountLe(Sorted(s), x) == CountLe(s, x) && CountLt(Sorted(s), x) == CountLt(s, x)
  {
    if s != [] {
      SortedCounts(s[1..], x);
      InsertCounts(s[0], Sorted(s[1..]), x);
      assert ([s[0]] + Sorted(s[1..]))[1..] == Sorted(s[1..]);
    }
  }

  lemma {:induction false} AscendingCounts(s: seq<real>, k: nat)
    requires Ascending(s) && k < |s|
    ensures CountLe(s, s[k]) >= k + 1 && CountLt(s, s[k]) <= k
  {
    if k > 0 {
      assert s[1..][k - 1] == s[k];
      AscendingCounts(s[1..], k - 1);
    } else {
      NoneBelow(s, s[0]);
    }
  }

  lemma {:induction false} NoneBelow(s: seq<real>, x: real)
    requires forall i :: 0 <= i < |s| ==> x <= s[i]
    ensures CountLt(s, x) == 0
  {
    if s != [] { NoneBelow(s[1..], x); }
  }

  /** Everything at or below x is strictly below any larger y. */
  lemma {:induction false} CountsOrdered(s: seq<real>, x: real, y: real)
    requires x < y
    ensures CountLe(s, x) <= CountLt(s, y)
  {
    if s != [] { CountsOrdered(s[1..], x, y); }
  }

  lemma {:induction false} InsertMembers(y: real, s: seq<real>, x: real)
    requires Ascending(s)
    ensures x in Insert(y, s) <==> x == y || x in s
  {
    if s != [] && y > s[0] {
      InsertMembers(y, s[1..], x);
      assert x in s <==> x == s[0] || x in s[1..];
    }
  }

  lemma {:induction false} SortedMembers(s: seq<real>, x: real)
    ensures x in Sorted(s) <==> x in s
  {
    if s != [] {
      SortedMembers(s[1..], x);
      InsertMembers(s[0], Sorted(s[1..]), x);
      assert x in s <==> x == s[0] || x in s[1..];
    }
  }

  // ---------------------------------------------------------------- the quantile

  function Ceiling(x: real): (c: int)
    ensures c as real >= x && c as real < x + 1.0
  {
    -((-x).Floor)
  }

  /** The share of `n` that the confidence level asks for. */
  function Share(n: nat, level: real): real { n as real * level }

  /** The one-based rank min(n, max(1, ceil((n + 1) c))). */
  function Rank(n: nat, level: real): (r: nat)
    requires n > 0
    ensures 1 <= r <= n
  {
    var raw := Ceiling(Share(n + 1, level));
    var low := if raw < 1 then 1 else raw;
    if low < n then low else n
  }

  function Quantile(s: seq<real>, level: real): real
    requires |s| > 0
  {
    Sorted(s)[Rank(|s|, level) - 1]
  }

  lemma CountsAt(s: seq<real>, t: seq<real>, k: nat, q: real)
    requires Ascending(t) && 1 <= k <= |t| && q == t[k - 1] && (q in t <==> q in s)
    requires CountLe(t, q) == CountLe(s, q) && CountLt(t, q) == CountLt(s, q)
    ensures q in s && CountLt(s, q) < k <= CountLe(s, q)
  {
    AscendingCounts(t, k - 1);
  }

  lemma KthCounts(s: seq<real>, k: nat, q: real)
    requires 1 <= k <= |s| && q == Sorted(s)[k - 1]
    ensures q in s && CountLt(s, q) < k <= CountLe(s, q)
  {
    SortedMembers(s, q);
    SortedCounts(s, q);
    CountsAt(s, Sorted(s), k, q);
  }

  lemma OneWithCounts(s: seq<real>, k: nat, q: real, x: real)
    requires CountLt(s, q) < k <= CountLe(s, q) && CountLt(s, x) < k <= CountLe(s, x)
    ensures x == q
  {
    if x < q { CountsOrdered(s, x, q); }
    if q < x { CountsOrdered(s, q, x); }
  }

  /** The k-th smallest element is the only number with fewer than k below it and at least k at or below it. */
  lemma KthExactly(s: seq<real>, k: nat, x: real)
    requires 1 <= k <= |s|
    ensures Sorted(s)[k - 1] in s
    ensures x == Sorted(s)[k - 1] <==> CountLt(s, x) < k <= CountLe(s, x)
  {
    var q := Sorted(s)[k - 1];
    KthCounts(s, k, q);
    if CountLt(s, x) < k <= CountLe(s, x) { OneWithCounts(s, k, q, x); }
  }

  /**
   The quantile is one of the residuals, with at least rank residuals at or below it and fewer than rank
   strictly below; no other number has both counts.
   */
  lemma QuantileExactly(s: seq<real>, level: real, x: real)
    requires |s| > 0
    ensures Quantile(s, level) in s
    ensures x == Quantile(s, level) <==> CountLt(s, x) < Rank(|s|, level) <= CountLe(s, x)
  {
    KthExactly(s, Rank(|s|, level), x);
  }

  lemma {:induction false} AllAtOrBelow(s: seq<real>, x: real)
    ensures CountLe(s, x) == |s| <==> forall i :: 0 <= i < |s| ==> s[i] <= x
  {
    if s != [] {
      AllAtOrBelow(s[1..], x);
      assert forall i :: 0 <= i < |s| - 1 ==> s[1..][i] == s[i + 1];
      if forall i :: 0 <= i < |s| ==> s[i] <= x { assert s[0] <= x; }
      if CountLe(s, x) == |s| {
        forall i | 0 <= i < |s| ensures s[i] <= x { if i > 0 { assert s[1..][i - 1] <= x; } }
      }
    }
  }

  // ---------------------------------------------------------------- what the rank guarantees

  function Without(s: seq<real>, j: nat): seq<real>
    requires j < |s|
  {
    s[..j] + s[j + 1..]
  }

  lemma {:induction false} WithoutCounts(s: seq<real>, j: nat, x: real)
    requires j < |s|
    ensures CountLe(s, x) == CountLe(Without(s, j), x) + (if s[j] <= x then 1 else 0)
  {
    if j > 0 {
      WithoutCounts(s[1..], j - 1, x);
      assert Without(s, j)[1..] == Without(s[1..], j - 1);
    } else {
      assert Without(s, 0) == s[1..];
    }
  }

  /** Does the interval calibrated on all other residuals cover residual `j`? */
  predicate HeldOutCovered(s: seq<real>, level: real, j: nat)
    requires |s| > 1 && j < |s|
  {
    s[j] <= Quantile(Without(s, j), level)
  }

  function HeldOutCoverage(s: seq<real>, level: real, upto: nat): (n: nat)
    requires |s| > 1 && upto <= |s|
    ensures n <= upto
  {
    if upto == 0 then 0
    else HeldOutCoverage(s, level, upto - 1) + (if HeldOutCovered(s, level, upto - 1) then 1 else 0)
  }

  /** The rank-th smallest of the full set bounds what every held-out quantile covers. */
  lemma CoveredBelow(s: seq<real>, level: real, j: nat, threshold: real)
    requires |s| > 1 && j < |s| && s[j] <= threshold && CountLt(s, threshold) < Rank(|s| - 1, level)
    ensures HeldOutCovered(s, level, j)
  {
    var others := Without(s, j);
    var q := Quantile(others, level);
    QuantileExactly(others, level, q);
    WithoutCounts(s, j, q);
    if q < threshold { CountsOrdered(s, q, threshold); }
  }

  lemma {:induction false} CoverageAtLeast(s: seq<real>, level: real, threshold: real, upto: nat)
    requires |s| > 1 && upto <= |s| && CountLt(s, threshold) < Rank(|s| - 1, level)
    ensures HeldOutCoverage(s, level, upto) >= CountLe(s[..upto], threshold)
  {
    if upto > 0 {
      CoverageAtLeast(s, level, threshold, upto - 1);
      assert Without(s[..upto], upto - 1) == s[..upto - 1];
      WithoutCounts(s[..upto], upto - 1, threshold);
      if s[upto - 1] <= threshold { CoveredBelow(s, level, upto - 1, threshold); }
    }
  }

  lemma RankUncapped(n: nat, level: real)
    requires n > 0 && Share(n + 1, level) <= n as real
    ensures Rank(n, level) as real >= Share(n + 1, level)
  { }

  /** At least rank residuals are covered by the quantile of the others. */
  lemma CoverageAtRank(s: seq<real>, level: real)
    requires |s| > 1
    ensures HeldOutCoverage(s, level, |s|) >= Rank(|s| - 1, level)
  {
    var k := Rank(|s| - 1, level);
    var threshold := Sorted(s)[k - 1];
    AscendingCounts(Sorted(s), k - 1);
    SortedCounts(s, threshold);
    CoverageAtLeast(s, level, threshold, |s|);
    assert s[..|s|] == s;
  }

  /**
   The reason for the n + 1 in the rank: among any n + 1 residuals, holding out each in turn, at least the
   requested share is covered by the quantile of the other n.
   */
  lemma HeldOutGuarantee(s: seq<real>, level: real)
    requires |s| > 1 && level >= 0.0 && Share(|s|, level) <= (|s| - 1) as real
    ensures HeldOutCoverage(s, level, |s|) as real >= Share(|s|, level)
  {
    CoverageAtRank(s, level);
    RankUncapped(|s| - 1, level);
  }

  lemma {:induction false} CoverageMisses(s: seq<real>, level: real, top: nat, upto: nat)
    requires |s| > 1 && top < upto <= |s| && !HeldOutCovered(s, level, top)
    ensures HeldOutCoverage(s, level, upto) <= upto - 1
  {
    if upto - 1 > top { CoverageMisses(s, level, top, upto - 1); }
  }

  /** One residual above all others is never covered by the others. */
  lemma TopMissed(s: seq<real>, level: real, top: nat)
    requires |s| > 1 && top < |s| && forall i :: 0 <= i < |s| && i != top ==> s[i] < s[top]
    ensures HeldOutCoverage(s, level, |s|) <= |s| - 1
  {
    var others := Without(s, top);
    QuantileExactly(others, level, Quantile(others, level));
    assert forall i :: 0 <= i < |others| ==> others[i] == s[if i < top then i else i + 1];
    CoverageMisses(s, level, top, |s|);
  }

  function Staircase(n: nat): seq<real> { seq(n, i => i as real + 1.0) }

  /** Residuals as calibration leaves them, none below the floor. */
  predicate Floored(s: seq<real>) { forall i :: 0 <= i < |s| ==> s[i] >= RESIDUAL_FLOOR }

  ghost predicate Guaranteed(n: nat, level: real)
    requires n > 0
  {
    forall s: seq<real> :: |s| == n + 1 && Floored(s) ==>
      HeldOutCoverage(s, level, n + 1) as real >= Share(n + 1, level)
  }

  /** The guarantee holds for every set of n + 1 residuals exactly when the capped rank was not needed. */
  lemma GuaranteeExactly(n: nat, level: real)
    requires n > 0 && level >= 0.0
    ensures Guaranteed(n, level) <==> Share(n + 1, level) <= n as real
  {
    if Share(n + 1, level) <= n as real {
      forall s: seq<real> | |s| == n + 1 && Floored(s)
        ensures HeldOutCoverage(s, level, n + 1) as real >= Share(n + 1, level)
      {
        HeldOutGuarantee(s, level);
      }
    } else {
      StaircaseMissed(n, level);
    }
  }

  lemma StaircaseMissed(n: nat, level: real)
    requires n > 0
    ensures |Staircase(n + 1)| == n + 1 && Floored(Staircase(n + 1))
    ensures HeldOutCoverage(Staircase(n + 1), level, n + 1) <= n
  {
    TopMissed(Staircase(n + 1), level, n);
  }

  // ---------------------------------------------------------------- calibration

  const WARM_UP: nat := 20
  const RESIDUAL_FLOOR: real := 0.000000000000000000000001

  /** The one-bar prediction of the quadratic trend through a prefix of the log prices. */
  function TrendPrediction(root: real -> real, window: nat): seq<real> -> Option<real>
    requires IsRoot(root)
  {
    (prefix: seq<real>) =>
      match TrendFromLogs(root, prefix, window)
      case None => None
      case Some(t) => Some(t.velocity + t.acceleration / 2.0)
  }

  /** The residual of bar `target`, predicted from the bars before it. */
  function ResidualAt(fit: seq<real> -> Option<real>, logs: seq<real>, target: nat): Option<real>
    requires 0 < target < |logs|
  {
    match fit(logs[..target])
    case None => None
    case Some(p) => Some(Max(RESIDUAL_FLOOR, Abs(logs[target] - logs[target - 1] - p)))
  }

  /** Residuals of bars first, ..., upto - 1, or nothing as soon as one trend is missing. */
  function Residuals(fit: seq<real> -> Option<real>, logs: seq<real>, first: nat, upto: nat): (r: Option<seq<real>>)
    requires 0 < first <= upto <= |logs|
    ensures r.Some? ==> |r.value| == upto - first
  {
    if upto == first then Some([])
    else match Residuals(fit, logs, first, upto - 1)
      case None => None
      case Some(rs) =>
        match ResidualAt(fit, logs, upto - 1)
        case None => None
        case Some(x) => Some(rs + [x])
  }

  lemma {:induction false} ResidualsFloored(fit: seq<real> -> Option<real>, logs: seq<real>, first: nat, upto: nat)
    requires 0 < first <= upto <= |logs| && Residuals(fit, logs, first, upto).Some?
    ensures forall x :: x in Residuals(fit, logs, first, upto).value ==> x >= RESIDUAL_FLOOR
  {
    if upto > first { ResidualsFloored(fit, logs, first, upto - 1); }
  }

  /** Was residual `i` inside the quantile of the residuals before it? */
  predicate Hit(rs: seq<real>, level: real, i: nat)
    requires 0 < i < |rs|
  {
    rs[i] <= Quantile(rs[..i], level)
  }

  function Hits(rs: seq<real>, level: real, upto: nat): (n: nat)
    requires WARM_UP <= upto <= |rs|
    ensures n <= upto - WARM_UP
  {
    if upto == WARM_UP then 0 else Hits(rs, level, upto - 1) + (if Hit(rs, level, upto - 1) then 1 else 0)
  }

  datatype Lean = Up | Down | Uncertain

  datatype Interval = Interval(
    predicted: real, lower: real, upper: real, halfWidth: real, size: nat, checked: nat, coverage: real, lean: Lean)

  function Build(predicted: real, half: real, size: nat, checked: nat, coverage: real): Interval {
    Interval(predicted, predicted - half, predicted + half, half, size, checked, coverage,
             if predicted - half > 0.0 then Up else if predicted + half < 0.0 then Down else Uncertain)
  }

  predicate Acceptable(n: nat, window: nat, size: nat, level: real) {
    window >= 5 && size >= 20 && 0.5 < level < 1.0 && n >= window + size
  }

  /** Count the coverage, take the half-width, predict from the endpoint. */
  function Conclude(rs: seq<real>, endpoint: Option<real>, level: real): Option<Interval>
    requires |rs| >= WARM_UP
  {
    var checked := |rs| - WARM_UP;
    if checked == 0 || endpoint == None then None
    else Some(Build(endpoint.value, Quantile(rs, level), |rs|, checked,
                    Hits(rs, level, |rs|) as real / checked as real))
  }

  function ReturnInterval(fit: seq<real> -> Option<real>, logs: seq<real>, window: nat, size: nat,
                          level: real): Option<Interval>
  {
    if !Acceptable(|logs|, window, size, level) then None
    else match Residuals(fit, logs, |logs| - size, |logs|)
      case None => None
      case Some(rs) => Conclude(rs, fit(logs), level)
  }

  /** What a published interval promises about the residuals it was calibrated on. */
  predicate Calibrated(v: Interval, rs: seq<real>, level: real) {
    && |rs| > WARM_UP && v.halfWidth in rs && v.halfWidth >= RESIDUAL_FLOOR
    && CountLt(rs, v.halfWidth) < Rank(|rs|, level) <= CountLe(rs, v.halfWidth)
    && v.lower < v.predicted < v.upper
    && 0.0 <= v.coverage <= 1.0
    && (v.lean == Up <==> v.lower > 0.0) && (v.lean == Down <==> v.upper < 0.0)
  }

  lemma ConcludeSound(rs: seq<real>, endpoint: Option<real>, level: real)
    requires |rs| >= WARM_UP && Conclude(rs, endpoint, level).Some?
    requires forall x :: x in rs ==> x >= RESIDUAL_FLOOR
    ensures Calibrated(Conclude(rs, endpoint, level).value, rs, level)
  {
    QuantileExactly(rs, level, Quantile(rs, level));
    ShareOfChecks(Hits(rs, level, |rs|), |rs| - WARM_UP);
  }

  lemma ShareOfChecks(hits: nat, checked: nat)
    requires hits <= checked && checked > 0
    ensures 0.0 <= hits as real / checked as real <= 1.0
  {
    Fraction(hits as real, checked as real);
  }

  /** Every published interval: half-width a real residual at its rank, positive width, coverage a share. */
  lemma IntervalSound(fit: seq<real> -> Option<real>, logs: seq<real>, window: nat, size: nat, level: real, v: Interval)
    requires ReturnInterval(fit, logs, window, size, level) == Some(v)
    ensures |logs| >= window + size && v.size == size && v.checked == size - WARM_UP
    ensures Residuals(fit, logs, |logs| - size, |logs|).Some?
    ensures Calibrated(v, Residuals(fit, logs, |logs| - size, |logs|).value, level)
  {
    ResidualsFloored(fit, logs, |logs| - size, |logs|);
    ConcludeSound(Residuals(fit, logs, |logs| - size, |logs|).value, fit(logs), level);
  }

  /** A predictor that answers for every prefix of at least `window` prices. */
  ghost predicate Answers(fit: seq<real> -> Option<real>, window: nat) {
    forall prefix :: |prefix| >= window ==> fit(prefix).Some?
  }

  lemma TrendAnswers(root: real -> real, window: nat)
    requires IsRoot(root) && window >= 5
    ensures Answers(TrendPrediction(root, window), window)
  {
    var fit := TrendPrediction(root, window);
    forall prefix: seq<real> | |prefix| >= window ensures fit(prefix).Some? { TrendExactly(root, prefix, window); }
  }

  lemma {:induction false} ResidualsExist(fit: seq<real> -> Option<real>, logs: seq<real>, window: nat, first: nat,
                                          upto: nat)
    requires Answers(fit, window) && 0 < first <= upto <= |logs| && window <= first
    ensures Residuals(fit, logs, first, upto).Some?
  {
    if upto > first {
      ResidualsExist(fit, logs, window, first, upto - 1);
      assert |logs[..upto - 1]| >= window;
    }
  }

  /**
   With the trend fit as predictor an interval is published exactly when the arguments are acceptable and
   the calibration is not of exactly twenty residuals: those pass the guard but leave nothing to check.
   */
  lemma PublishedExactly(root: real -> real, logs: seq<real>, window: nat, size: nat, level: real)
    requires IsRoot(root)
    ensures ReturnInterval(TrendPrediction(root, window), logs, window, size, level).Some?
       <==> Acceptable(|logs|, window, size, level) && size != 20
  {
    if Acceptable(|logs|, window, size, level) {
      TrendAnswers(root, window);
      AnsweredIsPublished(TrendPrediction(root, window), logs, window, size, level);
    }
  }

  lemma AnsweredIsPublished(fit: seq<real> -> Option<real>, logs: seq<real>, window: nat, size: nat, level: real)
    requires Answers(fit, window) && Acceptable(|logs|, window, size, level)
    ensures ReturnInterval(fit, logs, window, size, level).Some? <==> size != 20
  {
    ResidualsExist(fit, logs, window, |logs| - size, |logs|);
    assert fit(logs).Some?;
  }

  // ---------------------------------------------------------------- causality

  /** Residuals and comparisons up to a bar depend only on prices up to that bar. */
  lemma {:induction false} ResidualsCausal(fit: seq<real> -> Option<real>, logs: seq<real>, other: seq<real>,
                                           first: nat, upto: nat)
    requires 0 < first <= upto <= |logs| && upto <= |other| && logs[..upto] == other[..upto]
    ensures Residuals(fit, logs, first, upto) == Residuals(fit, other, first, upto)
  {
    if upto > first {
      assert logs[..upto - 1] == logs[..upto][..upto - 1];
      assert other[..upto - 1] == other[..upto][..upto - 1];
      ResidualsCausal(fit, logs, other, first, upto - 1);
      assert logs[upto - 1] == logs[..upto][upto - 1] && other[upto - 1] == other[..upto][upto - 1];
      assert logs[upto - 2] == logs[..upto][upto - 2] && other[upto - 2] == other[..upto][upto - 2];
    }
  }

  lemma {:induction false} ResidualsPrefix(fit: seq<real> -> Option<real>, logs: seq<real>, first: nat, mid: nat,
                                           upto: nat, rs: seq<real>)
    requires 0 < first <= mid <= upto <= |logs| && Residuals(fit, logs, first, upto) == Some(rs)
    ensures Residuals(fit, logs, first, mid) == Some(rs[..mid - first])
  {
    if mid < upto {
      var shorter := rs[..upto - 1 - first];
      assert Residuals(fit, logs, first, upto - 1) == Some(shorter);
      ResidualsPrefix(fit, logs, first, mid, upto - 1, shorter);
      assert shorter[..mid - first] == rs[..mid - first];
    } else {
      assert rs[..mid - first] == rs;
    }
  }

  /** What was computed when the prices ended at `mid` is what a longer series shows for the same bars. */
  lemma ResidualsTruncate(fit: seq<real> -> Option<real>, logs: seq<real>, first: nat, mid: nat, rs: seq<real>)
    requires 0 < first <= mid <= |logs| && Residuals(fit, logs, first, |logs|) == Some(rs)
    ensures Residuals(fit, logs[..mid], first, mid) == Some(rs[..mid - first])
  {
    ResidualsPrefix(fit, logs, first, mid, |logs|, rs);
    ResidualsCausal(fit, logs, logs[..mid], first, mid);
  }

  /** No prequential comparison looks past its own bar: whatever prices follow `mid` leave it as it was. */
  lemma ComparisonCausal(fit: seq<real> -> Option<real>, logs: seq<real>, first: nat, mid: nat, level: real, i: nat,
                         rs: seq<real>, short: seq<real>)
    requires 0 < first && 0 < i < mid - first && mid <= |logs|
    requires Residuals(fit, logs, first, |logs|) == Some(rs) && Residuals(fit, logs[..mid], first, mid) == Some(short)
    ensures rs[i] == short[i] && (Hit(rs, level, i) <==> Hit(short, level, i))
  {
    ResidualsTruncate(fit, logs, first, mid, rs);
    assert short[..i + 1] == rs[..i + 1];
    SamePrefixSameHit(rs, short, level, i);
  }

  lemma SamePrefixSameHit(a: seq<real>, b: seq<real>, level: real, i: nat)
    requires 0 < i < |a| && i < |b| && a[..i + 1] == b[..i + 1]
    ensures a[i] == b[i] && (Hit(a, level, i) <==> Hit(b, level, i))
  {
    assert a[i] == a[..i + 1][i] && b[i] == b[..i + 1][i];
    assert a[..i] == a[..i + 1][..i] && b[..i] == b[..i + 1][..i];
  }

  // ---------------------------------------------------------------- rescaling prices

  /** A predictor that ignores the unit of prices; the trend fit is one. */
  ghost predicate UnitFree(fit: seq<real> -> Option<real>) {
    forall logs, k :: fit(Shifted(logs, k)) == fit(logs)
  }

  lemma PredictionShifted(root: real -> real, window: nat, logs: seq<real>, k: real)
    requires IsRoot(root)
    ensures TrendPrediction(root, window)(Shifted(logs, k)) == TrendPrediction(root, window)(logs)
  {
    ShiftInvariant(root, logs, k, window);
  }

  lemma TrendIsUnitFree(root: real -> real, window: nat)
    requires IsRoot(root)
    ensures UnitFree(TrendPrediction(root, window))
  {
    var fit := TrendPrediction(root, window);
    forall logs, k ensures fit(Shifted(logs, k)) == fit(logs) { PredictionShifted(root, window, logs, k); }
  }

  lemma ResidualShifted(fit: seq<real> -> Option<real>, logs: seq<real>, k: real, target: nat)
    requires UnitFree(fit) && 0 < target < |logs|
    ensures ResidualAt(fit, Shifted(logs, k), target) == ResidualAt(fit, logs, target)
  {
    assert Shifted(logs, k)[..target] == Shifted(logs[..target], k);
    assert fit(Shifted(logs[..target], k)) == fit(logs[..target]);
    assert Shifted(logs, k)[target] - Shifted(logs, k)[target - 1] == logs[target] - logs[target - 1];
  }

  lemma {:induction false} ResidualsShifted(fit: seq<real> -> Option<real>, logs: seq<real>, k: real, first: nat,
                                            upto: nat)
    requires UnitFree(fit) && 0 < first <= upto <= |logs|
    ensures Residuals(fit, Shifted(logs, k), first, upto) == Residuals(fit, logs, first, upto)
  {
    if upto > first {
      ResidualsShifted(fit, logs, k, first, upto - 1);
      ResidualShifted(fit, logs, k, upto - 1);
    }
  }

  lemma SameResiduals(fit: seq<real> -> Option<real>, logs: seq<real>, other: seq<real>, window: nat, size: nat,
                      level: real)
    requires |other| == |logs| && Acceptable(|logs|, window, size, level) && fit(other) == fit(logs)
    requires Residuals(fit, other, |logs| - size, |logs|) == Residuals(fit, logs, |logs| - size, |logs|)
    ensures ReturnInterval(fit, other, window, size, level) == ReturnInterval(fit, logs, window, size, level)
  { }

  lemma UnitFreeInterval(fit: seq<real> -> Option<real>, logs: seq<real>, k: real, window: nat, size: nat, level: real)
    requires UnitFree(fit)
    ensures ReturnInterval(fit, Shifted(logs, k), window, size, level) == ReturnInterval(fit, logs, window, size, level)
  {
    if Acceptable(|logs|, window, size, level) {
      ResidualsShifted(fit, logs, k, |logs| - size, |logs|);
      SameResiduals(fit, logs, Shifted(logs, k), window, size, level);
    }
  }

  /** The interval calibrated on trend fits does not depend on the unit prices are quoted in. */
  lemma IntervalShiftInvariant(root: real -> real, logs: seq<real>, k: real, window: nat, size: nat, level: real)
    requires IsRoot(root)
    ensures var fit := TrendPrediction(root, window);
      ReturnInterval(fit, Shifted(logs, k), window, size, level) == ReturnInterval(fit, logs, window, size, level)
  {
    TrendIsUnitFree(root, window);
    UnitFreeInterval(TrendPrediction(root, window), logs, k, window, size, level);
  }

  // ---------------------------------------------------------------- the loops

  method Calibrate(fit: seq<real> -> Option<real>, logs: seq<real>, first: nat) returns (r: Option<seq<real>>)
    requires 0 < first <= |logs|
    ensures r == Residuals(fit, logs, first, |logs|)
  {
    var residuals: seq<real> := [];
    for target := first to |logs|
      invariant Residuals(fit, logs, first, target) == Some(residuals)
    {
      var estimate := fit(logs[..target]);
      if estimate == None {
        MissingStays(fit, logs, first, target + 1, |logs|);
        return None;
      }
      var observed := logs[target] - logs[target - 1];
      residuals := residuals + [Max(RESIDUAL_FLOOR, Abs(observed - estimate.value))];
    }
    r := Some(residuals);
  }

  lemma {:induction false} MissingStays(fit: seq<real> -> Option<real>, logs: seq<real>, first: nat, mid: nat,
                                        upto: nat)
    requires 0 < first <= mid <= upto <= |logs| && Residuals(fit, logs, first, mid).None?
    ensures Residuals(fit, logs, first, upto).None?
  {
    if mid < upto { MissingStays(fit, logs, first, mid, upto - 1); }
  }

  method CountHits(rs: seq<real>, level: real) returns (covered: nat, checked: nat)
    requires |rs| >= WARM_UP
    ensures covered == Hits(rs, level, |rs|) && checked == |rs| - WARM_UP
  {
    covered, checked := 0, 0;
    for i := WARM_UP to |rs|
      invariant covered == Hits(rs, level, i) && checked == i - WARM_UP
    {
      if rs[i] <= Quantile(rs[..i], level) { covered := covered + 1; }
      checked := checked + 1;
    }
  }

  /** `causal_return_interval` on log prices. */
  method EstimateInterval(fit: seq<real> -> Option<real>, logs: seq<real>, window: nat, size: nat,
                          level: real)
    returns (v: Option<Interval>)
    ensures v == ReturnInterval(fit, logs, window, size, level)
  {
    if !Acceptable(|logs|, window, size, level) { return None; }
    var residuals := Calibrate(fit, logs, |logs| - size);
    if residuals == None { return None; }
    v := Finish(residuals.value, fit(logs), level);
  }

  method Finish(rs: seq<real>, endpoint: Option<real>, level: real) returns (v: Option<Interval>)
    requires |rs| >= WARM_UP
    ensures v == Conclude(rs, endpoint, level)
  {
    var covered, checked := CountHits(rs, level);
    if checked == 0 { return None; }
    if endpoint == None { return None; }
    v := Some(Build(endpoint.value, Quantile(rs, level), |rs|, checked, covered as real / checked as real));
  }
}
