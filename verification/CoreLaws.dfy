/**
 What the evidence core computes, in plain numbers: what each family says about one timeframe, how timeframes
 and families are weighed against each other, and which readings decide a snapshot.
 */
module CoreLaws {
  import opened Options
  import opened Reals
  import opened Evidence
  import opened MathematicalCore

  // ---------------------------------------------------------------- velocity and acceleration

  /** Velocity dominates: at full size it gives the blend its sign and at least three fifths of its size ... */
  lemma VelocityDominates(velocity: real, acceleration: real)
    ensures velocity >= 1.0 ==> 0.6 <= Blend(velocity, acceleration) <= 1.0
    ensures velocity <= -1.0 ==> -1.0 <= Blend(velocity, acceleration) <= -0.6
  { }

  /** ... and acceleration moves it by at most a fifth from four fifths of the velocity. */
  lemma AccelerationAdds(velocity: real, acceleration: real)
    requires -1.0 <= velocity <= 1.0
    ensures -0.2 <= Blend(velocity, acceleration) - 0.8 * velocity <= 0.2
    ensures acceleration >= 1.0 ==> Blend(velocity, acceleration) == 0.8 * velocity + 0.2
    ensures acceleration <= -1.0 ==> Blend(velocity, acceleration) == 0.8 * velocity - 0.2
    ensures acceleration == 0.0 ==> Blend(velocity, acceleration) == 0.8 * velocity
  { }

  // ---------------------------------------------------------------- one timeframe

  /** How far each volatility regime is trusted. */
  predicate TrustedBy(v: Volatility, k: real) {
    && (v == NormalVol ==> k == 1.0) && (v == LowVol ==> k == 0.85) && (v == HighVol ==> k == 0.70)
    && (v == ExtremeVol ==> k == 0.20)
  }

  predicate Silent(g: Option<Signal>) { g.Some? ==> g.value.reliability == 0.0 }

  /** Bad data silences every family. */
  lemma BadDataIsSilent(v: Checked)
    requires !v.core.dataOk
    ensures Silent(StructureSignal(v)) && Silent(MomentumSignal(v)) && Silent(DerivativeSignal(v))
    ensures Silent(StateSignal(v)) && Silent(ConformalSignal(v))
  { }

  /**
   The trend's say: missing without a trend; otherwise trusted by its confidence, half of it at least and all
   of it at a perfect fit, and less by the shock that the state filter reports.
   */
  lemma DerivativeSays(v: Checked)
    requires v.core.dataOk
    ensures DerivativeSignal(v).Some? <==> v.core.trend.Some?
    ensures v.core.trend.Some? ==>
      var g, t := DerivativeSignal(v).value, v.core.trend.value;
      var shock := if v.core.state.Some? then v.core.state.value.shock else 0.0;
      g.value == Blend(t.velocityRatio, t.accelerationRatio)
      && 2.0 * g.reliability == t.confidence * (1.0 + t.r2) * (1.0 - shock)
  {
    if v.core.trend.Some? {
      var t := v.core.trend.value;
      var shock := if v.core.state.Some? then v.core.state.value.shock else 0.0;
      TripleProduct(t.confidence, 0.50 + 0.50 * t.r2, 1.0 - shock);
      HalfTwice(t.confidence, t.r2, 1.0 - shock);
    }
  }

  lemma HalfTwice(c: real, r: real, k: real)
    ensures 2.0 * (1.0 * c * (0.50 + 0.50 * r) * k) == c * (1.0 + r) * k
    ensures 1.0 * c * (0.50 + 0.50 * r) * k == c * (0.50 + 0.50 * r) * k
  { }

  /** The state filter's say: three deviations are full size, trusted by confidence, calm and the absence of shock. */
  lemma StateSays(v: Checked, k: real)
    requires v.core.dataOk && TrustedBy(v.core.volatility, k)
    ensures StateSignal(v).Some? <==> v.core.state.Some?
    ensures v.core.state.Some? ==>
      var g, s := StateSignal(v).value, v.core.state.value;
      g.value == Blend(s.velocityZ / 3.0, s.accelerationZ / 3.0)
      && g.reliability == s.confidence * (1.0 - s.shock) * k
  {
    if v.core.state.Some? {
      var s := v.core.state.value;
      TripleProduct(s.confidence, 1.0 - s.shock, k);
    }
  }

  /** The interval's say: full size on the side that it excludes zero on, otherwise the prediction against its width. */
  lemma ConformalSays(v: Checked)
    requires v.core.interval.Some?
    ensures var g, n := ConformalSignal(v), v.core.interval.value;
      && g.Some? && (n.lower > 0.0 ==> g.value.value == 1.0) && (n.upper < 0.0 ==> g.value.value == -1.0)
      && (n.lower <= 0.0 <= n.upper ==>
            && g.value.value * (Abs(n.predicted) + n.half + EPSILON) == n.predicted && -1.0 < g.value.value < 1.0)
  {
    var n := v.core.interval.value;
    StrengthIs(n.predicted, n.half, Strength(n.predicted, Abs(n.predicted), n.half));
  }

  lemma StrengthIs(x: real, half: real, q: real)
    requires half >= 0.0 && q == x / (Abs(x) + half + EPSILON)
    ensures q * (Abs(x) + half + EPSILON) == x && -1.0 < q < 1.0
  {
    var d := Abs(x) + half + EPSILON;
    assert q * d == x;
    if q >= 1.0 { Scaling(1.0, q, d); }
    if q <= -1.0 { Scaling(q, -1.0, d); }
  }

  /** ... and trusted by its coverage, by how large the prediction is against its width, and by calm. */
  lemma ConformalTrust(v: Checked, k: real, q: real)
    requires v.core.dataOk && TrustedBy(v.core.volatility, k) && v.core.interval.Some?
    requires var n := v.core.interval.value; q == Abs(n.predicted) / (Abs(n.predicted) + n.half + EPSILON)
    ensures 0.0 <= q < 1.0
    ensures ConformalSignal(v).value.reliability == v.core.interval.value.record.share * q * k
  {
    var n := v.core.interval.value;
    ShareOf(Abs(n.predicted), Abs(n.predicted) + n.half + EPSILON, q);
    TripleProduct(n.record.share, q, k);
  }

  lemma ShareOf(a: real, d: real, q: real)
    requires 0.0 <= a < d && q == a / d
    ensures 0.0 <= q < 1.0
  {
    assert q * d == a;
    if q < 0.0 { StrictProduct(-q, d); }
    if q >= 1.0 { Scaling(1.0, q, d); }
  }

  /** Momentum: the histogram's sign decides, and the oscillator never turns it. */
  lemma MomentumSide(v: Checked)
    requires v.texture.histogram.Some? && v.texture.rsi.Some?
    ensures var g, h := MomentumSignal(v), v.texture.histogram.value;
      && g.Some? && (h > 0.0 ==> 0.30 <= g.value.value) && (h < 0.0 ==> g.value.value <= -0.30)
      && (v.texture.rsi.value == 50.0 ==> g.value.value == (if h > 0.0 then 0.65 else if h < 0.0 then -0.65 else 0.0))
      && (v.texture.rsi.value >= 72.0 && h == 0.0 ==> g.value.value == 0.35)
  { }

  /** Structure: a bias gives the sign whatever breaks and average price say, which count alone when it is neutral. */
  lemma StructureSide(v: Checked)
    ensures var g, t := StructureSignal(v), v.texture;
      && g.Some?
      && (t.bias == StrongBullish ==> 0.50 <= g.value.value) && (t.bias == StrongBearish ==> g.value.value <= -0.50)
      && (t.bias == Bullish ==> 0.20 <= g.value.value) && (t.bias == Bearish ==> g.value.value <= -0.20)
      && (t.bias == Neutral && t.choch == Up ==> 0.0 <= g.value.value)
      && (t.bias == Neutral && t.choch == NoBreak && t.bos == Up ==> 0.05 <= g.value.value <= 0.25)
      && (t.bias == Neutral && t.choch == NoBreak && t.bos == NoBreak && t.vwap.Some? && t.close > t.vwap.value ==>
            g.value.value == 0.10)
  { }

  /** Structure is trusted by half without a trend, fully at a strength of 35, evenly in between, and by calm. */
  lemma StructureTrust(v: Checked, k: real)
    requires v.core.dataOk && TrustedBy(v.core.volatility, k)
    ensures var r, adx := StructureSignal(v).value.reliability, v.texture.adx;
      && (adx.None? || adx.value <= 15.0 ==> 2.0 * r == k) && (adx.Some? && adx.value >= 35.0 ==> r == k)
      && (adx.Some? && 15.0 <= adx.value <= 35.0 ==> 40.0 * r == (adx.value + 5.0) * k)
  { }

  /** Momentum is trusted by the volume, between a quarter and all of it and half without any, and by calm. */
  lemma MomentumTrust(v: Checked, k: real)
    requires v.core.dataOk && TrustedBy(v.core.volatility, k) && MomentumSignal(v).Some?
    ensures var r, volume := MomentumSignal(v).value.reliability, v.texture.volume;
      && (volume.None? ==> 2.0 * r == k) && (volume.Some? && volume.value <= 0.25 ==> 4.0 * r == k)
      && (volume.Some? && volume.value >= 1.0 ==> r == k)
      && (volume.Some? && 0.25 <= volume.value <= 1.0 ==> r == k * volume.value)
  { }

  /** With a flat histogram momentum leans with the oscillator: 22 points from 50 are its full share. */
  lemma MomentumLean(v: Checked)
    requires v.texture.histogram == Some(0.0) && v.texture.rsi.Some? && 28.0 <= v.texture.rsi.value <= 72.0
    ensures MomentumSignal(v).Some? && 22.0 * MomentumSignal(v).value.value == 0.35 * (v.texture.rsi.value - 50.0)
  { }

  // ---------------------------------------------------------------- one family over the timeframes

  function Weight(g: Option<Signal>): real { if g.Some? then g.value.reliability else 0.0 }

  /** What a signal says, times how far it is trusted. */
  function Pull(g: Option<Signal>): real { if g.Some? then g.value.reliability * g.value.value else 0.0 }

  /** A mix of the four timeframes, highest first: 35, 30, 25 and 10 hundredths. */
  function Mixed(a: real, b: real, c: real, d: real): real { 0.35 * a + 0.30 * b + 0.25 * c + 0.10 * d }

  lemma JoinedSums(front: seq<Vote>, i: nat, g: Option<Signal>)
    ensures Total(Joined(front, i, g)) == Total(front) + TimeframeWeight(i) * Weight(g)
    ensures WeightedSum(Joined(front, i, g)) == WeightedSum(front) + TimeframeWeight(i) * Pull(g)
  {
    if g.Some? {
      TotalAppend(front, VoteOf(i, g.value));
      Regrouped(TimeframeWeight(i), g.value.reliability, g.value.value);
    }
  }

  lemma Regrouped(w: real, r: real, s: real)
    ensures (w * r) * s == w * (r * s)
  { }

  function TrustUpTo(family: Family, views: seq<Option<Checked>>, n: nat): real
    requires FourViews(views) && n <= 4
  {
    if n == 0 then 0.0
    else TrustUpTo(family, views, n - 1) + TimeframeWeight(n - 1) * Weight(Local(family, views[n - 1]))
  }

  function PullUpTo(family: Family, views: seq<Option<Checked>>, n: nat): real
    requires FourViews(views) && n <= 4
  {
    if n == 0 then 0.0
    else PullUpTo(family, views, n - 1) + TimeframeWeight(n - 1) * Pull(Local(family, views[n - 1]))
  }

  lemma {:induction false} TrustSum(family: Family, views: seq<Option<Checked>>, n: nat)
    requires FourViews(views) && n <= 4
    ensures Total(Votes(family, views, n)) == TrustUpTo(family, views, n)
  {
    if n > 0 {
      TrustSum(family, views, n - 1);
      JoinedSums(Votes(family, views, n - 1), n - 1, Local(family, views[n - 1]));
    }
  }

  lemma {:induction false} PullSum(family: Family, views: seq<Option<Checked>>, n: nat)
    requires FourViews(views) && n <= 4
    ensures WeightedSum(Votes(family, views, n)) == PullUpTo(family, views, n)
  {
    if n > 0 {
      PullSum(family, views, n - 1);
      JoinedSums(Votes(family, views, n - 1), n - 1, Local(family, views[n - 1]));
    }
  }

  lemma UpToFour(family: Family, views: seq<Option<Checked>>)
    requires FourViews(views)
    ensures var a, b := Local(family, views[0]), Local(family, views[1]);
      var c, d := Local(family, views[2]), Local(family, views[3]);
      && TrustUpTo(family, views, 4) == Mixed(Weight(a), Weight(b), Weight(c), Weight(d))
      && PullUpTo(family, views, 4) == Mixed(Pull(a), Pull(b), Pull(c), Pull(d))
  {
    assert TrustUpTo(family, views, 1) == 0.35 * Weight(Local(family, views[0]));
    assert PullUpTo(family, views, 1) == 0.35 * Pull(Local(family, views[0]));
    assert TrustUpTo(family, views, 2) == TrustUpTo(family, views, 1) + 0.30 * Weight(Local(family, views[1]));
    assert PullUpTo(family, views, 2) == PullUpTo(family, views, 1) + 0.30 * Pull(Local(family, views[1]));
    assert TrustUpTo(family, views, 3) == TrustUpTo(family, views, 2) + 0.25 * Weight(Local(family, views[2]));
    assert PullUpTo(family, views, 3) == PullUpTo(family, views, 2) + 0.25 * Pull(Local(family, views[2]));
  }

  /** Each timeframe counts its hundredths times what its own signal is trusted. */
  lemma TimeframesCount(family: Family, views: seq<Option<Checked>>)
    requires FourViews(views)
    ensures var a, b := Local(family, views[0]), Local(family, views[1]);
      var c, d := Local(family, views[2]), Local(family, views[3]);
      && Total(Votes(family, views, 4)) == Mixed(Weight(a), Weight(b), Weight(c), Weight(d))
      && WeightedSum(Votes(family, views, 4)) == Mixed(Pull(a), Pull(b), Pull(c), Pull(d))
  {
    TrustSum(family, views, 4);
    PullSum(family, views, 4);
    UpToFour(family, views);
  }

  /** `mean` is the weighted mean of votes with this total weight and this weighted sum. */
  predicate MeanOf(mean: real, total: real, sum: real) { mean * total == sum && (total == 0.0 ==> mean == 0.0) }

  lemma MeanTimes(es: seq<Vote>)
    requires Sane(es)
    ensures MeanOf(Mean(es), Total(es), WeightedSum(es))
  {
    TotalNonnegative(es);
    if Total(es) == 0.0 { SumWithinZero(es); } else { Back(WeightedSum(es), Total(es)); }
  }

  lemma ComponentMeans(root: real -> real, code: Code, family: Family, views: seq<Option<Checked>>)
    requires FourViews(views) && SoundFamily(family)
    ensures var x, es := ComponentOf(root, code, family, views), Votes(family, views, 4);
      x.code == code && x.reliability == Total(es) && MeanOf(x.signal, Total(es), WeightedSum(es))
  {
    ComponentExact(root, code, family, views);
    VotesSane(family, views, 4);
    MeanTimes(Votes(family, views, 4));
  }

  /** A component: its reliability is that total, and its signal the weighted mean. */
  lemma ComponentCounts(root: real -> real, code: Code, family: Family, views: seq<Option<Checked>>)
    requires FourViews(views) && SoundFamily(family)
    ensures var x := ComponentOf(root, code, family, views);
      var a, b := Local(family, views[0]), Local(family, views[1]);
      var c, d := Local(family, views[2]), Local(family, views[3]);
      && x.code == code && x.reliability == Mixed(Weight(a), Weight(b), Weight(c), Weight(d))
      && MeanOf(x.signal, x.reliability, Mixed(Pull(a), Pull(b), Pull(c), Pull(d)))
  {
    ComponentMeans(root, code, family, views);
    TimeframesCount(family, views);
  }

  lemma Back(a: real, b: real)
    requires b != 0.0
    ensures a / b * b == a
  { }

  lemma SumWithinZero(es: seq<Vote>)
    requires Sane(es) && Total(es) == 0.0
    ensures WeightedSum(es) == 0.0
  {
    SumWithin(es, -1.0, 1.0);
  }

  /** Of two timeframes that are trusted alike and say opposite things, the higher one decides. */
  lemma HigherTimeframeWins(family: Family, views: seq<Option<Checked>>, i: nat, j: nat)
    requires FourViews(views) && i < j < 4
    requires forall k :: 0 <= k < 4 && k != i && k != j ==> Local(family, views[k]).None?
    requires var a, b := Local(family, views[i]), Local(family, views[j]);
      && a.Some? && b.Some? && a.value.reliability == b.value.reliability > 0.0
      && a.value.value == 1.0 && b.value.value == -1.0
    ensures Mean(Votes(family, views, 4)) > 0.0
  {
    TimeframesCount(family, views);
    PositiveQuotient(WeightedSum(Votes(family, views, 4)), Total(Votes(family, views, 4)));
  }

  lemma PositiveQuotient(a: real, b: real)
    requires a > 0.0 && b > 0.0
    ensures a / b > 0.0
  { }

  // ---------------------------------------------------------------- instability

  /** The risk of one timeframe is the largest of its shock, its volatility and its data. */
  lemma RiskIsLargest(v: Checked)
    ensures var r, core := Risk(v), v.core;
      && (core.state.Some? ==> r >= core.state.value.shock) && (core.volatility == HighVol ==> r >= 0.25)
      && (core.volatility == ExtremeVol ==> r >= 0.80) && (!core.dataOk ==> r == 1.0)
      && (core.dataOk ==>
            || r == 0.0 || (core.state.Some? && r == core.state.value.shock)
            || (core.volatility == HighVol && r == 0.25) || (core.volatility == ExtremeVol && r == 0.80))
      && (core.dataOk && (core.volatility == NormalVol || core.volatility == LowVol) && core.state.None? ==> r == 0.0)
  { }

  function Seen(v: Option<Checked>): real { if v.Some? then 1.0 else 0.0 }
  function RiskOf(v: Option<Checked>): real { if v.Some? then Risk(v.value) else 0.0 }

  lemma RisksNext(views: seq<Option<Checked>>, n: nat)
    requires FourViews(views) && n < 4
    ensures Total(Risks(Risk, views, n + 1)) == Total(Risks(Risk, views, n)) + TimeframeWeight(n) * Seen(views[n])
    ensures WeightedSum(Risks(Risk, views, n + 1))
         == WeightedSum(Risks(Risk, views, n)) + TimeframeWeight(n) * RiskOf(views[n])
  {
    if views[n].Some? { TotalAppend(Risks(Risk, views, n), Vote(TimeframeWeight(n), Risk(views[n].value))); }
  }

  function SeenUpTo(views: seq<Option<Checked>>, n: nat): real
    requires FourViews(views) && n <= 4
  {
    if n == 0 then 0.0 else SeenUpTo(views, n - 1) + TimeframeWeight(n - 1) * Seen(views[n - 1])
  }

  function RiskUpTo(views: seq<Option<Checked>>, n: nat): real
    requires FourViews(views) && n <= 4
  {
    if n == 0 then 0.0 else RiskUpTo(views, n - 1) + TimeframeWeight(n - 1) * RiskOf(views[n - 1])
  }

  lemma {:induction false} SeenSum(views: seq<Option<Checked>>, n: nat)
    requires FourViews(views) && n <= 4
    ensures Total(Risks(Risk, views, n)) == SeenUpTo(views, n)
  {
    if n > 0 { SeenSum(views, n - 1); RisksNext(views, n - 1); }
  }

  lemma {:induction false} RiskSum(views: seq<Option<Checked>>, n: nat)
    requires FourViews(views) && n <= 4
    ensures WeightedSum(Risks(Risk, views, n)) == RiskUpTo(views, n)
  {
    if n > 0 { RiskSum(views, n - 1); RisksNext(views, n - 1); }
  }

  lemma SeenToFour(views: seq<Option<Checked>>)
    requires FourViews(views)
    ensures SeenUpTo(views, 4) == Mixed(Seen(views[0]), Seen(views[1]), Seen(views[2]), Seen(views[3]))
    ensures RiskUpTo(views, 4) == Mixed(RiskOf(views[0]), RiskOf(views[1]), RiskOf(views[2]), RiskOf(views[3]))
  {
    assert SeenUpTo(views, 1) == 0.35 * Seen(views[0]) && RiskUpTo(views, 1) == 0.35 * RiskOf(views[0]);
    assert SeenUpTo(views, 2) == SeenUpTo(views, 1) + 0.30 * Seen(views[1]);
    assert RiskUpTo(views, 2) == RiskUpTo(views, 1) + 0.30 * RiskOf(views[1]);
    assert SeenUpTo(views, 3) == SeenUpTo(views, 2) + 0.25 * Seen(views[2]);
    assert RiskUpTo(views, 3) == RiskUpTo(views, 2) + 0.25 * RiskOf(views[2]);
  }

  /** Instability: the same hundredths over the timeframes that are there, and full without any. */
  lemma InstabilityCounts(views: seq<Option<Checked>>)
    requires FourViews(views)
    ensures var seen := Mixed(Seen(views[0]), Seen(views[1]), Seen(views[2]), Seen(views[3]));
      && (seen == 0.0 <==> views[0].None? && views[1].None? && views[2].None? && views[3].None?)
      && (seen == 0.0 ==> Instability(views) == 1.0)
      && (seen > 0.0 ==>
            MeanOf(Instability(views), seen,
                   Mixed(RiskOf(views[0]), RiskOf(views[1]), RiskOf(views[2]), RiskOf(views[3]))))
  {
    SeenSum(views, 4);
    RiskSum(views, 4);
    SeenToFour(views);
    InstabilityUnit(views);
    InstabilityMean(views);
  }

  lemma InstabilityMean(views: seq<Option<Checked>>)
    requires FourViews(views)
    ensures var es := Risks(Risk, views, 4); Total(es) != 0.0 ==> MeanOf(Instability(views), Total(es), WeightedSum(es))
  {
    InstabilityUnit(views);
    var es := Risks(Risk, views, 4);
    if Total(es) != 0.0 { Back(WeightedSum(es), Total(es)); }
  }

  // ---------------------------------------------------------------- families against each other

  /** The five components in their order, and how each is validated. */
  predicate Five(cs: seq<Component>) {
    && |cs| == 5 && cs[0].code == Structure && cs[1].code == Momentum && cs[2].code == Derivative
    && cs[3].code == State && cs[4].code == Conformal
    && cs[0].validation.level == Auxiliary && cs[1].validation.level == Auxiliary
    && cs[2].validation.level != Auxiliary && cs[3].validation.level != Auxiliary
  }

  function Third(c: Component): Vote { Vote(1.0 / 3.0 * c.reliability, c.signal) }
  function Half(c: Component): Vote { Vote(1.0 / 2.0 * c.reliability, c.signal) }

  lemma CountedAs(c: Component)
    ensures Selected(c, false) <==>
      (c.code == Derivative || c.code == State || c.code == Conformal) && c.validation.level != Auxiliary
    ensures Selected(c, true) <==> (c.code == Structure || c.code == Momentum) && c.validation.level == Auxiliary
    ensures Selected(c, false) ==> Ballot(c, false) == Third(c)
    ensures Selected(c, true) ==> Ballot(c, true) == Half(c)
  { }

  /** What counts for the decision: trend and state always, the interval when validated, a third each. */
  lemma BallotsAre(cs: seq<Component>)
    requires Five(cs)
    ensures Ballots(cs, false)
         == [Third(cs[2]), Third(cs[3])] + (if cs[4].validation.level != Auxiliary then [Third(cs[4])] else [])
  {
    BallotsUpTo(cs, false);
    CountedAs(cs[0]);
    CountedAs(cs[1]);
    CountedAs(cs[2]);
    CountedAs(cs[3]);
    CountedAs(cs[4]);
    assert Ballots(cs[..0 + 1], false) == [];
    assert Ballots(cs[..1 + 1], false) == [];
    assert Ballots(cs[..2 + 1], false) == [Third(cs[2])];
    assert Ballots(cs[..3 + 1], false) == [Third(cs[2]), Third(cs[3])];
    assert Ballots(cs[..4 + 1], false) == Ballots(cs, false);
  }

  /** What the auxiliary score takes: structure and momentum, a half each. */
  lemma AuxiliariesAre(cs: seq<Component>)
    requires Five(cs)
    ensures Ballots(cs, true) == [Half(cs[0]), Half(cs[1])]
  {
    BallotsUpTo(cs, true);
    CountedAs(cs[0]);
    CountedAs(cs[1]);
    CountedAs(cs[2]);
    CountedAs(cs[3]);
    CountedAs(cs[4]);
    assert Ballots(cs[..0 + 1], true) == [Half(cs[0])];
    assert Ballots(cs[..1 + 1], true) == [Half(cs[0]), Half(cs[1])];
    assert Ballots(cs[..2 + 1], true) == [Half(cs[0]), Half(cs[1])];
    assert Ballots(cs[..3 + 1], true) == [Half(cs[0]), Half(cs[1])];
    assert Ballots(cs[..4 + 1], true) == Ballots(cs, true);
  }

  lemma BallotsUpTo(cs: seq<Component>, auxiliary: bool)
    requires |cs| == 5
    ensures forall k :: 0 <= k < 5 ==>
      Ballots(cs[..k + 1], auxiliary)
      == Ballots(cs[..k], auxiliary) + (if Selected(cs[k], auxiliary) then [Ballot(cs[k], auxiliary)] else [])
    ensures Ballots(cs[..0], auxiliary) == [] && Ballots(cs[..5], auxiliary) == Ballots(cs, auxiliary)
  {
    assert cs[..5] == cs;
    forall k | 0 <= k < 5 ensures Ballots(cs[..k + 1], auxiliary)
      == Ballots(cs[..k], auxiliary) + (if Selected(cs[k], auxiliary) then [Ballot(cs[k], auxiliary)] else [])
    {
      assert cs[..k + 1][..k] == cs[..k] && cs[..k + 1][k] == cs[k];
    }
  }

  lemma ComponentsFive(root: real -> real, views: seq<Option<Checked>>)
    requires FourViews(views)
    ensures Five(Components(root, views)) && Components(root, views)[4].validation == Validate(root, Conformal, views)
  { }

  // ---------------------------------------------------------------- the fused numbers

  function TwoOrThree(a: Vote, b: Vote, c: Option<Vote>): seq<Vote> { [a, b] + (if c.Some? then [c.value] else []) }

  function OrNothing(f: Vote -> real, c: Option<Vote>): real { if c.Some? then f(c.value) else 0.0 }

  lemma SumOfFew(f: Vote -> real, a: Vote, b: Vote, c: Option<Vote>)
    ensures Sum(f, TwoOrThree(a, b, c)) == f(a) + f(b) + OrNothing(f, c)
  {
    assert [a][..0] == [] && [a, b][..1] == [a];
    assert Sum(f, [a]) == Sum(f, []) + f(a);
    assert Sum(f, [a, b]) == f(a) + f(b);
    if c.Some? { SumAppend(f, [a, b], c.value); }
    else { assert TwoOrThree(a, b, c) == [a, b]; }
  }

  /** Score, coverage and consensus of votes with these weights and signals. */
  predicate Fuses(f: Fused, a: Vote, b: Vote, c: Option<Vote>) {
    var total := a.weight + b.weight + OrNothing(WeightOf, c);
    && f.coverage == total
    && MeanOf(f.score, total, Weighted(a) + Weighted(b) + OrNothing(Weighted, c))
    && (total > 0.0 ==> SpreadOf(f.consensus, total,
          DistanceOf(a, f.score) + DistanceOf(b, f.score) + OrNothing(Distance(f.score), c)))
  }

  /** Consensus is one less half the mean distance of the votes from the score. */
  predicate SpreadOf(consensus: real, total: real, distance: real) { 2.0 * total * (1.0 - consensus) == distance }

  lemma FuseOfFew(a: Vote, b: Vote, c: Option<Vote>)
    requires Sane(TwoOrThree(a, b, c)) && Total(TwoOrThree(a, b, c)) <= 1.0
    ensures Fuses(Fuse(TwoOrThree(a, b, c)), a, b, c)
  {
    var es := TwoOrThree(a, b, c);
    FuseExact(es);
    MeanTimes(es);
    TotalNonnegative(es);
    SumOfFew(WeightOf, a, b, c);
    SumOfFew(Weighted, a, b, c);
    SumOfFew(Distance(Mean(es)), a, b, c);
    if Total(es) > 0.0 { SpreadTimes(Disagreement(es), Spread(es, Mean(es)), Total(es), Fuse(es).consensus); }
  }

  lemma SpreadTimes(d: real, spread: real, total: real, consensus: real)
    requires total > 0.0 && d == spread / (2.0 * total) && consensus == 1.0 - d
    ensures SpreadOf(consensus, total, spread)
  {
    Back(spread, 2.0 * total);
  }

  // ---------------------------------------------------------------- the published snapshot

  /** The interval's vote, which counts when its record is validated. */
  function IfValidated(c: Component): Option<Vote> {
    if c.validation.level != Auxiliary then Some(Third(c)) else None
  }

  /** What a snapshot publishes as its confidence. */
  predicate Confides(confidence: real, f: Fused, instability: real) {
    confidence == f.coverage * f.consensus * Abs(f.score) * (1.0 - instability)
  }

  lemma BallotsFuse(cs: seq<Component>, auxiliary: bool)
    requires ValidComponents(cs) && Five(cs)
    ensures Sane(Ballots(cs, auxiliary))
    ensures var f := Fuse(Ballots(cs, auxiliary));
      && Signed(f.score) && Unit(f.coverage) && Unit(f.consensus)
      && (auxiliary ==> Fuses(f, Half(cs[0]), Half(cs[1]), None))
      && (!auxiliary ==> Fuses(f, Third(cs[2]), Third(cs[3]), IfValidated(cs[4])))
  {
    BallotsSane(cs, auxiliary);
    assert cs == [cs[0], cs[1], cs[2], cs[3], cs[4]];
    MethodSums(cs[0], cs[1], cs[2], cs[3], cs[4], auxiliary);
    FuseExact(Ballots(cs, auxiliary));
    if auxiliary {
      AuxiliariesAre(cs);
      assert Ballots(cs, auxiliary) == TwoOrThree(Half(cs[0]), Half(cs[1]), None);
      FuseOfFew(Half(cs[0]), Half(cs[1]), None);
    } else {
      BallotsAre(cs);
      assert Ballots(cs, auxiliary) == TwoOrThree(Third(cs[2]), Third(cs[3]), IfValidated(cs[4]));
      FuseOfFew(Third(cs[2]), Third(cs[3]), IfValidated(cs[4]));
    }
  }

  lemma PublishedConfides(f: Fused, aux: Fused, cs: seq<Component>, seen: bool, instability: real)
    requires Signed(f.score) && Unit(f.coverage) && Unit(f.consensus) && Unit(instability)
    requires Signed(aux.score) && Unit(aux.coverage) && Unit(aux.consensus)
    ensures var p := Published(f, aux, cs, seen, instability);
      && Fused(p.score, p.coverage, p.consensus) == f && p.instability == instability && p.components == cs
      && p.auxiliaryScore == aux.score && Confides(p.confidence, f, instability)
      && Confides(p.auxiliaryConfidence, aux, instability)
  {
    ConfidenceExact(f, instability);
    ConfidenceExact(aux, instability);
  }

  /**
   The published numbers: score, coverage and consensus come from trend, state and a validated interval at a
   third each, the auxiliary score from structure and momentum at a half each, and each confidence is the
   product of coverage, consensus, size of the score and stability.
   */
  lemma SnapshotFuses(root: real -> real, views: seq<Option<Checked>>) returns (aux: Fused)
    requires FourViews(views)
    ensures var p, cs := Snapshot(root, views), Components(root, views);
      var f := Fused(p.score, p.coverage, p.consensus);
      && p.components == cs && p.instability == Instability(views) && p.auxiliaryScore == aux.score
      && Fuses(f, Third(cs[2]), Third(cs[3]), IfValidated(cs[4])) && Confides(p.confidence, f, p.instability)
      && Fuses(aux, Half(cs[0]), Half(cs[1]), None) && Confides(p.auxiliaryConfidence, aux, p.instability)
  {
    ComponentsValid(root, views);
    ComponentsFive(root, views);
    InstabilityUnit(views);
    var cs := Components(root, views);
    BallotsFuse(cs, false);
    BallotsFuse(cs, true);
    aux := Fuse(Ballots(cs, true));
    PublishedConfides(Fuse(Ballots(cs, false)), aux, cs, AnyView(views), Instability(views));
  }

  // ---------------------------------------------------------------- velocities that agree

  predicate SaysWithin(g: Option<Signal>, lo: real, hi: real) {
    g.Some? && g.value.reliability > 0.0 ==> lo <= g.value.value <= hi
  }

  lemma {:induction false} VotesWithin(family: Family, views: seq<Option<Checked>>, n: nat, lo: real, hi: real)
    requires FourViews(views) && SoundFamily(family) && n <= 4
    requires forall i :: 0 <= i < 4 ==> SaysWithin(Local(family, views[i]), lo, hi)
    ensures Within(Votes(family, views, n), lo, hi)
  {
    if n > 0 {
      VotesWithin(family, views, n - 1, lo, hi);
      var g := Local(family, views[n - 1]);
      assert SaysWithin(g, lo, hi);
      if g.Some? {
        assert Sound(family(views[n - 1].value));
        VoteBounded(n - 1, g.value);
        if g.value.reliability == 0.0 { assert VoteOf(n - 1, g.value).weight == 0.0; }
      }
    }
  }

  /** What every timeframe of a family agrees on, the component says. */
  lemma ComponentAgrees(root: real -> real, code: Code, family: Family, views: seq<Option<Checked>>, lo: real, hi: real)
    requires FourViews(views) && SoundFamily(family)
    requires forall i :: 0 <= i < 4 ==> SaysWithin(Local(family, views[i]), lo, hi)
    ensures var c := ComponentOf(root, code, family, views); c.reliability > 0.0 ==> lo <= c.signal <= hi
  {
    ComponentExact(root, code, family, views);
    VotesWithin(family, views, 4, lo, hi);
    var es := Votes(family, views, 4);
    if Total(es) > 0.0 { MeanWithin(es, lo, hi); }
  }

  predicate AgreedWithin(c: Component, lo: real, hi: real) { c.reliability > 0.0 ==> lo <= c.signal <= hi }

  /** What every validated component agrees on, the score says. */
  lemma ScoreAgrees(cs: seq<Component>, seen: bool, instability: real, lo: real, hi: real)
    requires ValidComponents(cs) && Five(cs)
    requires AgreedWithin(cs[2], lo, hi) && AgreedWithin(cs[3], lo, hi)
    requires cs[4].validation.level != Auxiliary ==> AgreedWithin(cs[4], lo, hi)
    ensures var p := Assemble(cs, seen, instability); p.coverage > 0.0 ==> lo <= p.score <= hi
  {
    BallotsSane(cs, false);
    BallotsAre(cs);
    var es := Ballots(cs, false);
    assert cs == [cs[0], cs[1], cs[2], cs[3], cs[4]];
    MethodSums(cs[0], cs[1], cs[2], cs[3], cs[4], false);
    FuseExact(es);
    if Total(es) > 0.0 {
      ThirdWithin(cs[2], lo, hi);
      ThirdWithin(cs[3], lo, hi);
      if cs[4].validation.level != Auxiliary { ThirdWithin(cs[4], lo, hi); }
      MeanWithin(es, lo, hi);
    }
  }

  lemma ThirdWithin(c: Component, lo: real, hi: real)
    requires ValidComponent(c) && AgreedWithin(c, lo, hi)
    ensures var e := Third(c); e.weight >= 0.0 && (e.weight > 0.0 ==> lo <= e.signal <= hi)
  { }

  /** Every velocity at full size upwards, and the interval above zero. */
  predicate Rising(v: Checked) {
    && (v.core.trend.Some? ==> v.core.trend.value.velocityRatio >= 1.0)
    && (v.core.state.Some? ==> v.core.state.value.velocityZ >= 3.0)
    && (v.core.interval.Some? ==> v.core.interval.value.lower > 0.0)
  }

  predicate Falling(v: Checked) {
    && (v.core.trend.Some? ==> v.core.trend.value.velocityRatio <= -1.0)
    && (v.core.state.Some? ==> v.core.state.value.velocityZ <= -3.0)
    && (v.core.interval.Some? ==> v.core.interval.value.upper < 0.0)
  }

  lemma RisingSays(v: Checked)
    ensures Rising(v) ==>
      && SaysWithin(DerivativeSignal(v), 0.6, 1.0) && SaysWithin(StateSignal(v), 0.6, 1.0)
      && SaysWithin(ConformalSignal(v), 0.6, 1.0)
    ensures Falling(v) ==>
      && SaysWithin(DerivativeSignal(v), -1.0, -0.6) && SaysWithin(StateSignal(v), -1.0, -0.6)
      && SaysWithin(ConformalSignal(v), -1.0, -0.6)
  { }

  lemma FamiliesAgree(root: real -> real, views: seq<Option<Checked>>, lo: real, hi: real)
    requires FourViews(views)
    requires forall i :: 0 <= i < 4 && views[i].Some? ==>
      && SaysWithin(DerivativeSignal(views[i].value), lo, hi) && SaysWithin(StateSignal(views[i].value), lo, hi)
      && SaysWithin(ConformalSignal(views[i].value), lo, hi)
    ensures var p := Snapshot(root, views); p.coverage > 0.0 ==> lo <= p.score <= hi
  {
    FamiliesSound();
    ComponentsValid(root, views);
    ComponentsFive(root, views);
    ComponentAgrees(root, Derivative, DerivativeSignal, views, lo, hi);
    ComponentAgrees(root, State, StateSignal, views, lo, hi);
    ComponentAgrees(root, Conformal, ConformalSignal, views, lo, hi);
    ScoreAgrees(Components(root, views), AnyView(views), Instability(views), lo, hi);
  }

  predicate Covered(p: Core) { p.instability < 0.65 && p.coverage >= 0.35 && p.confidence >= 0.20 }

  /**
   Velocities that agree decide: whatever the accelerations, the regimes and the auxiliary readings say, the
   score has their sign and at least three fifths of the size, and a covered, calm, confident snapshot calls
   exactly their side.
   */
  lemma VelocitiesDecide(root: real -> real, views: seq<Option<Checked>>)
    requires FourViews(views)
    ensures var p := Snapshot(root, views);
      && ((forall i :: 0 <= i < 4 && views[i].Some? ==> Rising(views[i].value)) ==>
            (p.coverage > 0.0 ==> 0.6 <= p.score <= 1.0) && (AnyView(views) ==> (p.status == Long <==> Covered(p))))
      && ((forall i :: 0 <= i < 4 && views[i].Some? ==> Falling(views[i].value)) ==>
            (p.coverage > 0.0 ==> -1.0 <= p.score <= -0.6) && (AnyView(views) ==> (p.status == Short <==> Covered(p))))
  {
    StatusExactly(root, views);
    if forall i :: 0 <= i < 4 && views[i].Some? ==> Rising(views[i].value) {
      forall i | 0 <= i < 4 && views[i].Some? ensures
        && SaysWithin(DerivativeSignal(views[i].value), 0.6, 1.0) && SaysWithin(StateSignal(views[i].value), 0.6, 1.0)
        && SaysWithin(ConformalSignal(views[i].value), 0.6, 1.0)
      {
        RisingSays(views[i].value);
      }
      FamiliesAgree(root, views, 0.6, 1.0);
    }
    if forall i :: 0 <= i < 4 && views[i].Some? ==> Falling(views[i].value) {
      forall i | 0 <= i < 4 && views[i].Some? ensures
        && SaysWithin(DerivativeSignal(views[i].value), -1.0, -0.6)
        && SaysWithin(StateSignal(views[i].value), -1.0, -0.6)
        && SaysWithin(ConformalSignal(views[i].value), -1.0, -0.6)
      {
        RisingSays(views[i].value);
      }
      FamiliesAgree(root, views, -1.0, -0.6);
    }
  }

  // ---------------------------------------------------------------- validated coverage

  /** The score test of a share against its nominal level. */
  predicate ScoreTest(z2: real, size: real, share: real, level: real) {
    size * ((level - share) * (level - share)) <= z2 * (level * (1.0 - level))
  }

  /** `a / d` and `level` differ by at most `h / d`, multiplied out. */
  predicate Near(level: real, d: real, a: real, h: real) { -h <= level * d - a <= h }

  /** The square of the Wilson interval's half-width times its denominator. */
  predicate HalfWidth(h: real, share: real, q: real) {
    h >= 0.0 && h * h == q * (share * (1.0 - share)) + q * q / 4.0
  }

  lemma Outside(x: real, y: real)
    requires 0.0 <= y < x
    ensures x * x > y * y
  {
    StrictProduct(x - y, x + y);
    assert (x - y) * (x + y) == x * x - y * y;
  }

  lemma Inside(x: real, y: real)
    requires -y <= x <= y
    ensures x * x <= y * y
  {
    Product(y - x, y + x);
    assert (y - x) * (y + x) == y * y - x * x;
  }

  lemma SizesCompare(x: real, y: real)
    requires y >= 0.0
    ensures -y <= x <= y <==> x * x <= y * y
  {
    if -y <= x <= y { Inside(x, y); }
    else if x > y { Outside(x, y); }
    else { Outside(-x, y); assert (-x) * (-x) == x * x; }
  }

  /** Completing the square of the Wilson bound; `q` is the squared z over the size. */
  lemma WilsonSquare(p: real, level: real, q: real)
    ensures var x := level * (1.0 + q) - (p + q / 2.0);
      x * x - (q * (p * (1.0 - p)) + q * q / 4.0)
      == (1.0 + q) * ((level - p) * (level - p) - q * (level * (1.0 - level)))
  { }

  lemma DividedBetween(a: real, h: real, d: real, level: real)
    requires d > 0.0
    ensures WithinOver(a, h, d, level) <==> Near(level, d, a, h)
  {
    var x, y := a / d, h / d;
    assert x * d == a && y * d == h;
    BetweenScaledUp(x, y, d, level, a, h);
  }

  lemma BetweenScaledUp(x: real, y: real, d: real, level: real, a: real, h: real)
    requires d > 0.0 && x * d == a && y * d == h
    ensures x - y <= level <= x + y <==> -h <= level * d - a <= h
  {
    if x - y <= level { Scaling(x - y, level, d); } else { StrictScaling(level, x - y, d); }
    if level <= x + y { Scaling(level, x + y, d); } else { StrictScaling(x + y, level, d); }
  }

  lemma VarianceTimes(z2: real, p: real, size: real, q: real, v: real)
    requires size > 0.0 && q * size == z2 && 4.0 * size * size != 0.0
    requires v == p * (1.0 - p) / size + z2 / (4.0 * size * size)
    ensures z2 * v == q * (p * (1.0 - p)) + q * q / 4.0
  {
    var a, b, c := p * (1.0 - p), p * (1.0 - p) / size, z2 / (4.0 * size * size);
    assert b * size == a && c * (4.0 * size * size) == z2;
    assert z2 * b == q * (size * b) == q * a;
    FourthOf(z2, size, q, c);
  }

  lemma FourthOf(z2: real, size: real, q: real, c: real)
    requires size > 0.0 && q * size == z2 && c * (4.0 * size * size) == z2
    ensures z2 * c == q * q / 4.0
  {
    assert size * (4.0 * (c * size) - q) == 0.0;
    assert 4.0 * (c * size) == q;
    assert z2 * c == q * (size * c);
  }

  lemma WilsonTest(z2: real, p: real, level: real, size: real, q: real, h: real)
    requires size > 0.0 && q * size == z2 && 1.0 + q > 0.0 && HalfWidth(h, p, q)
    ensures Near(level, 1.0 + q, p + q / 2.0, h) <==> ScoreTest(z2, size, p, level)
  {
    var e, f := (level - p) * (level - p), level * (1.0 - level);
    SizesCompare(level * (1.0 + q) - (p + q / 2.0), h);
    WilsonSquare(p, level, q);
    SignOfProduct(1.0 + q, e - q * f);
    ScaledTest(size, e, q, f, z2);
  }

  lemma ScaledTest(size: real, e: real, q: real, f: real, z2: real)
    requires size > 0.0 && q * size == z2
    ensures e - q * f <= 0.0 <==> size * e <= z2 * f
  {
    SignOfProduct(size, e - q * f);
    assert size * (e - q * f) == size * e - z2 * f;
  }

  lemma SignOfProduct(d: real, x: real)
    requires d > 0.0
    ensures d * x <= 0.0 <==> x <= 0.0
  {
    if x > 0.0 { StrictProduct(d, x); } else { Product(d, -x); }
  }

  lemma WilsonExactly(root: real -> real, z: real, z2: real, size: real, p: real, level: real)
    requires IsRoot(root) && z > 0.0 && z2 == z * z && z2 > 0.0 && size > 0.0 && Unit(p)
    ensures InWilson(root, z, z2, size, p, level) <==> ScoreTest(z2, size, p, level)
  {
    WilsonDivisors(z2, size);
    var q, v := z2 / size, WilsonVariance(z2, size, p);
    var h := z * root(v);
    HalfQuotient(z2, size, q);
    VarianceIs(z2, size, p, q, v);
    RootScaled(z, root(v), v);
    assert HalfWidth(h, p, q);
    WilsonEnds(z2, size, p, level, q, h);
    InWilsonIs(root, z, z2, size, p, level, h);
  }

  lemma InWilsonIs(root: real -> real, z: real, z2: real, size: real, p: real, level: real, h: real)
    requires z2 > 0.0 && size > 0.0 && h == z * root(WilsonVariance(z2, size, p)) && 1.0 + z2 / size > 0.0
    ensures InWilson(root, z, z2, size, p, level)
       <==> WithinOver(p + z2 / (2.0 * size), h, 1.0 + z2 / size, level)
  { }

  lemma WilsonEnds(z2: real, size: real, p: real, level: real, q: real, h: real)
    requires size > 0.0 && q == z2 / size && q * size == z2 && 1.0 + q > 0.0 && z2 / (2.0 * size) == q / 2.0
    requires HalfWidth(h, p, q)
    ensures WithinOver(p + z2 / (2.0 * size), h, 1.0 + z2 / size, level) <==> ScoreTest(z2, size, p, level)
  {
    DividedBetween(p + q / 2.0, h, 1.0 + q, level);
    WilsonTest(z2, p, level, size, q, h);
  }

  lemma VarianceIs(z2: real, size: real, p: real, q: real, v: real)
    requires z2 > 0.0 && size > 0.0 && Unit(p) && q * size == z2 && v == WilsonVariance(z2, size, p)
    ensures v >= 0.0 && z2 * v == q * (p * (1.0 - p)) + q * q / 4.0
  {
    WilsonDivisors(z2, size);
    VarianceTimes(z2, p, size, q, v);
    VariancePositive(z2, p, size, v);
  }

  /**
   The Wilson interval holds the nominal level exactly when the level passes the score test, with no root
   and no quotient left: the squared distance of share and level against the level's own variance.
   */
  lemma CoverageExactly(root: real -> real, n: Coverage)
    requires IsRoot(root) && Unit(n.share)
    ensures CoverageValid(root, n)
       <==> n.checked >= 30 && ScoreTest(WILSON_Z * WILSON_Z, n.checked as real, n.share, n.level)
  {
    if n.checked >= 30 {
      WilsonExactly(root, WILSON_Z, WILSON_Z * WILSON_Z, n.checked as real, n.share, n.level);
    }
  }

  lemma HalfQuotient(z2: real, size: real, q: real)
    requires size > 0.0 && q == z2 / size
    ensures q * size == z2 && z2 / (2.0 * size) == q / 2.0
  { }

  lemma VariancePositive(z2: real, p: real, size: real, v: real)
    requires z2 > 0.0 && Unit(p) && size > 0.0 && 4.0 * size * size != 0.0
    requires v == p * (1.0 - p) / size + z2 / (4.0 * size * size)
    ensures v >= 0.0
  {
    Product(p, 1.0 - p);
    NonnegativeQuotient(p * (1.0 - p), size);
    ProductIs(4.0 * size, size, 4.0 * size * size);
    NonnegativeQuotient(z2, 4.0 * size * size);
  }

  lemma NonnegativeQuotient(a: real, b: real)
    requires a >= 0.0 && b > 0.0
    ensures a / b >= 0.0
  { }

  lemma RootScaled(z: real, r: real, v: real)
    requires z >= 0.0 && r >= 0.0 && r * r == v
    ensures z * r >= 0.0 && (z * r) * (z * r) == z * z * v
  {
    assert (z * r) * (z * r) == z * z * (r * r);
  }

  /** The record of a timeframe's interval. */
  function RecordOf(v: Option<Checked>): Option<Coverage> {
    if v.Some? && v.value.core.interval.Some? then Some(v.value.core.interval.value.record) else None
  }

  function Counted(v: Option<Checked>): real { if RecordOf(v).Some? then 1.0 else 0.0 }
  function SharedBy(v: Option<Checked>): real { if RecordOf(v).Some? then RecordOf(v).value.share else 0.0 }

  lemma {:induction false} IntervalsAre(root: real -> real, views: seq<Option<Checked>>, n: nat)
    requires FourViews(views) && n <= 4
    ensures var s := Intervals(views, n);
      && (s == [] <==> forall i :: 0 <= i < n ==> RecordOf(views[i]).None?)
      && (forall i :: 0 <= i < n && RecordOf(views[i]).Some? ==> RecordOf(views[i]).value in s)
      && (forall c :: c in s ==> exists i :: 0 <= i < n && RecordOf(views[i]) == Some(c))
  {
    if n > 0 {
      IntervalsAre(root, views, n - 1);
      var front, s := Intervals(views, n - 1), Intervals(views, n);
      if RecordOf(views[n - 1]).Some? {
        assert s == front + [RecordOf(views[n - 1]).value];
      } else {
        assert s == front;
      }
    }
  }

  lemma {:induction false} FewestIs(s: seq<Coverage>)
    requires s != []
    ensures forall c :: c in s ==> Fewest(s) <= c.checked
    ensures exists c :: c in s && c.checked == Fewest(s)
  {
    if |s| > 1 {
      FewestIs(s[1..]);
      assert s == [s[0]] + s[1..];
      var c :| c in s[1..] && c.checked == Fewest(s[1..]);
      assert c in s && s[0] in s;
    } else {
      assert s[0] in s;
    }
  }

  function CountedUpTo(views: seq<Option<Checked>>, n: nat): real
    requires FourViews(views) && n <= 4
  {
    if n == 0 then 0.0 else CountedUpTo(views, n - 1) + Counted(views[n - 1])
  }

  function SharedUpTo(views: seq<Option<Checked>>, n: nat): real
    requires FourViews(views) && n <= 4
  {
    if n == 0 then 0.0 else SharedUpTo(views, n - 1) + SharedBy(views[n - 1])
  }

  lemma {:induction false} SharesSum(views: seq<Option<Checked>>, n: nat)
    requires FourViews(views) && n <= 4
    ensures |Intervals(views, n)| as real == CountedUpTo(views, n)
    ensures CoverageSum(Intervals(views, n)) == SharedUpTo(views, n)
  {
    if n > 0 {
      SharesSum(views, n - 1);
      var front, s := Intervals(views, n - 1), Intervals(views, n);
      if RecordOf(views[n - 1]).Some? { assert s[..|s| - 1] == front; }
    }
  }

  lemma SharesOfFour(views: seq<Option<Checked>>)
    requires FourViews(views)
    ensures CountedUpTo(views, 4) == Counted(views[0]) + Counted(views[1]) + Counted(views[2]) + Counted(views[3])
    ensures SharedUpTo(views, 4) == SharedBy(views[0]) + SharedBy(views[1]) + SharedBy(views[2]) + SharedBy(views[3])
  {
    assert CountedUpTo(views, 1) == Counted(views[0]) && SharedUpTo(views, 1) == SharedBy(views[0]);
    assert CountedUpTo(views, 2) == CountedUpTo(views, 1) + Counted(views[1]);
    assert SharedUpTo(views, 2) == SharedUpTo(views, 1) + SharedBy(views[1]);
    assert CountedUpTo(views, 3) == CountedUpTo(views, 2) + Counted(views[2]);
    assert SharedUpTo(views, 3) == SharedUpTo(views, 2) + SharedBy(views[2]);
  }

  /** A record with at least thirty comparisons whose share passes the score test at its level. */
  predicate Proven(c: Coverage) {
    c.checked >= 30 && ScoreTest(WILSON_Z * WILSON_Z, c.checked as real, c.share, c.level)
  }

  lemma AllProven(root: real -> real, s: seq<Coverage>)
    requires IsRoot(root) && UnitCoverages(s)
    ensures AllValid(root, s) <==> forall k :: 0 <= k < |s| ==> Proven(s[k])
  {
    forall k | 0 <= k < |s| ensures CoverageValid(root, s[k]) <==> Proven(s[k]) {
      CoverageExactly(root, s[k]);
    }
  }

  lemma LevelIs(root: real -> real, views: seq<Option<Checked>>)
    requires FourViews(views)
    ensures var s := Intervals(views, 4);
      Validate(root, Conformal, views).level != Auxiliary <==> s != [] && AllValid(root, s)
  { }

  /** The interval family is validated exactly when there is an interval and every one has a proven record. */
  lemma IntervalsValidated(root: real -> real, views: seq<Option<Checked>>)
    requires IsRoot(root) && FourViews(views)
    ensures Validate(root, Conformal, views).level != Auxiliary <==>
      && (exists i :: 0 <= i < 4 && RecordOf(views[i]).Some?)
      && (forall i :: 0 <= i < 4 && RecordOf(views[i]).Some? ==> Proven(RecordOf(views[i]).value))
  {
    var s := Intervals(views, 4);
    LevelIs(root, views);
    IntervalsAre(root, views, 4);
    AllProven(root, s);
    if forall k :: 0 <= k < |s| ==> Proven(s[k]) {
      forall i | 0 <= i < 4 && RecordOf(views[i]).Some? ensures Proven(RecordOf(views[i]).value) {
        var k :| 0 <= k < |s| && s[k] == RecordOf(views[i]).value;
      }
    }
    if forall i :: 0 <= i < 4 && RecordOf(views[i]).Some? ==> Proven(RecordOf(views[i]).value) {
      forall k | 0 <= k < |s| ensures Proven(s[k]) {
        var i :| 0 <= i < 4 && RecordOf(views[i]) == Some(s[k]);
      }
    }
  }

  lemma MetricIs(root: real -> real, views: seq<Option<Checked>>)
    requires FourViews(views)
    ensures var s := Intervals(views, 4);
      Validate(root, Conformal, views).metric
      == if s == [] then None else Some(CoverageSum(s) / |s| as real)
  { }

  lemma MetricTimes(m: Option<real>, n: nat, sum: real, count: real, shared: real)
    requires n as real == count && sum == shared && m == if n == 0 then None else Some(sum / n as real)
    ensures (m.Some? <==> count > 0.0) && (m.Some? ==> MeanOf(m.value, count, shared))
  {
    if n != 0 { Back(sum, n as real); }
  }

  /** The published metric is the plain mean of the shares ... */
  lemma IntervalsReported(root: real -> real, views: seq<Option<Checked>>)
    requires FourViews(views)
    ensures var m := Validate(root, Conformal, views).metric;
      var count := Counted(views[0]) + Counted(views[1]) + Counted(views[2]) + Counted(views[3]);
      var shared := SharedBy(views[0]) + SharedBy(views[1]) + SharedBy(views[2]) + SharedBy(views[3]);
      (m.Some? <==> count > 0.0) && (m.Some? ==> MeanOf(m.value, count, shared))
  {
    MetricIs(root, views);
    SharesSum(views, 4);
    SharesOfFour(views);
    var s := Intervals(views, 4);
    var metric := Validate(root, Conformal, views).metric;
    MetricTimes(metric, |s|, CoverageSum(s), CountedUpTo(views, 4), SharedUpTo(views, 4));
  }

  /** ... and the published sample size the smallest of them. */
  lemma SmallestReported(root: real -> real, views: seq<Option<Checked>>, c: Coverage)
    requires FourViews(views)
    requires exists i :: 0 <= i < 4 && RecordOf(views[i]) == Some(c)
    ensures var v := Validate(root, Conformal, views);
      && v.samples <= c.checked
      && exists i :: 0 <= i < 4 && RecordOf(views[i]).Some? && v.samples == RecordOf(views[i]).value.checked
  {
    var s := Intervals(views, 4);
    IntervalsAre(root, views, 4);
    assert c in s;
    FewestIs(s);
    var d :| d in s && d.checked == Fewest(s);
    var i :| 0 <= i < 4 && RecordOf(views[i]) == Some(d);
    assert RecordOf(views[i]).Some? && RecordOf(views[i]).value.checked == Fewest(s);
  }
}
