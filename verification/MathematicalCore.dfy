/**
 The evidence core: five causal signal families per timeframe, aggregated over timeframes and fused into
 one snapshot that must pass the strict validators of the domain model.
 */
module MathematicalCore {
  import opened Options
  import opened Reals
  import opened Evidence

  // ---------------------------------------------------------------- what one timeframe offers

  datatype Volatility = LowVol | NormalVol | HighVol | ExtremeVol
  datatype Bias = StrongBullish | Bullish | Neutral | Bearish | StrongBearish
  datatype Break = Up | Down | NoBreak

  datatype TrendView = TrendView(velocityRatio: real, accelerationRatio: real, r2: real, confidence: real)
  datatype StateView = StateView(velocityZ: real, accelerationZ: real, shock: real, confidence: real)

  /** How an interval has fared: nominal level, comparisons made, share covered. */
  datatype Coverage = Coverage(level: real, checked: nat, share: real)
  datatype IntervalView = IntervalView(predicted: real, lower: real, upper: real, half: real, record: Coverage)

  /** The parts of a timeframe analysis that only the auxiliary families read. */
  datatype Texture = Texture(
    bias: Bias, bos: Break, choch: Break, close: real, vwap: Option<real>, adx: Option<real>,
    histogram: Option<real>, rsi: Option<real>, volume: Option<real>)

  /** The parts the executable families read. */
  datatype Readings = Readings(
    dataOk: bool, volatility: Volatility,
    trend: Option<TrendView>, state: Option<StateView>, interval: Option<IntervalView>)

  datatype View = View(core: Readings, texture: Texture)

  predicate Unit(x: real) { 0.0 <= x <= 1.0 }
  predicate Signed(x: real) { -1.0 <= x <= 1.0 }

  /** The field bounds the domain model enforces on a view. */
  predicate ValidView(v: View) { ValidReadings(v.core) }

  predicate ValidReadings(r: Readings) {
    && (r.trend.Some? ==> Unit(r.trend.value.r2) && Unit(r.trend.value.confidence))
    && (r.state.Some? ==> Unit(r.state.value.shock) && Unit(r.state.value.confidence))
    && (r.interval.Some? ==>
          && r.interval.value.lower <= r.interval.value.predicted <= r.interval.value.upper
          && r.interval.value.half >= 0.0
          && Unit(r.interval.value.record.share) && r.interval.value.record.checked >= 1)
  }

  const PLAIN: Texture := Texture(Neutral, NoBreak, NoBreak, 1.0, None, None, None, None, None)

  type Checked = v: View | ValidView(v) witness View(Readings(true, NormalVol, None, None, None), PLAIN)

  /** The views of 4H, 1H, 15m and 5m, in that order. */
  predicate FourViews(views: seq<Option<Checked>>) { |views| == 4 }

  function TimeframeWeight(i: nat): real {
    if i == 0 then 0.35 else if i == 1 then 0.30 else if i == 2 then 0.25 else 0.10
  }

  // ---------------------------------------------------------------- local signals

  datatype Code = Structure | Momentum | Derivative | State | Conformal | Other(name: string)

  datatype Signal = Signal(value: real, reliability: real)

  function Calm(v: Volatility): real {
    match v case LowVol => 0.85 case NormalVol => 1.0 case HighVol => 0.70 case ExtremeVol => 0.20
  }

  function Quality(r: Readings): real { if r.dataOk then 1.0 else 0.0 }

  function Lean(b: Break, size: real): real { match b case Up => size case Down => -size case NoBreak => 0.0 }

  function BiasValue(b: Bias): real {
    match b
    case StrongBullish => 1.0
    case Bullish => 0.70
    case Neutral => 0.0
    case Bearish => -0.70
    case StrongBearish => -1.0
  }

  /** A local signal in range, or none. */
  predicate Sound(g: Option<Signal>) { g.Some? ==> Signed(g.value.value) && Unit(g.value.reliability) }

  lemma TripleProduct(a: real, b: real, c: real)
    requires Unit(a) && Unit(b) && Unit(c)
    ensures Unit(a * b * c)
  {
    UnitProduct(a, b);
    UnitProduct(a * b, c);
  }

  function Trust(a: real, b: real, c: real): real { a * b * c }

  function StructureSignal(v: Checked): (g: Option<Signal>)
    ensures Sound(g)
  {
    var t := v.texture;
    var vwap := if t.vwap.None? || t.close == t.vwap.value then 0.0 else if t.close > t.vwap.value then 0.10 else -0.10;
    var strength := if t.adx.None? then 0.50 else 0.50 + 0.50 * Clamp((t.adx.value - 15.0) / 20.0, 0.0, 1.0);
    TripleProduct(Quality(v.core), strength, Calm(v.core.volatility));
    Some(Signal(Clamp(BiasValue(t.bias) + Lean(t.bos, 0.15) + Lean(t.choch, 0.25) + vwap, -1.0, 1.0),
                Trust(Quality(v.core), strength, Calm(v.core.volatility))))
  }

  function MomentumSignal(v: Checked): (g: Option<Signal>)
    ensures Sound(g)
  {
    var t := v.texture;
    if t.histogram.None? || t.rsi.None? then None
    else
      var sign := if t.histogram.value > 0.0 then 1.0 else if t.histogram.value < 0.0 then -1.0 else 0.0;
      var value := 0.65 * sign + 0.35 * Clamp((t.rsi.value - 50.0) / 22.0, -1.0, 1.0);
      var volume := if t.volume.None? then 0.50 else Clamp(t.volume.value, 0.25, 1.0);
      TripleProduct(Quality(v.core), Calm(v.core.volatility), volume);
      Some(Signal(Clamp(value, -1.0, 1.0), Trust(Quality(v.core), Calm(v.core.volatility), volume)))
  }

  function Blend(velocity: real, acceleration: real): (b: real)
    ensures Signed(b)
  {
    Clamp(0.80 * Clamp(velocity, -1.0, 1.0) + 0.20 * Clamp(acceleration, -1.0, 1.0), -1.0, 1.0)
  }

  function DerivativeSignal(v: Checked): (g: Option<Signal>)
    ensures Sound(g)
  {
    DerivativeOf(v.core)
  }

  function DerivativeOf(r: Readings): (g: Option<Signal>)
    requires ValidReadings(r)
    ensures Sound(g)
  {
    if r.trend.None? then None
    else
      var t := r.trend.value;
      var stability := if r.state.None? then 1.0 else 1.0 - r.state.value.shock;
      Some(Signal(Blend(t.velocityRatio, t.accelerationRatio),
                  Clamp(TrendTrust(Quality(r), t.confidence, t.r2, stability), 0.0, 1.0)))
  }

  function StateSignal(v: Checked): (g: Option<Signal>)
    ensures Sound(g)
  {
    StateOf(v.core)
  }

  function StateOf(r: Readings): (g: Option<Signal>)
    requires ValidReadings(r)
    ensures Sound(g)
  {
    if r.state.None? then None
    else
      var s := r.state.value;
      Some(Signal(Blend(s.velocityZ / 3.0, s.accelerationZ / 3.0),
                  Clamp(StateTrust(Quality(r), s.confidence, s.shock, Calm(r.volatility)), 0.0, 1.0)))
  }

  function ConformalSignal(v: Checked): (g: Option<Signal>)
    ensures Sound(g)
  {
    ConformalOf(v.core)
  }

  function ConformalOf(r: Readings): (g: Option<Signal>)
    requires ValidReadings(r)
    ensures Sound(g)
  {
    if r.interval.None? then None
    else
      var n := r.interval.value;
      var value := if n.lower > 0.0 then 1.0
                   else if n.upper < 0.0 then -1.0
                   else Strength(n.predicted, Abs(n.predicted), n.half);
      Some(Signal(Clamp(value, -1.0, 1.0),
                  Clamp(IntervalTrust(Quality(r), n.record.share, Strength(Abs(n.predicted), Abs(n.predicted), n.half),
                                      Calm(r.volatility)), 0.0, 1.0)))
  }

  function TrendTrust(quality: real, confidence: real, r2: real, stability: real): real {
    quality * confidence * (0.50 + 0.50 * r2) * stability
  }

  function StateTrust(quality: real, confidence: real, shock: real, calm: real): real {
    quality * confidence * (1.0 - shock) * calm
  }

  function IntervalTrust(quality: real, share: real, strength: real, calm: real): real {
    quality * share * strength * calm
  }

  /** `x` relative to the size of a prediction plus its half-width. */
  function Strength(x: real, size: real, half: real): real
    requires size >= 0.0 && half >= 0.0
  {
    x / (size + half + EPSILON)
  }

  /** A signal family, as a function of one timeframe's view. */
  type Family = Checked -> Option<Signal>

  ghost predicate SoundFamily(family: Family) { forall v: Checked :: Sound(family(v)) }

  // ---------------------------------------------------------------- one family over all timeframes

  /** A local signal, weighted by its timeframe and its reliability. */
  function VoteOf(i: nat, g: Signal): Vote { Vote(TimeframeWeight(i) * g.reliability, g.value) }

  function Local(family: Family, v: Option<Checked>): Option<Signal> { if v.None? then None else family(v.value) }

  /** The votes after one more timeframe, from its local signal. */
  function Joined(front: seq<Vote>, i: nat, g: Option<Signal>): seq<Vote> {
    if g.None? then front else front + [VoteOf(i, g.value)]
  }

  /** The votes of one family among the first `n` timeframes. */
  function Votes(family: Family, views: seq<Option<Checked>>, n: nat): seq<Vote>
    requires FourViews(views) && n <= 4
  {
    if n == 0 then [] else Joined(Votes(family, views, n - 1), n - 1, Local(family, views[n - 1]))
  }

  function Prior(n: nat): real { if n == 0 then 0.0 else Prior(n - 1) + TimeframeWeight(n - 1) }

  lemma TotalAppend(es: seq<Vote>, e: Vote)
    ensures Total(es + [e]) == Total(es) + WeightOf(e)
    ensures WeightedSum(es + [e]) == WeightedSum(es) + Weighted(e)
  {
    SumAppend(WeightOf, es, e);
    SumAppend(Weighted, es, e);
  }

  lemma JoinedSane(front: seq<Vote>, i: nat, g: Option<Signal>)
    requires Sane(front) && Sound(g)
    ensures Sane(Joined(front, i, g)) && Total(Joined(front, i, g)) <= Total(front) + TimeframeWeight(i)
  {
    if g.Some? {
      VoteBounded(i, g.value);
      TotalAppend(front, VoteOf(i, g.value));
    }
  }

  lemma {:induction false} VotesSane(family: Family, views: seq<Option<Checked>>, n: nat)
    requires FourViews(views) && SoundFamily(family) && n <= 4
    ensures Sane(Votes(family, views, n)) && Total(Votes(family, views, n)) <= Prior(n)
  {
    if n > 0 {
      VotesSane(family, views, n - 1);
      if views[n - 1].Some? { assert Sound(family(views[n - 1].value)); }
      JoinedSane(Votes(family, views, n - 1), n - 1, Local(family, views[n - 1]));
    }
  }

  lemma VoteBounded(i: nat, g: Signal)
    requires Signed(g.value) && Unit(g.reliability)
    ensures 0.0 <= VoteOf(i, g).weight <= TimeframeWeight(i) && VoteOf(i, g).signal == g.value
  {
    WeightShare(TimeframeWeight(i), g.reliability);
  }

  lemma WeightShare(w: real, r: real)
    requires w >= 0.0 && Unit(r)
    ensures 0.0 <= w * r <= w
  {
    Product(w, r);
    Product(w, 1.0 - r);
  }

  lemma PriorSums()
    ensures Prior(4) == 1.0
  {
    assert Prior(0) == 0.0 && Prior(1) == 0.35 && Prior(2) == 0.65 && Prior(3) == 0.90;
  }

  // ---------------------------------------------------------------- how a family is validated

  datatype Level = Analytical | Prequential | Auxiliary

  datatype Validation = Validation(level: Level, samples: nat, metric: Option<real>)

  const WILSON_Z: real := 1.959963984540054

  /** Is the nominal level inside the Wilson interval of the observed coverage? */
  function CoverageValid(root: real -> real, n: Coverage): bool {
    n.checked >= 30 && InWilson(root, WILSON_Z, WILSON_Z * WILSON_Z, n.checked as real, n.share, n.level)
  }

  function InWilson(root: real -> real, z: real, z2: real, size: real, share: real, level: real): bool
    requires z2 > 0.0 && size > 0.0
  {
    WilsonDivisors(z2, size);
    WithinOver(share + z2 / (2.0 * size), z * root(WilsonVariance(z2, size, share)), 1.0 + z2 / size, level)
  }

  function WilsonVariance(z2: real, size: real, share: real): real
    requires size > 0.0
  {
    WilsonDivisors(1.0, size);
    share * (1.0 - share) / size + z2 / (4.0 * size * size)
  }

  /** Is the level at most `half / denominator` from `center / denominator`? */
  predicate WithinOver(center: real, half: real, denominator: real, level: real)
    requires denominator > 0.0
  {
    center / denominator - half / denominator <= level <= center / denominator + half / denominator
  }

  lemma WilsonDivisors(z2: real, size: real)
    requires z2 > 0.0 && size > 0.0
    ensures 1.0 + z2 / size > 0.0 && 4.0 * size * size != 0.0
  {
    var q := z2 / size;
    assert q * size == z2;
    if q <= 0.0 { Product(-q, size); }
    ProductIs(4.0 * size, size, 4.0 * size * size);
  }

  predicate UnitCoverages(s: seq<Coverage>) { forall i :: 0 <= i < |s| ==> Unit(s[i].share) }

  function Intervals(views: seq<Option<Checked>>, n: nat): (s: seq<Coverage>)
    requires FourViews(views) && n <= 4
    ensures UnitCoverages(s)
  {
    if n == 0 then []
    else
      var front := Intervals(views, n - 1);
      if views[n - 1].None? || views[n - 1].value.core.interval.None? then front
      else front + [views[n - 1].value.core.interval.value.record]
  }

  function Fewest(s: seq<Coverage>): nat
    requires s != []
  {
    if |s| == 1 || s[0].checked <= Fewest(s[1..]) then s[0].checked else Fewest(s[1..])
  }

  function CoverageSum(s: seq<Coverage>): (c: real)
    requires UnitCoverages(s)
    ensures 0.0 <= c <= |s| as real
  {
    if s == [] then 0.0
    else
      assert Unit(s[|s| - 1].share);
      CoverageSum(s[..|s| - 1]) + s[|s| - 1].share
  }

  predicate AllValid(root: real -> real, s: seq<Coverage>) { forall i :: 0 <= i < |s| ==> CoverageValid(root, s[i]) }

  function Validate(root: real -> real, code: Code, views: seq<Option<Checked>>): Validation
    requires FourViews(views)
  {
    if code == Derivative || code == State then Validation(Analytical, 0, None)
    else if code != Conformal then Validation(Auxiliary, 0, None)
    else
      var s := Intervals(views, 4);
      if s == [] then Validation(Auxiliary, 0, None)
      else Validation(if AllValid(root, s) then Prequential else Auxiliary, Fewest(s),
                      Some(CoverageSum(s) / |s| as real))
  }

  // ---------------------------------------------------------------- components

  datatype Component = Component(code: Code, signal: real, reliability: real, validation: Validation)

  function ComponentOf(root: real -> real, code: Code, family: Family, views: seq<Option<Checked>>): Component
    requires FourViews(views)
  {
    var votes := Votes(family, views, 4);
    Component(code, Clamp(Mean(votes), -1.0, 1.0), Clamp(Total(votes), 0.0, 1.0), Validate(root, code, views))
  }

  /** The field bounds of a component record. */
  predicate ValidComponent(c: Component) {
    && Signed(c.signal) && Unit(c.reliability)
    && (c.validation.metric.Some? ==> Unit(c.validation.metric.value))
  }

  /** Aggregation needs neither clamp: signal and reliability are the weighted mean and the total weight. */
  lemma ComponentExact(root: real -> real, code: Code, family: Family, views: seq<Option<Checked>>)
    requires FourViews(views) && SoundFamily(family)
    ensures var c := ComponentOf(root, code, family, views);
      c.signal == Mean(Votes(family, views, 4)) && c.reliability == Total(Votes(family, views, 4)) && ValidComponent(c)
  {
    var votes := Votes(family, views, 4);
    VotesSane(family, views, 4);
    PriorSums();
    TotalNonnegative(votes);
    MeanBounded(votes);
    MetricBounded(root, code, views);
  }

  lemma MetricBounded(root: real -> real, code: Code, views: seq<Option<Checked>>)
    requires FourViews(views)
    ensures var m := Validate(root, code, views).metric; m.Some? ==> Unit(m.value)
  {
    var s := Intervals(views, 4);
    if s != [] { Fraction(CoverageSum(s), |s| as real); }
  }

  // ---------------------------------------------------------------- fusion

  predicate Executable(c: Component) { c.validation.level != Auxiliary && c.reliability > 0.0 }

  function MethodWeight(code: Code, auxiliary: bool): Option<real> {
    if auxiliary then (if code == Structure || code == Momentum then Some(1.0 / 2.0) else None)
    else (if code == Derivative || code == State || code == Conformal then Some(1.0 / 3.0) else None)
  }

  predicate Selected(c: Component, auxiliary: bool) {
    MethodWeight(c.code, auxiliary).Some? && ((c.validation.level == Auxiliary) <==> auxiliary)
  }

  function Ballot(c: Component, auxiliary: bool): Vote
    requires Selected(c, auxiliary)
  {
    Vote(MethodWeight(c.code, auxiliary).value * c.reliability, c.signal)
  }

  lemma BallotBounded(c: Component, auxiliary: bool)
    requires Selected(c, auxiliary) && ValidComponent(c)
    ensures 0.0 <= Ballot(c, auxiliary).weight <= MethodWeight(c.code, auxiliary).value
  {
    WeightShare(MethodWeight(c.code, auxiliary).value, c.reliability);
  }

  lemma WeightlessBallot(c: Component, auxiliary: bool)
    requires Selected(c, auxiliary) && c.reliability == 0.0
    ensures Ballot(c, auxiliary).weight == 0.0
  { }

  function Ballots(cs: seq<Component>, auxiliary: bool): seq<Vote> {
    if cs == [] then []
    else
      var front, c := Ballots(cs[..|cs| - 1], auxiliary), cs[|cs| - 1];
      if Selected(c, auxiliary) then front + [Ballot(c, auxiliary)] else front
  }

  datatype Fused = Fused(score: real, coverage: real, consensus: real)

  function Clamped(mean: real, total: real, disagreement: real): Fused {
    Fused(Clamp(mean, -1.0, 1.0), Clamp(total, 0.0, 1.0), Clamp(1.0 - disagreement, 0.0, 1.0))
  }

  function Fuse(es: seq<Vote>): Fused
    requires Sane(es)
  {
    TotalNonnegative(es);
    if Total(es) == 0.0 then Fused(0.0, 0.0, 0.0)
    else Clamped(Mean(es), Total(es), Disagreement(es))
  }

  /**
   No clamp of the fusion ever bites: the score is the convex combination itself, and consensus is at least
   (1 + score^2) / 2 whenever any weight counts.
   */
  lemma FuseExact(es: seq<Vote>)
    requires Sane(es) && Total(es) <= 1.0
    ensures Fuse(es).score == Mean(es) && Fuse(es).coverage == Total(es)
    ensures Signed(Fuse(es).score) && Unit(Fuse(es).coverage) && Unit(Fuse(es).consensus)
    ensures Total(es) > 0.0 ==> Fuse(es).consensus == 1.0 - Disagreement(es)
    ensures Total(es) > 0.0 ==> Fuse(es).consensus >= (1.0 + Mean(es) * Mean(es)) / 2.0
  {
    TotalNonnegative(es);
    MeanBounded(es);
    if Total(es) > 0.0 {
      DisagreementBound(es);
      Square(Mean(es));
    }
  }

  function MethodSum(cs: seq<Component>, auxiliary: bool): real {
    if cs == [] then 0.0
    else
      MethodSum(cs[..|cs| - 1], auxiliary)
      + (if MethodWeight(cs[|cs| - 1].code, auxiliary).Some?
         then MethodWeight(cs[|cs| - 1].code, auxiliary).value else 0.0)
  }

  predicate ValidComponents(cs: seq<Component>) { forall i :: 0 <= i < |cs| ==> ValidComponent(cs[i]) }

  lemma SaneAppend(es: seq<Vote>, e: Vote, bound: real, extra: real)
    requires Sane(es) && Total(es) <= bound && 0.0 <= e.weight <= extra && Signed(e.signal)
    ensures Sane(es + [e]) && Total(es + [e]) <= bound + extra
  {
    SumAppend(WeightOf, es, e);
  }

  lemma {:induction false} BallotsSane(cs: seq<Component>, auxiliary: bool)
    requires ValidComponents(cs)
    ensures Sane(Ballots(cs, auxiliary)) && Total(Ballots(cs, auxiliary)) <= MethodSum(cs, auxiliary)
  {
    if cs != [] {
      var front, c := cs[..|cs| - 1], cs[|cs| - 1];
      BallotsSane(front, auxiliary);
      if Selected(c, auxiliary) {
        BallotBounded(c, auxiliary);
        SaneAppend(Ballots(front, auxiliary), Ballot(c, auxiliary), MethodSum(front, auxiliary),
                   MethodWeight(c.code, auxiliary).value);
      }
    }
  }

  /** Whatever carries weight in the executable vote is a validated component with positive reliability. */
  lemma {:induction false} BallotIsExecutable(cs: seq<Component>)
    requires ValidComponents(cs) && Total(Ballots(cs, false)) > 0.0
    ensures exists i :: 0 <= i < |cs| && Executable(cs[i])
  {
    var front, c := cs[..|cs| - 1], cs[|cs| - 1];
    if Executable(c) {
      assert Executable(cs[|cs| - 1]);
    } else {
      if Selected(c, false) {
        WeightlessBallot(c, false);
        TotalAppend(Ballots(front, false), Ballot(c, false));
      }
      BallotIsExecutable(front);
      var i :| 0 <= i < |front| && Executable(front[i]);
      assert Executable(cs[i]);
    }
  }

  // ---------------------------------------------------------------- instability

  function Risk(v: Checked): (r: real)
    ensures Unit(r)
  {
    var shock := if v.core.state.Some? then v.core.state.value.shock else 0.0;
    var volatility :=
      match v.core.volatility case LowVol => 0.0 case NormalVol => 0.0 case HighVol => 0.25 case ExtremeVol => 0.80;
    var data := if v.core.dataOk then 0.0 else 1.0;
    Max(Max(shock, volatility), data)
  }

  function Risks(risk: Checked -> real, views: seq<Option<Checked>>, n: nat): seq<Vote>
    requires FourViews(views) && n <= 4
  {
    if n == 0 then []
    else
      var front := Risks(risk, views, n - 1);
      if views[n - 1].None? then front else front + [Vote(TimeframeWeight(n - 1), risk(views[n - 1].value))]
  }

  function Instability(views: seq<Option<Checked>>): real
    requires FourViews(views)
  {
    if Total(Risks(Risk, views, 4)) == 0.0 then 1.0 else Clamp(Mean(Risks(Risk, views, 4)), 0.0, 1.0)
  }

  lemma {:induction false} RisksWithin(views: seq<Option<Checked>>, n: nat)
    requires FourViews(views) && n <= 4
    ensures Within(Risks(Risk, views, n), 0.0, 1.0)
  {
    if n > 0 { RisksWithin(views, n - 1); }
  }

  lemma InstabilityUnit(views: seq<Option<Checked>>)
    requires FourViews(views)
    ensures Unit(Instability(views))
    ensures Total(Risks(Risk, views, 4)) != 0.0 ==> Instability(views) == Mean(Risks(Risk, views, 4))
  {
    RisksWithin(views, 4);
    TotalNonnegative(Risks(Risk, views, 4));
    if Total(Risks(Risk, views, 4)) > 0.0 { MeanWithin(Risks(Risk, views, 4), 0.0, 1.0); }
  }

  // ---------------------------------------------------------------- the snapshot

  datatype Status = Long | Short | Even | Unstable | Insufficient

  datatype Core = Core(
    status: Status, score: real, confidence: real, coverage: real, consensus: real, instability: real,
    auxiliaryScore: real, auxiliaryConfidence: real, components: seq<Component>)

  predicate UniqueCodes(cs: seq<Component>) { forall i, j :: 0 <= i < j < |cs| ==> cs[i].code != cs[j].code }

  predicate HasExecutable(cs: seq<Component>) { exists i :: 0 <= i < |cs| && Executable(cs[i]) }

  /** The field bounds and the status geometry that the snapshot's validators demand. */
  predicate ValidCore(c: Core) {
    && Signed(c.score) && Unit(c.confidence) && Unit(c.coverage) && Unit(c.consensus) && Unit(c.instability)
    && Signed(c.auxiliaryScore) && Unit(c.auxiliaryConfidence) && ValidComponents(c.components)
    && UniqueCodes(c.components)
    && (c.status == Long ==> c.score >= 0.25 && c.confidence >= 0.20 && HasExecutable(c.components))
    && (c.status == Short ==> c.score <= -0.25 && c.confidence >= 0.20 && HasExecutable(c.components))
    && (c.status == Unstable ==> c.instability >= 0.65)
    && (c.status == Insufficient ==> c.coverage < 0.35)
  }

  function Components(root: real -> real, views: seq<Option<Checked>>): seq<Component>
    requires FourViews(views)
  {
    [ComponentOf(root, Structure, StructureSignal, views), ComponentOf(root, Momentum, MomentumSignal, views),
     ComponentOf(root, Derivative, DerivativeSignal, views),
     ComponentOf(root, State, StateSignal, views), ComponentOf(root, Conformal, ConformalSignal, views)]
  }

  function Confidence(f: Fused, instability: real): real {
    Clamp(f.coverage * f.consensus * Abs(f.score) * (1.0 - instability), 0.0, 1.0)
  }

  function StatusOf(seen: bool, f: Fused, instability: real, confidence: real): Status {
    if !seen then Insufficient
    else if instability >= 0.65 then Unstable
    else if f.coverage < 0.35 then Insufficient
    else if f.score >= 0.25 && confidence >= 0.20 then Long
    else if f.score <= -0.25 && confidence >= 0.20 then Short
    else Even
  }

  predicate AnyView(views: seq<Option<Checked>>) { exists i :: 0 <= i < |views| && views[i].Some? }

  function Published(f: Fused, aux: Fused, cs: seq<Component>, seen: bool, instability: real): Core {
    var confidence := Confidence(f, instability);
    Core(StatusOf(seen, f, instability, confidence), Clamp(f.score, -1.0, 1.0), confidence, f.coverage, f.consensus,
         instability, aux.score, Confidence(aux, instability), cs)
  }

  function Assemble(cs: seq<Component>, seen: bool, instability: real): Core
    requires ValidComponents(cs)
  {
    BallotsSane(cs, false);
    BallotsSane(cs, true);
    Published(Fuse(Ballots(cs, false)), Fuse(Ballots(cs, true)), cs, seen, instability)
  }

  lemma FamiliesSound()
    ensures SoundFamily(StructureSignal) && SoundFamily(MomentumSignal) && SoundFamily(DerivativeSignal)
    ensures SoundFamily(StateSignal) && SoundFamily(ConformalSignal)
  { }

  lemma ComponentValid(root: real -> real, code: Code, family: Family, views: seq<Option<Checked>>)
    requires FourViews(views) && SoundFamily(family)
    ensures ValidComponent(ComponentOf(root, code, family, views))
    ensures ComponentOf(root, code, family, views).code == code
  {
    ComponentExact(root, code, family, views);
  }

  lemma FiveValid(a: Component, b: Component, c: Component, d: Component, e: Component)
    requires ValidComponent(a) && ValidComponent(b) && ValidComponent(c) && ValidComponent(d) && ValidComponent(e)
    requires a.code == Structure && b.code == Momentum && c.code == Derivative && d.code == State && e.code == Conformal
    ensures ValidComponents([a, b, c, d, e]) && UniqueCodes([a, b, c, d, e])
  { }

  lemma ComponentsValid(root: real -> real, views: seq<Option<Checked>>)
    requires FourViews(views)
    ensures ValidComponents(Components(root, views)) && UniqueCodes(Components(root, views))
  {
    FamiliesSound();
    var cs := Components(root, views);
    assert ValidComponent(cs[0]) by { ComponentValid(root, Structure, StructureSignal, views); }
    assert ValidComponent(cs[1]) by { ComponentValid(root, Momentum, MomentumSignal, views); }
    assert ValidComponent(cs[2]) by { ComponentValid(root, Derivative, DerivativeSignal, views); }
    assert ValidComponent(cs[3]) by { ComponentValid(root, State, StateSignal, views); }
    assert ValidComponent(cs[4]) by { ComponentValid(root, Conformal, ConformalSignal, views); }
    FiveValid(cs[0], cs[1], cs[2], cs[3], cs[4]);
  }

  function Snapshot(root: real -> real, views: seq<Option<Checked>>): Core
    requires FourViews(views)
  {
    ComponentsValid(root, views);
    Assemble(Components(root, views), AnyView(views), Instability(views))
  }

  lemma ConfidenceExact(f: Fused, instability: real)
    requires Signed(f.score) && Unit(f.coverage) && Unit(f.consensus) && Unit(instability)
    ensures Confidence(f, instability) == f.coverage * f.consensus * Abs(f.score) * (1.0 - instability)
    ensures Unit(Confidence(f, instability))
  {
    TripleProduct(f.coverage, f.consensus, Abs(f.score));
    UnitProduct(f.coverage * f.consensus * Abs(f.score), 1.0 - instability);
  }

  lemma {:induction false} NoViewsNoVotes(family: Family, views: seq<Option<Checked>>, n: nat)
    requires FourViews(views) && !AnyView(views) && n <= 4
    ensures Votes(family, views, n) == []
  {
    if n > 0 {
      NoViewsNoVotes(family, views, n - 1);
      assert views[n - 1].None?;
    }
  }

  lemma {:induction false} MethodSumFront(cs: seq<Component>, c: Component, auxiliary: bool)
    ensures MethodSum(cs + [c], auxiliary) == MethodSum(cs, auxiliary)
      + (if MethodWeight(c.code, auxiliary).Some? then MethodWeight(c.code, auxiliary).value else 0.0)
  {
    assert (cs + [c])[..|cs|] == cs;
  }

  /** The method weights of either family group add up to one. */
  lemma MethodSums(a: Component, b: Component, c: Component, d: Component, e: Component, auxiliary: bool)
    requires a.code == Structure && b.code == Momentum && c.code == Derivative && d.code == State && e.code == Conformal
    ensures MethodSum([a, b, c, d, e], auxiliary) == 1.0
  {
    MethodSumFront([], a, auxiliary);
    MethodSumFront([a], b, auxiliary);
    MethodSumFront([a, b], c, auxiliary);
    MethodSumFront([a, b, c], d, auxiliary);
    MethodSumFront([a, b, c, d], e, auxiliary);
    assert [] + [a] == [a] && [a] + [b] == [a, b] && [a, b] + [c] == [a, b, c];
    assert [a, b, c] + [d] == [a, b, c, d] && [a, b, c, d] + [e] == [a, b, c, d, e];
  }

  /** A family list whose weights total at most one assembles into a valid snapshot. */
  lemma AssembleValid(cs: seq<Component>, seen: bool, instability: real)
    requires ValidComponents(cs) && UniqueCodes(cs) && Unit(instability)
    requires MethodSum(cs, false) <= 1.0 && MethodSum(cs, true) <= 1.0
    requires !seen ==> Total(Ballots(cs, false)) < 0.35
    ensures ValidCore(Assemble(cs, seen, instability))
  {
    BallotsSane(cs, false);
    BallotsSane(cs, true);
    var es, aux := Ballots(cs, false), Ballots(cs, true);
    FuseExact(es);
    FuseExact(aux);
    ConfidenceExact(Fuse(es), instability);
    ConfidenceExact(Fuse(aux), instability);
    if Total(es) > 0.0 { BallotIsExecutable(cs); }
  }

  /** Without any configured view no component carries weight. */
  lemma {:induction false} WeightlessBallots(cs: seq<Component>, auxiliary: bool)
    requires forall i :: 0 <= i < |cs| ==> cs[i].reliability == 0.0
    ensures Total(Ballots(cs, auxiliary)) == 0.0
  {
    if cs != [] {
      var front, c := cs[..|cs| - 1], cs[|cs| - 1];
      WeightlessBallots(front, auxiliary);
      if Selected(c, auxiliary) {
        WeightlessBallot(c, auxiliary);
        TotalAppend(Ballots(front, auxiliary), Ballot(c, auxiliary));
      }
    }
  }

  lemma UnseenIsWeightless(root: real -> real, code: Code, family: Family, views: seq<Option<Checked>>)
    requires FourViews(views) && !AnyView(views)
    ensures ComponentOf(root, code, family, views).reliability == 0.0
  {
    NoViewsNoVotes(family, views, 4);
  }

  /** For every set of views within field bounds the snapshot passes all its validators. */
  lemma SnapshotValid(root: real -> real, views: seq<Option<Checked>>)
    requires FourViews(views)
    ensures ValidCore(Snapshot(root, views))
  {
    ComponentsValid(root, views);
    InstabilityUnit(views);
    var cs := Components(root, views);
    MethodSums(cs[0], cs[1], cs[2], cs[3], cs[4], false);
    MethodSums(cs[0], cs[1], cs[2], cs[3], cs[4], true);
    if !AnyView(views) {
      UnseenIsWeightless(root, Structure, StructureSignal, views);
      UnseenIsWeightless(root, Momentum, MomentumSignal, views);
      UnseenIsWeightless(root, Derivative, DerivativeSignal, views);
      UnseenIsWeightless(root, State, StateSignal, views);
      UnseenIsWeightless(root, Conformal, ConformalSignal, views);
      WeightlessBallots(cs, false);
    }
    AssembleValid(cs, AnyView(views), Instability(views));
  }

  /** The status, read off the published fields: each side exactly, and nothing between is directional. */
  lemma StatusExactly(root: real -> real, views: seq<Option<Checked>>)
    requires FourViews(views)
    ensures var c, seen := Snapshot(root, views), AnyView(views);
      var calm := seen && c.instability < 0.65 && c.coverage >= 0.35;
      && (c.status == Long <==> calm && c.score >= 0.25 && c.confidence >= 0.20)
      && (c.status == Short <==> calm && c.score <= -0.25 && c.confidence >= 0.20)
      && (c.status == Unstable <==> seen && c.instability >= 0.65)
      && (c.status == Insufficient <==> !seen || (c.instability < 0.65 && c.coverage < 0.35))
  {
    ComponentsValid(root, views);
    var cs := Components(root, views);
    BallotsSane(cs, false);
    TotalNonnegative(Ballots(cs, false));
    MeanBounded(Ballots(cs, false));
  }

  /** A nonzero score comes from some validated component with positive reliability. */
  lemma ScoredMeansExecutable(root: real -> real, views: seq<Option<Checked>>)
    requires FourViews(views) && Snapshot(root, views).score != 0.0
    ensures HasExecutable(Snapshot(root, views).components)
  {
    ComponentsValid(root, views);
    AssembleScored(Components(root, views), AnyView(views), Instability(views));
  }

  lemma AssembleScored(cs: seq<Component>, seen: bool, instability: real)
    requires ValidComponents(cs) && Assemble(cs, seen, instability).score != 0.0
    ensures HasExecutable(cs)
  {
    BallotsSane(cs, false);
    TotalNonnegative(Ballots(cs, false));
    BallotIsExecutable(cs);
  }

  // ---------------------------------------------------------------- the loops

  /** The accumulation loop over timeframes. */
  method Tally(family: Family, views: seq<Option<Checked>>) returns (numerator: real, effective: real)
    requires FourViews(views)
    ensures numerator == WeightedSum(Votes(family, views, 4)) && effective == Total(Votes(family, views, 4))
  {
    numerator, effective := 0.0, 0.0;
    ghost var votes := [];
    for i := 0 to 4
      invariant votes == Votes(family, views, i) && numerator == WeightedSum(votes) && effective == Total(votes)
    {
      if views[i].Some? {
        var extracted := family(views[i].value);
        if extracted.Some? {
          var vote := VoteOf(i, extracted.value);
          TotalAppend(votes, vote);
          votes := votes + [vote];
          numerator := numerator + vote.weight * vote.signal;
          effective := effective + vote.weight;
        }
      }
    }
  }

  method AggregateComponent(root: real -> real, code: Code, family: Family,
                            views: seq<Option<Checked>>)
    returns (c: Component)
    requires FourViews(views)
    ensures c == ComponentOf(root, code, family, views)
  {
    var numerator, effective := Tally(family, views);
    var signal := if effective == 0.0 then 0.0 else numerator / effective;
    c := Component(code, Clamp(signal, -1.0, 1.0), Clamp(effective, 0.0, 1.0), Validate(root, code, views));
  }

  method TallyRisks(risk: Checked -> real, views: seq<Option<Checked>>) returns (numerator: real, denominator: real)
    requires FourViews(views)
    ensures numerator == WeightedSum(Risks(risk, views, 4)) && denominator == Total(Risks(risk, views, 4))
  {
    numerator, denominator := 0.0, 0.0;
    ghost var votes := [];
    for i := 0 to 4
      invariant votes == Risks(risk, views, i) && numerator == WeightedSum(votes) && denominator == Total(votes)
    {
      if views[i].Some? {
        var vote := Vote(TimeframeWeight(i), risk(views[i].value));
        TotalAppend(votes, vote);
        votes := votes + [vote];
        numerator := numerator + vote.weight * vote.signal;
        denominator := denominator + vote.weight;
      }
    }
  }

  method MeasureInstability(views: seq<Option<Checked>>) returns (r: real)
    requires FourViews(views)
    ensures r == Instability(views)
  {
    var numerator, denominator := TallyRisks(Risk, views);
    r := if denominator == 0.0 then 1.0 else Clamp(numerator / denominator, 0.0, 1.0);
  }

  /** `mathematical_core_snapshot`. */
  method BuildSnapshot(root: real -> real, views: seq<Option<Checked>>) returns (core: Core)
    requires FourViews(views)
    ensures core == Snapshot(root, views)
  {
    var structure := AggregateComponent(root, Structure, StructureSignal, views);
    var momentum := AggregateComponent(root, Momentum, MomentumSignal, views);
    var derivative := AggregateComponent(root, Derivative, DerivativeSignal, views);
    var state := AggregateComponent(root, State, StateSignal, views);
    var conformal := AggregateComponent(root, Conformal, ConformalSignal, views);
    var components := [structure, momentum, derivative, state, conformal];
    ComponentsValid(root, views);
    assert components == Components(root, views);
    var instability := MeasureInstability(views);
    core := Assemble(components, AnyView(views), instability);
  }

  // ---------------------------------------------------------------- auxiliary evidence never decides

  /** The same view with other structure, momentum, volume and trend-strength readings. */
  predicate SameCore(v: Option<Checked>, u: Option<Checked>) {
    (v.None? && u.None?) || (v.Some? && u.Some? && v.value.core == u.value.core)
  }

  predicate SameCores(a: seq<Option<Checked>>, b: seq<Option<Checked>>) {
    FourViews(a) && FourViews(b) && forall i :: 0 <= i < 4 ==> SameCore(a[i], b[i])
  }

  /** A family that reads no texture; the three executable ones are. */
  ghost predicate TextureBlind(family: Family) {
    forall v: Checked, u: Checked {:trigger family(v), family(u)} :: v.core == u.core ==> family(v) == family(u)
  }

  lemma {:induction false} VotesIgnoreTexture(family: Family, a: seq<Option<Checked>>, b: seq<Option<Checked>>, n: nat)
    requires SameCores(a, b) && TextureBlind(family) && n <= 4
    ensures Votes(family, a, n) == Votes(family, b, n)
  {
    if n > 0 {
      VotesIgnoreTexture(family, a, b, n - 1);
      assert SameCore(a[n - 1], b[n - 1]);
      if a[n - 1].Some? { assert family(a[n - 1].value) == family(b[n - 1].value); }
    }
  }

  lemma {:induction false} IntervalsIgnoreTexture(a: seq<Option<Checked>>, b: seq<Option<Checked>>, n: nat)
    requires SameCores(a, b) && n <= 4
    ensures Intervals(a, n) == Intervals(b, n)
  {
    if n > 0 {
      IntervalsIgnoreTexture(a, b, n - 1);
      assert SameCore(a[n - 1], b[n - 1]);
    }
  }

  lemma {:induction false} RisksIgnoreTexture(a: seq<Option<Checked>>, b: seq<Option<Checked>>, n: nat)
    requires SameCores(a, b) && n <= 4
    ensures Risks(Risk, a, n) == Risks(Risk, b, n)
  {
    if n > 0 {
      RisksIgnoreTexture(a, b, n - 1);
      assert SameCore(a[n - 1], b[n - 1]);
    }
  }

  lemma ComponentIgnoresTexture(root: real -> real, code: Code, family: Family, a: seq<Option<Checked>>,
                                b: seq<Option<Checked>>)
    requires SameCores(a, b) && TextureBlind(family)
    ensures ComponentOf(root, code, family, a) == ComponentOf(root, code, family, b)
  {
    VotesIgnoreTexture(family, a, b, 4);
    IntervalsIgnoreTexture(a, b, 4);
  }

  /** Only the executable families are counted in the executable vote. */
  lemma BallotsOfCore(a: Component, b: Component, rest: seq<Component>)
    requires !Selected(a, false) && !Selected(b, false)
    ensures Ballots([a, b] + rest, false) == Ballots(rest, false)
    decreases |rest|
  {
    var cs := [a, b] + rest;
    if rest == [] {
      assert cs[..1] == [a] && [a][..0] == [];
      assert Ballots([a], false) == [];
    } else {
      assert cs[..|cs| - 1] == [a, b] + rest[..|rest| - 1];
      BallotsOfCore(a, b, rest[..|rest| - 1]);
    }
  }

  /** Equal executable votes decide equally. */
  lemma AssembleSame(x: seq<Component>, y: seq<Component>, seen: bool, instability: real)
    requires ValidComponents(x) && ValidComponents(y) && Ballots(x, false) == Ballots(y, false)
    ensures SameDecision(Assemble(x, seen, instability), Assemble(y, seen, instability))
  { }

  predicate SameDecision(p: Core, q: Core) {
    && p.status == q.status && p.score == q.score && p.confidence == q.confidence && p.coverage == q.coverage
    && p.consensus == q.consensus && p.instability == q.instability
  }

  lemma CoreFamiliesBlind()
    ensures TextureBlind(DerivativeSignal) && TextureBlind(StateSignal) && TextureBlind(ConformalSignal)
  { }

  lemma TailsAgree(root: real -> real, a: seq<Option<Checked>>, b: seq<Option<Checked>>)
    requires SameCores(a, b)
    ensures Components(root, a)[2..] == Components(root, b)[2..]
  {
    CoreFamiliesBlind();
    ComponentIgnoresTexture(root, Derivative, DerivativeSignal, a, b);
    ComponentIgnoresTexture(root, State, StateSignal, a, b);
    ComponentIgnoresTexture(root, Conformal, ConformalSignal, a, b);
  }

  lemma ExecutableVotes(root: real -> real, a: seq<Option<Checked>>)
    requires FourViews(a)
    ensures Ballots(Components(root, a), false) == Ballots(Components(root, a)[2..], false)
  {
    var x := Components(root, a);
    assert x == [x[0], x[1]] + x[2..];
    BallotsOfCore(x[0], x[1], x[2..]);
  }

  /**
   Structure and momentum stay auxiliary: whatever they read, status, score, confidence, coverage,
   consensus and instability of the snapshot are the same, and so are the executable components.
   */
  lemma TextureNeverDecides(root: real -> real, a: seq<Option<Checked>>, b: seq<Option<Checked>>)
    requires SameCores(a, b)
    ensures SameDecision(Snapshot(root, a), Snapshot(root, b))
    ensures Snapshot(root, a).components[2..] == Snapshot(root, b).components[2..]
  {
    ComponentsValid(root, a);
    ComponentsValid(root, b);
    TailsAgree(root, a, b);
    ExecutableVotes(root, a);
    ExecutableVotes(root, b);
    RisksIgnoreTexture(a, b, 4);
    AnyAgrees(a, b);
    AssembleSame(Components(root, a), Components(root, b), AnyView(a), Instability(a));
  }

  lemma AnyAgrees(a: seq<Option<Checked>>, b: seq<Option<Checked>>)
    requires SameCores(a, b)
    ensures AnyView(a) <==> AnyView(b)
  {
    assert forall i :: 0 <= i < 4 ==> SameCore(a[i], b[i]);
  }
}
