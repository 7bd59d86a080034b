/**
 No directional bias: turning every market reading upside down turns the evidence core upside down and
 nothing else. Long on the mirrored market is short on the market.
 */
module MirrorSymmetry {
  import opened Options
  import opened Reals
  import opened Evidence
  import opened MathematicalCore
  import opened MathematicalConfirmation

  // ---------------------------------------------------------------- mirrored readings

  function MirrorBias(b: Bias): Bias {
    match b case StrongBullish => StrongBearish case Bullish => Bearish case Neutral => Neutral
            case Bearish => Bullish case StrongBearish => StrongBullish
  }

  function MirrorBreak(b: Break): Break { match b case Up => Down case Down => Up case NoBreak => NoBreak }

  function Negated(x: Option<real>): Option<real> { if x.None? then None else Some(-x.value) }

  /** The close reflects at the volume-weighted price, momentum changes sign, the strength index reflects at fifty. */
  function MirrorTexture(t: Texture): Texture {
    Texture(MirrorBias(t.bias), MirrorBreak(t.bos), MirrorBreak(t.choch),
            if t.vwap.None? then t.close else 2.0 * t.vwap.value - t.close, t.vwap, t.adx,
            Negated(t.histogram), if t.rsi.None? then None else Some(100.0 - t.rsi.value), t.volume)
  }

  function MirrorTrend(t: TrendView): TrendView {
    TrendView(-t.velocityRatio, -t.accelerationRatio, t.r2, t.confidence)
  }
  function MirrorState(s: StateView): StateView { StateView(-s.velocityZ, -s.accelerationZ, s.shock, s.confidence) }
  function MirrorInterval(n: IntervalView): IntervalView {
    IntervalView(-n.predicted, -n.upper, -n.lower, n.half, n.record)
  }

  function MirrorReadings(r: Readings): (m: Readings)
    requires ValidReadings(r)
    ensures ValidReadings(m)
  {
    Readings(r.dataOk, r.volatility,
             if r.trend.None? then None else Some(MirrorTrend(r.trend.value)),
             if r.state.None? then None else Some(MirrorState(r.state.value)),
             if r.interval.None? then None else Some(MirrorInterval(r.interval.value)))
  }

  function MirrorView(v: Checked): Checked { View(MirrorReadings(v.core), MirrorTexture(v.texture)) }

  function MirrorOption(v: Option<Checked>): Option<Checked> { if v.None? then None else Some(MirrorView(v.value)) }

  function MirrorViews(views: seq<Option<Checked>>): (m: seq<Option<Checked>>)
    requires FourViews(views)
    ensures FourViews(m) && forall i :: 0 <= i < 4 ==> m[i] == MirrorOption(views[i])
  {
    [MirrorOption(views[0]), MirrorOption(views[1]), MirrorOption(views[2]), MirrorOption(views[3])]
  }

  // ---------------------------------------------------------------- every family is odd

  function Flip(g: Option<Signal>): Option<Signal> {
    if g.None? then None else Some(Signal(-g.value.value, g.value.reliability))
  }

  ghost predicate Odd(family: Family) { forall v: Checked :: family(MirrorView(v)) == Flip(family(v)) }

  lemma ClampOdd(x: real)
    ensures Clamp(-x, -1.0, 1.0) == -Clamp(x, -1.0, 1.0)
  { }

  lemma StructureMirrored(v: Checked)
    ensures StructureSignal(MirrorView(v)) == Flip(StructureSignal(v))
  {
    var t, m := v.texture, MirrorView(v).texture;
    assert BiasValue(m.bias) == -BiasValue(t.bias);
    assert Lean(m.bos, 0.15) == -Lean(t.bos, 0.15) && Lean(m.choch, 0.25) == -Lean(t.choch, 0.25);
  }

  lemma MomentumMirrored(v: Checked)
    ensures MomentumSignal(MirrorView(v)) == Flip(MomentumSignal(v))
  {
    if v.texture.rsi.Some? {
      var rsi := v.texture.rsi.value;
      assert (100.0 - rsi - 50.0) / 22.0 == -((rsi - 50.0) / 22.0);
      ClampOdd((rsi - 50.0) / 22.0);
    }
  }

  lemma BlendOdd(a: real, b: real)
    ensures Blend(-a, -b) == -Blend(a, b)
  {
    ClampOdd(a);
    ClampOdd(b);
  }

  lemma DerivativeMirrored(r: Readings)
    requires ValidReadings(r)
    ensures DerivativeOf(MirrorReadings(r)) == Flip(DerivativeOf(r))
  {
    if r.trend.Some? { BlendOdd(r.trend.value.velocityRatio, r.trend.value.accelerationRatio); }
  }

  lemma StateMirrored(r: Readings)
    requires ValidReadings(r)
    ensures StateOf(MirrorReadings(r)) == Flip(StateOf(r))
  {
    if r.state.Some? {
      var s := r.state.value;
      assert (-s.velocityZ) / 3.0 == -(s.velocityZ / 3.0) && (-s.accelerationZ) / 3.0 == -(s.accelerationZ / 3.0);
      BlendOdd(s.velocityZ / 3.0, s.accelerationZ / 3.0);
    }
  }

  lemma StrengthOdd(x: real, size: real, half: real)
    requires size >= 0.0 && half >= 0.0
    ensures Strength(-x, size, half) == -Strength(x, size, half)
  {
    NegatedFraction(x, size + half + EPSILON);
  }

  lemma ConformalMirrored(r: Readings)
    requires ValidReadings(r)
    ensures ConformalOf(MirrorReadings(r)) == Flip(ConformalOf(r))
  {
    if r.interval.Some? {
      var n := r.interval.value;
      assert Abs(-n.predicted) == Abs(n.predicted);
      StrengthOdd(n.predicted, Abs(n.predicted), n.half);
      ClampOdd(Strength(n.predicted, Abs(n.predicted), n.half));
    }
  }

  lemma FamiliesOdd()
    ensures Odd(StructureSignal) && Odd(MomentumSignal) && Odd(DerivativeSignal) && Odd(StateSignal)
    ensures Odd(ConformalSignal)
  {
    forall v: Checked
      ensures StructureSignal(MirrorView(v)) == Flip(StructureSignal(v))
      ensures MomentumSignal(MirrorView(v)) == Flip(MomentumSignal(v))
      ensures DerivativeSignal(MirrorView(v)) == Flip(DerivativeSignal(v))
      ensures StateSignal(MirrorView(v)) == Flip(StateSignal(v))
      ensures ConformalSignal(MirrorView(v)) == Flip(ConformalSignal(v))
    {
      StructureMirrored(v);
      MomentumMirrored(v);
      DerivativeMirrored(v.core);
      StateMirrored(v.core);
      ConformalMirrored(v.core);
    }
  }

  // ---------------------------------------------------------------- flipped votes

  function FlipVote(e: Vote): Vote { Vote(e.weight, -e.signal) }

  function FlipVotes(es: seq<Vote>): (t: seq<Vote>)
    ensures |t| == |es| && forall i :: 0 <= i < |es| ==> t[i] == FlipVote(es[i])
  {
    if es == [] then [] else FlipVotes(es[..|es| - 1]) + [FlipVote(es[|es| - 1])]
  }

  lemma {:induction false} SumFlipped(f: Vote -> real, g: Vote -> real, es: seq<Vote>)
    requires forall e :: g(FlipVote(e)) == f(e)
    ensures Sum(g, FlipVotes(es)) == Sum(f, es)
  {
    if es != [] {
      SumFlipped(f, g, es[..|es| - 1]);
      SumAppend(g, FlipVotes(es[..|es| - 1]), FlipVote(es[|es| - 1]));
    }
  }

  function Opposite(e: Vote): real { -1.0 * Weighted(e) }

  lemma OppositeIs(e: Vote)
    ensures Weighted(FlipVote(e)) == Opposite(e)
  { }

  lemma WeightedFlipped(es: seq<Vote>)
    ensures WeightedSum(FlipVotes(es)) == -WeightedSum(es)
  {
    forall e: Vote ensures Weighted(FlipVote(e)) == Opposite(e) { OppositeIs(e); }
    SumFlipped(Opposite, Weighted, es);
    SumScaled(Weighted, Opposite, -1.0, es);
  }

  lemma TotalFlipped(es: seq<Vote>)
    ensures Total(FlipVotes(es)) == Total(es)
  {
    SumFlipped(WeightOf, WeightOf, es);
  }

  lemma MeanFlipped(es: seq<Vote>)
    ensures Total(FlipVotes(es)) == Total(es) && Mean(FlipVotes(es)) == -Mean(es)
  {
    TotalFlipped(es);
    WeightedFlipped(es);
    if Total(es) != 0.0 { NegatedQuotient(WeightedSum(es), Total(es)); }
  }

  lemma NegatedQuotient(a: real, b: real)
    requires b != 0.0
    ensures (-a) / b == -(a / b)
  { }

  lemma DistanceFlipped(e: Vote, m: real)
    ensures DistanceOf(FlipVote(e), -m) == DistanceOf(e, m)
  {
    assert Abs(-e.signal - -m) == Abs(e.signal - m);
  }

  lemma SpreadFlipped(es: seq<Vote>, m: real)
    ensures Spread(FlipVotes(es), -m) == Spread(es, m)
  {
    forall e: Vote ensures Distance(-m)(FlipVote(e)) == Distance(m)(e) { DistanceFlipped(e, m); }
    SumFlipped(Distance(m), Distance(-m), es);
  }

  lemma DisagreementFlipped(es: seq<Vote>)
    requires Total(es) > 0.0
    ensures Total(FlipVotes(es)) > 0.0 && Disagreement(FlipVotes(es)) == Disagreement(es)
  {
    MeanFlipped(es);
    SpreadFlipped(es, Mean(es));
  }

  function FlipFused(f: Fused): Fused { Fused(-f.score, f.coverage, f.consensus) }

  lemma ClampedFlipped(mean: real, total: real, disagreement: real)
    ensures Clamped(-mean, total, disagreement) == FlipFused(Clamped(mean, total, disagreement))
  {
    ClampOdd(mean);
  }

  lemma SaneFlipped(es: seq<Vote>)
    requires Sane(es)
    ensures Sane(FlipVotes(es))
  { }

  lemma FuseFlipped(es: seq<Vote>)
    requires Sane(es)
    ensures Sane(FlipVotes(es)) && Fuse(FlipVotes(es)) == FlipFused(Fuse(es))
  {
    TotalNonnegative(es);
    SaneFlipped(es);
    MeanFlipped(es);
    if Total(es) > 0.0 {
      DisagreementFlipped(es);
      ClampedFlipped(Mean(es), Total(es), Disagreement(es));
    }
  }

  // ---------------------------------------------------------------- from views to components

  lemma VoteMirrored(i: nat, g: Signal)
    ensures VoteOf(i, Signal(-g.value, g.reliability)) == FlipVote(VoteOf(i, g))
  { }

  lemma JoinFlipped(front: seq<Vote>, i: nat, g: Option<Signal>)
    ensures Joined(FlipVotes(front), i, Flip(g)) == FlipVotes(Joined(front, i, g))
  {
    if g.Some? {
      VoteMirrored(i, g.value);
      FlipAppend(front, VoteOf(i, g.value));
    }
  }

  lemma {:induction false} VotesTurned(family: Family, views: seq<Option<Checked>>, m: seq<Option<Checked>>, n: nat)
    requires FourViews(m) && FourViews(views) && n <= 4
    requires forall i :: 0 <= i < 4 ==> Local(family, m[i]) == Flip(Local(family, views[i]))
    ensures Votes(family, m, n) == FlipVotes(Votes(family, views, n))
  {
    if n > 0 {
      VotesTurned(family, views, m, n - 1);
      JoinFlipped(Votes(family, views, n - 1), n - 1, Local(family, views[n - 1]));
    }
  }

  lemma VotesMirrored(family: Family, views: seq<Option<Checked>>)
    requires FourViews(views) && Odd(family)
    ensures Votes(family, MirrorViews(views), 4) == FlipVotes(Votes(family, views, 4))
  {
    var m := MirrorViews(views);
    forall i | 0 <= i < 4 ensures Local(family, m[i]) == Flip(Local(family, views[i])) {
      assert m[i] == MirrorOption(views[i]);
    }
    VotesTurned(family, views, m, 4);
  }

  lemma FlipAppend(es: seq<Vote>, e: Vote)
    ensures FlipVotes(es + [e]) == FlipVotes(es) + [FlipVote(e)]
  {
    assert (es + [e])[..|es|] == es;
  }

  lemma {:induction false} IntervalsMirrored(views: seq<Option<Checked>>, n: nat)
    requires FourViews(views) && n <= 4
    ensures Intervals(MirrorViews(views), n) == Intervals(views, n)
  {
    if n > 0 { IntervalsMirrored(views, n - 1); }
  }

  function FlipComponent(c: Component): Component { c.(signal := -c.signal) }

  lemma ValidationMirrored(root: real -> real, code: Code, views: seq<Option<Checked>>)
    requires FourViews(views)
    ensures Validate(root, code, MirrorViews(views)) == Validate(root, code, views)
  {
    IntervalsMirrored(views, 4);
  }

  lemma SignalMirrored(family: Family, views: seq<Option<Checked>>)
    requires FourViews(views) && Odd(family)
    ensures Mean(Votes(family, MirrorViews(views), 4)) == -Mean(Votes(family, views, 4))
    ensures Total(Votes(family, MirrorViews(views), 4)) == Total(Votes(family, views, 4))
  {
    VotesMirrored(family, views);
    MeanFlipped(Votes(family, views, 4));
  }

  lemma ComponentMirrored(root: real -> real, code: Code, family: Family, views: seq<Option<Checked>>)
    requires FourViews(views) && Odd(family)
    ensures ComponentOf(root, code, family, MirrorViews(views)) == FlipComponent(ComponentOf(root, code, family, views))
  {
    SignalMirrored(family, views);
    ClampOdd(Mean(Votes(family, views, 4)));
    ValidationMirrored(root, code, views);
  }

  function FlipComponents(cs: seq<Component>): (t: seq<Component>)
    ensures |t| == |cs| && forall i :: 0 <= i < |cs| ==> t[i] == FlipComponent(cs[i])
  {
    if cs == [] then [] else FlipComponents(cs[..|cs| - 1]) + [FlipComponent(cs[|cs| - 1])]
  }

  lemma ComponentsMirrored(root: real -> real, views: seq<Option<Checked>>)
    requires FourViews(views)
    ensures Components(root, MirrorViews(views)) == FlipComponents(Components(root, views))
  {
    FamiliesOdd();
    ComponentMirrored(root, Structure, StructureSignal, views);
    ComponentMirrored(root, Momentum, MomentumSignal, views);
    ComponentMirrored(root, Derivative, DerivativeSignal, views);
    ComponentMirrored(root, State, StateSignal, views);
    ComponentMirrored(root, Conformal, ConformalSignal, views);
  }

  lemma BallotMirrored(c: Component, auxiliary: bool)
    requires Selected(c, auxiliary)
    ensures Selected(FlipComponent(c), auxiliary)
    ensures Ballot(FlipComponent(c), auxiliary) == FlipVote(Ballot(c, auxiliary))
  { }

  lemma {:induction false} BallotsMirrored(cs: seq<Component>, auxiliary: bool)
    ensures Ballots(FlipComponents(cs), auxiliary) == FlipVotes(Ballots(cs, auxiliary))
  {
    if cs != [] {
      var front, c := cs[..|cs| - 1], cs[|cs| - 1];
      BallotsMirrored(front, auxiliary);
      assert FlipComponents(cs)[..|cs| - 1] == FlipComponents(front);
      if Selected(c, auxiliary) {
        BallotMirrored(c, auxiliary);
        FlipAppend(Ballots(front, auxiliary), Ballot(c, auxiliary));
      }
    }
  }

  lemma {:induction false} RisksMirrored(views: seq<Option<Checked>>, n: nat)
    requires FourViews(views) && n <= 4
    ensures Risks(Risk, MirrorViews(views), n) == Risks(Risk, views, n)
  {
    if n > 0 {
      RisksMirrored(views, n - 1);
      if views[n - 1].Some? { assert Risk(MirrorView(views[n - 1].value)) == Risk(views[n - 1].value); }
    }
  }

  // ---------------------------------------------------------------- the mirrored snapshot

  function MirrorStatus(s: Status): Status { match s case Long => Short case Short => Long case _ => s }

  function MirrorCore(c: Core): Core {
    c.(status := MirrorStatus(c.status), score := -c.score, auxiliaryScore := -c.auxiliaryScore,
       components := FlipComponents(c.components))
  }

  lemma PublishedMirrored(f: Fused, aux: Fused, cs: seq<Component>, seen: bool, instability: real)
    ensures Published(FlipFused(f), FlipFused(aux), FlipComponents(cs), seen, instability)
         == MirrorCore(Published(f, aux, cs, seen, instability))
  {
    ClampOdd(f.score);
    ConfidenceMirrored(f, instability);
    ConfidenceMirrored(aux, instability);
  }

  lemma FuseMirrored(cs: seq<Component>, auxiliary: bool)
    requires ValidComponents(cs) && ValidComponents(FlipComponents(cs))
    ensures Sane(Ballots(cs, auxiliary)) && Sane(Ballots(FlipComponents(cs), auxiliary))
    ensures Fuse(Ballots(FlipComponents(cs), auxiliary)) == FlipFused(Fuse(Ballots(cs, auxiliary)))
  {
    BallotsSane(cs, auxiliary);
    BallotsMirrored(cs, auxiliary);
    FuseFlipped(Ballots(cs, auxiliary));
  }

  lemma AssembleMirrored(cs: seq<Component>, seen: bool, instability: real)
    requires ValidComponents(cs) && ValidComponents(FlipComponents(cs))
    ensures Assemble(FlipComponents(cs), seen, instability) == MirrorCore(Assemble(cs, seen, instability))
  {
    FuseMirrored(cs, false);
    FuseMirrored(cs, true);
    PublishedMirrored(Fuse(Ballots(cs, false)), Fuse(Ballots(cs, true)), cs, seen, instability);
  }

  lemma ConfidenceMirrored(f: Fused, instability: real)
    ensures Confidence(FlipFused(f), instability) == Confidence(f, instability)
  {
    assert Abs(-f.score) == Abs(f.score);
  }

  /** The snapshot of the mirrored views is the mirrored snapshot: no family and no threshold prefers a side. */
  lemma SnapshotMirrored(root: real -> real, views: seq<Option<Checked>>)
    requires FourViews(views)
    ensures Snapshot(root, MirrorViews(views)) == MirrorCore(Snapshot(root, views))
  {
    ComponentsValid(root, views);
    ComponentsValid(root, MirrorViews(views));
    ComponentsMirrored(root, views);
    RisksMirrored(views, 4);
    SeenMirrored(views);
    AssembleMirrored(Components(root, views), AnyView(views), Instability(views));
  }

  lemma SeenMirrored(views: seq<Option<Checked>>)
    requires FourViews(views)
    ensures AnyView(MirrorViews(views)) <==> AnyView(views)
  {
    var m := MirrorViews(views);
    assert forall i :: 0 <= i < 4 ==> (m[i].Some? <==> views[i].Some?);
  }

  lemma {:induction false} CodesMirrored(cs: seq<Component>, auxiliary: bool)
    ensures Codes(FlipComponents(cs), auxiliary) == Codes(cs, auxiliary)
  {
    if cs != [] {
      CodesMirrored(cs[..|cs| - 1], auxiliary);
      assert FlipComponents(cs)[..|cs| - 1] == FlipComponents(cs[..|cs| - 1]);
    }
  }

  function OtherSide(side: Side): Side { match side case LongSide => ShortSide case ShortSide => LongSide }

  lemma RecordMirrored(core: Core, support: real, auxiliary: real)
    ensures Record(MirrorCore(core), support, auxiliary) == Record(core, support, auxiliary)
  {
    CodesMirrored(core.components, false);
    CodesMirrored(core.components, true);
    assert Reliability(MirrorCore(core)) == Reliability(core);
  }

  lemma SupportMirrored(side: Side, score: real)
    ensures Support(side, -score) == Support(OtherSide(side), score)
  { }

  /** Reading the mirrored snapshot for one direction gives the very record of the other direction. */
  lemma ConfirmationMirrored(core: Core, side: Side)
    ensures Interpret(MirrorCore(core), side) == Interpret(core, OtherSide(side))
  {
    SupportMirrored(side, core.score);
    SupportMirrored(side, core.auxiliaryScore);
    RecordMirrored(core, Support(OtherSide(side), core.score), Support(OtherSide(side), core.auxiliaryScore));
  }
}
