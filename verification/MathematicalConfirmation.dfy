/**
 The direction-specific reading of a core snapshot, and the validators its record must pass.
 */
module MathematicalConfirmation {
  import opened Options
  import opened Reals
  import opened MathematicalCore

  datatype Verdict = Confirmed | Mixed | Opposed | NotEnough | Shaky
  datatype Grade = High | Medium | Low | Blocked

  datatype Confirmation = Confirmation(
    verdict: Verdict, grade: Grade, confidence: real, support: real, reliability: real, coverage: real,
    consensus: real, instability: real, codes: seq<Code>, bonus: int, auxiliarySupport: real, auxiliaryCodes: seq<Code>)

  predicate Distinct(codes: seq<Code>) { forall i, j :: 0 <= i < j < |codes| ==> codes[i] != codes[j] }

  /** Field bounds and the monotone risk-grade rules. */
  predicate ValidConfirmation(c: Confirmation) {
    && Unit(c.confidence) && Signed(c.support) && Unit(c.reliability) && Unit(c.coverage) && Unit(c.consensus)
    && Unit(c.instability) && 0 <= c.bonus <= 5 && Signed(c.auxiliarySupport)
    && Distinct(c.codes) && Distinct(c.auxiliaryCodes)
    && (forall x :: x in c.codes ==> x !in c.auxiliaryCodes)
    && (c.bonus > 0 ==> c.auxiliarySupport > 0.0 && c.auxiliaryCodes != [])
    && if c.verdict == Opposed || c.verdict == Shaky then c.grade == Blocked && c.bonus == 0
       else
         && c.grade != Blocked
         && (c.grade == High || c.grade == Medium ==> c.verdict == Confirmed && c.codes != [])
         && (c.grade == High ==> c.confidence >= 0.65 && c.reliability >= 0.65 && c.instability <= 0.20)
         && (c.grade == Medium ==> c.confidence >= 0.35 && c.reliability >= 0.45)
  }

  /** Codes of the components with weight that are validated, or auxiliary. */
  function Codes(cs: seq<Component>, auxiliary: bool): seq<Code> {
    if cs == [] then []
    else
      var front, c := Codes(cs[..|cs| - 1], auxiliary), cs[|cs| - 1];
      if (c.validation.level == Auxiliary <==> auxiliary) && c.reliability > 0.0 then front + [c.code] else front
  }

  function Reliability(core: Core): real { Dependable(core.coverage, core.consensus, core.instability) }

  function Dependable(coverage: real, consensus: real, instability: real): real {
    coverage * consensus * (1.0 - instability)
  }

  function GradeOf(core: Core, support: real): (Verdict, Grade) {
    if core.status == Unstable then (Shaky, Blocked)
    else if support <= -0.25 && core.confidence >= 0.20 then (Opposed, Blocked)
    else if support >= 0.25 && core.confidence >= 0.20 then
      (Confirmed,
       if core.confidence >= 0.65 && Reliability(core) >= 0.65 && core.instability <= 0.20 then High
       else if core.confidence >= 0.35 && Reliability(core) >= 0.45 then Medium
       else Low)
    else if core.status == Insufficient then (NotEnough, Low)
    else (Mixed, Low)
  }

  function Bonus(core: Core, support: real): int {
    if support > 0.0 && Codes(core.components, true) != [] then
      var raw := (5.0 * core.auxiliaryConfidence).Floor;
      if raw < 5 then raw else 5
    else 0
  }

  datatype Side = LongSide | ShortSide

  function Sign(side: Side): real { match side case LongSide => 1.0 case ShortSide => -1.0 }

  function Support(side: Side, score: real): real { Sign(side) * score }

  const EMPTY: Confirmation := Confirmation(NotEnough, Low, 0.0, 0.0, 0.0, 0.0, 0.0, 0.0, [], 0, 0.0, [])

  /** A missing core, or a direction that is neither long nor short, confirms nothing. */
  function Confirm(core: Option<Core>, side: Option<Side>): Confirmation {
    if core.None? || side.None? then EMPTY else Interpret(core.value, side.value)
  }

  function Interpret(core: Core, side: Side): Confirmation {
    Record(core, Support(side, core.score), Support(side, core.auxiliaryScore))
  }

  function Record(core: Core, support: real, auxiliary: real): Confirmation {
    var (verdict, grade) := GradeOf(core, support);
    Confirmation(verdict, grade, core.confidence, Max(-1.0, Min(1.0, support)), Max(0.0, Min(1.0, Reliability(core))),
                 core.coverage, core.consensus, core.instability, Codes(core.components, false),
                 if grade == Blocked then 0 else Bonus(core, auxiliary),
                 Max(-1.0, Min(1.0, auxiliary)), Codes(core.components, true))
  }

  // ---------------------------------------------------------------- codes

  lemma {:induction false} CodesFrom(cs: seq<Component>, auxiliary: bool, x: Code)
    requires x in Codes(cs, auxiliary)
    ensures exists i :: 0 <= i < |cs| && cs[i].code == x && ((cs[i].validation.level == Auxiliary) <==> auxiliary)
  {
    var front, c := cs[..|cs| - 1], cs[|cs| - 1];
    if x in Codes(front, auxiliary) {
      CodesFrom(front, auxiliary, x);
      var i :| 0 <= i < |front| && front[i].code == x && ((front[i].validation.level == Auxiliary) <==> auxiliary);
      assert cs[i] == front[i];
    } else {
      assert cs[|cs| - 1].code == x;
    }
  }

  lemma {:induction false} CodesDistinct(cs: seq<Component>, auxiliary: bool)
    requires UniqueCodes(cs)
    ensures Distinct(Codes(cs, auxiliary))
  {
    if cs != [] {
      var front, c := cs[..|cs| - 1], cs[|cs| - 1];
      CodesDistinct(front, auxiliary);
      if c.code in Codes(front, auxiliary) {
        CodesFrom(front, auxiliary, c.code);
      }
    }
  }

  lemma CodesDisjoint(cs: seq<Component>, x: Code)
    requires UniqueCodes(cs) && x in Codes(cs, false)
    ensures x !in Codes(cs, true)
  {
    CodesFrom(cs, false, x);
    if x in Codes(cs, true) {
      CodesFrom(cs, true, x);
    }
  }

  lemma {:induction false} CodesNonempty(cs: seq<Component>)
    ensures Codes(cs, false) != [] <==> HasExecutable(cs)
  {
    if cs != [] {
      var front, c := cs[..|cs| - 1], cs[|cs| - 1];
      CodesNonempty(front);
      if HasExecutable(front) {
        var i :| 0 <= i < |front| && Executable(front[i]);
        assert Executable(cs[i]);
      }
      if Executable(c) { assert Executable(cs[|cs| - 1]); }
      if HasExecutable(cs) && !Executable(c) {
        var i :| 0 <= i < |cs| && Executable(cs[i]);
        assert Executable(front[i]);
      }
    }
  }

  // ---------------------------------------------------------------- what the validators accept

  lemma ReliabilityUnit(core: Core)
    requires Unit(core.coverage) && Unit(core.consensus) && Unit(core.instability)
    ensures Unit(Reliability(core)) && Max(0.0, Min(1.0, Reliability(core))) == Reliability(core)
  {
    TripleProduct(core.coverage, core.consensus, 1.0 - core.instability);
  }

  lemma BonusRange(core: Core, support: real)
    requires Unit(core.auxiliaryConfidence)
    ensures 0 <= Bonus(core, support) <= 5
    ensures Bonus(core, support) > 0 ==> support > 0.0 && Codes(core.components, true) != []
  { }

  /** The evidence is strong enough for the medium grade or the high one. */
  predicate StrongFor(core: Core, side: Side) {
    core.status != Unstable && Support(side, core.score) >= 0.25 && core.confidence >= 0.35 && Reliability(core) >= 0.45
  }

  /**
   For any snapshot that passed its own validators, the confirmation passes too if and only if strong
   evidence comes with a validated component of positive reliability.
   */
  lemma ConfirmationExactly(core: Core, side: Side)
    requires ValidCore(core)
    ensures ValidConfirmation(Interpret(core, side)) <==> (StrongFor(core, side) ==> HasExecutable(core.components))
  {
    GradedMeansStrong(core, side);
    ReliabilityUnit(core);
    BonusRange(core, Support(side, core.auxiliaryScore));
    CodesDistinct(core.components, false);
    CodesDistinct(core.components, true);
    CodesNonempty(core.components);
    forall x | x in Codes(core.components, false) ensures x !in Codes(core.components, true) {
      CodesDisjoint(core.components, x);
    }
    SignedSupport(side, core.score);
    SignedSupport(side, core.auxiliaryScore);
  }

  lemma GradedMeansStrong(core: Core, side: Side)
    ensures var g := Interpret(core, side).grade; g == High || g == Medium <==> StrongFor(core, side)
  { }

  lemma SignedSupport(side: Side, score: real)
    requires Signed(score)
    ensures Signed(Support(side, score)) && Max(-1.0, Min(1.0, Support(side, score))) == Support(side, score)
  { }

  /**
   The confirmation of every snapshot the core builds passes its validators, for both directions; so does
   the one for a missing core or direction, which is graded low.
   */
  lemma BuiltConfirmationValid(root: real -> real, views: seq<Option<Checked>>, side: Option<Side>)
    requires FourViews(views)
    ensures ValidConfirmation(Confirm(Some(Snapshot(root, views)), side))
    ensures ValidConfirmation(Confirm(None, side)) && Confirm(None, side).grade == Low
  {
    if side.Some? {
      var core := Snapshot(root, views);
      SnapshotValid(root, views);
      ConfirmationExactly(core, side.value);
      if core.score != 0.0 { ScoredMeansExecutable(root, views); }
    }
  }

  /** A snapshot of full strength that names no component. */
  function Bare(strength: real): Core {
    Core(Even, strength, strength, strength, strength, 1.0 - strength, 0.0, 0.0, [])
  }

  lemma BareIsHigh(strength: real)
    requires 0.9 <= strength <= 1.0
    ensures ValidCore(Bare(strength)) && Reliability(Bare(strength)) >= 0.65
  {
    var a := strength * strength;
    Product(strength - 0.9, strength - 0.9);
    assert a >= 0.81;
    Product(a - 0.81, strength - 0.9);
    assert a * strength >= 0.81 * 0.9;
  }

  /** A validated snapshot with no components, yet strong enough for the high grade, is refused. */
  lemma RefusedConfirmation(strength: real)
    requires 0.9 <= strength <= 1.0
    ensures ValidCore(Bare(strength)) && !ValidConfirmation(Interpret(Bare(strength), LongSide))
  {
    BareIsHigh(strength);
    ConfirmationExactly(Bare(strength), LongSide);
  }

  /** Long and short read the same evidence as mirror images, so at most one of them is confirmed. */
  lemma Mirrored(core: Core)
    requires ValidCore(core)
    ensures var long, short := Interpret(core, LongSide), Interpret(core, ShortSide);
      && long.support == -short.support && long.reliability == short.reliability
      && (long.verdict == Confirmed <==> short.verdict == Opposed)
      && (long.verdict == Opposed <==> short.verdict == Confirmed)
      && (long.bonus > 0 ==> short.bonus == 0)
  {
    SignedSupport(LongSide, core.score);
    SignedSupport(ShortSide, core.score);
    BonusRange(core, core.auxiliaryScore);
    BonusRange(core, -core.auxiliaryScore);
  }

  // ---------------------------------------------------------------- verdict and status

  function Towards(side: Side): Status { match side case LongSide => Long case ShortSide => Short }

  lemma DependableWithin(coverage: real, consensus: real, instability: real)
    requires Unit(coverage) && Unit(consensus) && Unit(instability)
    ensures Dependable(coverage, consensus, instability) <= coverage
  {
    UnitProduct(consensus, 1.0 - instability);
    Scaling(consensus * (1.0 - instability), 1.0, coverage);
    assert coverage * consensus * (1.0 - instability) == (consensus * (1.0 - instability)) * coverage;
  }

  /**
   A snapshot of the core and its confirmation: a direction is confirmed if and only if the core called it, or
   its coverage was insufficient although score and confidence suffice; and only a direction that the core
   itself called is ever graded medium or high.
   */
  lemma VerdictExactly(root: real -> real, views: seq<Option<Checked>>, side: Side)
    requires FourViews(views)
    ensures var core := Snapshot(root, views);
      var c := Interpret(core, side);
      && (c.verdict == Confirmed
          <==>
          || core.status == Towards(side)
          || (core.status == Insufficient && Support(side, core.score) >= 0.25 && core.confidence >= 0.20))
      && (c.grade == High || c.grade == Medium ==> core.status == Towards(side))
  {
    var core := Snapshot(root, views);
    SnapshotValid(root, views);
    StatusExactly(root, views);
    DependableWithin(core.coverage, core.consensus, core.instability);
  }

  // ---------------------------------------------------------------- the grade is monotone

  function Height(g: Grade): int { match g case Blocked => 0 case Low => 1 case Medium => 2 case High => 3 }

  /** At least as good evidence for the same direction. */
  predicate Stronger(a: Core, b: Core, support: real, more: real) {
    && support <= more && a.confidence <= b.confidence
    && Reliability(a) <= Reliability(b) && b.instability <= a.instability
    && (b.status == Unstable ==> a.status == Unstable)
  }

  /**
   Stronger evidence lowers the risk grade exactly when it turns doubt about an opposed direction into
   opposition; for a direction it does not oppose it never does.
   */
  lemma GradeMonotone(a: Core, b: Core, support: real, more: real)
    requires Stronger(a, b, support, more)
    ensures Height(GradeOf(a, support).1) > Height(GradeOf(b, more).1)
       <==> more <= -0.25 && a.confidence < 0.20 <= b.confidence && a.status != Unstable
  { }

  // ---------------------------------------------------------------- what the record says

  /** A score as seen from one direction. */
  predicate SeenFrom(side: Side, score: real, seen: real) { seen == if side == LongSide then score else -score }

  /** The confirmation carries the core's own numbers, seen from its direction. */
  lemma RecordSays(core: Core, side: Side)
    requires ValidCore(core)
    ensures var c := Interpret(core, side);
      && SeenFrom(side, core.score, c.support) && SeenFrom(side, core.auxiliaryScore, c.auxiliarySupport)
      && c.confidence == core.confidence && c.coverage == core.coverage && c.consensus == core.consensus
      && c.instability == core.instability && c.reliability == core.coverage * core.consensus * (1.0 - core.instability)
  {
    SignedSupport(side, core.score);
    SignedSupport(side, core.auxiliaryScore);
    ReliabilityUnit(core);
  }

  /** Verdict and grade, each exactly, from the numbers of the record and the status of the core. */
  lemma VerdictSays(core: Core, side: Side)
    requires ValidCore(core)
    ensures var c := Interpret(core, side); var firm := core.confidence >= 0.20;
      && (c.verdict == Shaky <==> core.status == Unstable)
      && (c.verdict == Opposed <==> core.status != Unstable && c.support <= -0.25 && firm)
      && (c.verdict == Confirmed <==> core.status != Unstable && c.support >= 0.25 && firm)
      && (c.verdict == NotEnough <==> core.status == Insufficient && (-0.25 < c.support < 0.25 || !firm))
      && (c.grade == Blocked <==> c.verdict == Shaky || c.verdict == Opposed)
      && (c.grade == High <==>
            c.verdict == Confirmed && c.confidence >= 0.65 && c.reliability >= 0.65 && c.instability <= 0.20)
      && (c.grade == Medium <==>
            c.grade != High && c.verdict == Confirmed && c.confidence >= 0.35 && c.reliability >= 0.45)
  {
    SignedSupport(side, core.score);
    ReliabilityUnit(core);
  }

  /** A component with weight, in the group of the auxiliary ones or in that of the validated ones. */
  predicate Carries(c: Component, auxiliary: bool) {
    c.reliability > 0.0 && (if auxiliary then c.validation.level == Auxiliary else c.validation.level != Auxiliary)
  }

  lemma {:induction false} CodesSay(cs: seq<Component>, auxiliary: bool, x: Code)
    ensures x in Codes(cs, auxiliary) <==> exists i :: 0 <= i < |cs| && cs[i].code == x && Carries(cs[i], auxiliary)
  {
    if cs != [] {
      var front, c := cs[..|cs| - 1], cs[|cs| - 1];
      CodesSay(front, auxiliary, x);
      if i :| 0 <= i < |front| && front[i].code == x && Carries(front[i], auxiliary) {
        assert cs[i].code == x && Carries(cs[i], auxiliary);
      }
      if i :| 0 <= i < |cs| && cs[i].code == x && Carries(cs[i], auxiliary) {
        if i < |front| { assert front[i].code == x && Carries(front[i], auxiliary); }
      }
      if c.code == x && Carries(c, auxiliary) { assert cs[|cs| - 1].code == x && Carries(cs[|cs| - 1], auxiliary); }
    }
  }

  /**
   The bonus reaches `k` of its five points exactly when the grade is not blocked, auxiliary evidence with weight
   points the same way, and its confidence is at least `k` fifths.
   */
  lemma BonusSays(core: Core, side: Side, k: nat)
    requires ValidCore(core) && 1 <= k <= 5
    ensures var c := Interpret(core, side);
      c.bonus >= k <==>
        && c.grade != Blocked && c.auxiliarySupport > 0.0 && c.auxiliaryCodes != []
        && 5.0 * core.auxiliaryConfidence >= k as real
  {
    SignedSupport(side, core.auxiliaryScore);
    FloorReaches(5.0 * core.auxiliaryConfidence, k);
  }

  lemma FloorReaches(x: real, k: int)
    ensures x.Floor >= k <==> x >= k as real
  { }
}
