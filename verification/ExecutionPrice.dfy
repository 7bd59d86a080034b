/**
 The price of a bounded fill-or-kill order: `execution_quality_at_price`,
 `bounded_fok_execution_price` and `adverse_fill_slippage_bps`, over exact reals.
 */
module ExecutionPrice {
  import opened Options
  import opened Reals

  /** The part of a trade candidate that pricing looks at. */
  datatype Candidate = Candidate(long: bool, stopLoss: real, takeProfit: real, structural: bool)

  datatype Settings = Settings(
    feeBps: real, slippageBps: real, fundingBps: real, minNetRatio: real, minGrossRatio: real, maxAdverseBps: real)

  /** The ranges that the configuration validates. */
  predicate ValidSettings(s: Settings) {
    && 0.0 <= s.feeBps <= 100.0 && 0.0 <= s.slippageBps <= 100.0 && 0.0 <= s.fundingBps <= 100.0
    && s.minNetRatio > 0.0 && s.minGrossRatio > 0.0 && 0.0 <= s.maxAdverseBps <= 50.0
  }

  function StructuralCost(s: Settings): real { (s.feeBps + s.slippageBps + s.fundingBps) / 10000.0 }

  function CostOf(c: Candidate, s: Settings): real { if c.structural then StructuralCost(s) else 0.0 }

  function Minimum(c: Candidate, s: Settings): real { if c.structural then s.minNetRatio else s.minGrossRatio }

  datatype Quality = Quality(price: real, gross: real, net: real, enforced: real, minimum: real, cost: real)

  function RiskAt(c: Candidate, price: real): real { if c.long then price - c.stopLoss else c.stopLoss - price }

  function RewardAt(c: Candidate, price: real): real { if c.long then c.takeProfit - price else price - c.takeProfit }

  function QualityAt(c: Candidate, s: Settings, price: real): Option<Quality>
    requires ValidSettings(s)
  {
    if price <= 0.0 then None
    else
      var risk, reward := RiskAt(c, price), RewardAt(c, price);
      if risk <= 0.0 || reward <= 0.0 then None
      else
        var cost := CostOf(c, s);
        if reward / price <= cost then None
        else
          assert risk / price > 0.0;
          var gross, net := reward / risk, (reward / price - cost) / (risk / price + cost);
          Some(Quality(price, gross, net, if c.structural then net else gross, Minimum(c, s), cost))
  }

  predicate Acceptable(c: Candidate, s: Settings, price: real)
    requires ValidSettings(s)
  {
    QualityAt(c, s, price).Some? && QualityAt(c, s, price).value.enforced >= Minimum(c, s)
  }

  function Divide(a: real, b: real): real
    requires b != 0.0
  {
    a / b
  }

  function Target(c: Candidate, s: Settings): real { c.takeProfit + Minimum(c, s) * c.stopLoss }

  function RatioBoundary(c: Candidate, s: Settings): real
    requires ValidSettings(s)
  {
    var weighted := Divide(Target(c, s), 1.0 + Minimum(c, s));
    Divide(weighted, if c.long then 1.0 + CostOf(c, s) else 1.0 - CostOf(c, s))
  }

  function SlippageBoundary(c: Candidate, s: Settings, reference: real): real {
    reference * (if c.long then 1.0 + s.maxAdverseBps / 10000.0 else 1.0 - s.maxAdverseBps / 10000.0)
  }

  function FloorTo(x: real, tick: real): real
    requires tick > 0.0
  {
    Steps((x / tick).Floor, tick)
  }

  function CeilTo(x: real, tick: real): real
    requires tick > 0.0
  {
    Steps(-((-(x / tick)).Floor), tick)
  }

  datatype Refusal =
    | InputsInvalid | ReferenceOutside | ReferenceBelowMinimum | NotMarketable
    | CostInvalid | LimitOutside | LimitBelowMinimum

  datatype Priced = Limit(price: real, quality: Quality, maxAdverseBps: real) | Refused(why: Refusal)

  function RawLimit(c: Candidate, s: Settings, reference: real): real
    requires ValidSettings(s)
  {
    var a, b := RatioBoundary(c, s), SlippageBoundary(c, s, reference);
    if c.long then (if a < b then a else b) else (if a > b then a else b)
  }

  function LimitPrice(c: Candidate, s: Settings, reference: real, tick: real): real
    requires ValidSettings(s) && tick > 0.0
  {
    if c.long then FloorTo(RawLimit(c, s, reference), tick) else CeilTo(RawLimit(c, s, reference), tick)
  }

  function BoundedPrice(c: Candidate, s: Settings, reference: real, tick: real): Priced
    requires ValidSettings(s)
  {
    if reference <= 0.0 || tick <= 0.0 then Refused(InputsInvalid)
    else if QualityAt(c, s, reference).None? then Refused(ReferenceOutside)
    else if QualityAt(c, s, reference).value.enforced < Minimum(c, s) then Refused(ReferenceBelowMinimum)
    else if !c.long && CostOf(c, s) >= 1.0 then Refused(CostInvalid)
    else
      var limit := LimitPrice(c, s, reference, tick);
      if (if c.long then limit < reference else limit > reference) then Refused(NotMarketable)
      else
        var q := QualityAt(c, s, limit);
        if q.None? then Refused(LimitOutside)
        else if q.value.enforced < Minimum(c, s) then Refused(LimitBelowMinimum)
        else Limit(limit, q.value, s.maxAdverseBps)
  }

  function AdverseBps(long: bool, reference: real, fill: real): real
    requires reference > 0.0
  {
    (if long then fill - reference else reference - fill) / reference * 10000.0
  }

  // ---------------------------------------------------------------- arithmetic

  lemma ProductAtLeast(q: real, b: real, m: real, a: real)
    requires b > 0.0 && q * b == a
    ensures q >= m <==> a >= m * b
  {
    if q >= m { Scaling(m, q, b); } else { StrictScaling(q, m, b); }
  }

  lemma QuotientAtLeast(a: real, b: real, m: real)
    requires b > 0.0
    ensures a / b >= m <==> a >= m * b
  {
    ProductAtLeast(a / b, b, m, a);
  }

  /** Dividing numerator and denominator of the net ratio by the price changes nothing. */
  lemma NetRatio(risk: real, reward: real, price: real, cost: real, m: real)
    requires price > 0.0 && risk > 0.0 && cost >= 0.0
    ensures risk / price + cost > 0.0
    ensures (reward / price - cost) / (risk / price + cost) >= m <==> reward - cost * price >= m * (risk + cost * price)
  {
    var a, b := reward / price, risk / price;
    assert a * price == reward && b * price == risk;
    QuotientAtLeast(a - cost, b + cost, m);
    Rescale(a - cost, m * (b + cost), price);
    assert (a - cost) * price == reward - cost * price;
    assert (m * (b + cost)) * price == m * ((b + cost) * price);
    assert (b + cost) * price == risk + cost * price;
  }

  lemma Rescale(x: real, y: real, b: real)
    requires b > 0.0
    ensures x >= y <==> x * b >= y * b
  {
    if x >= y { Scaling(y, x, b); } else { StrictScaling(x, y, b); }
  }

  /** The weighed price at which reward and risk balance, before the boundary divides it out. */
  function Balance(c: Candidate, s: Settings, price: real): real
    requires ValidSettings(s)
  {
    var m, k := Minimum(c, s), CostOf(c, s);
    if c.long then price * (1.0 + k) * (1.0 + m) else price * (1.0 - k) * (1.0 + m)
  }

  predicate Inside(c: Candidate, s: Settings, price: real)
    requires ValidSettings(s)
  {
    if c.long then Balance(c, s, price) <= Target(c, s) else Balance(c, s, price) >= Target(c, s)
  }

  lemma BalanceExpands(c: Candidate, s: Settings, price: real)
    requires ValidSettings(s)
    ensures var m, k := Minimum(c, s), CostOf(c, s);
      Inside(c, s, price) <==> RewardAt(c, price) - k * price >= m * (RiskAt(c, price) + k * price)
  {
    var m, k := Minimum(c, s), CostOf(c, s);
    if c.long {
      assert Balance(c, s, price) == price + k * price + m * price + m * (k * price);
      assert m * (RiskAt(c, price) + k * price) == m * price - m * c.stopLoss + m * (k * price);
    } else {
      assert Balance(c, s, price) == price - k * price + m * price - m * (k * price);
      assert m * (RiskAt(c, price) + k * price) == m * c.stopLoss - m * price + m * (k * price);
    }
  }

  lemma PositiveSides(risk: real, reward: real, price: real, cost: real, m: real)
    requires price > 0.0 && risk > 0.0 && cost >= 0.0 && m > 0.0
    requires reward - cost * price >= m * (risk + cost * price)
    ensures reward > 0.0 && reward / price > cost
  {
    assert cost * price >= 0.0;
    assert m * (risk + cost * price) > 0.0;
    assert reward > cost * price;
    if reward / price <= cost { Scaling(reward / price, cost, price); }
  }

  lemma EnforcedMeans(c: Candidate, s: Settings, price: real)
    requires ValidSettings(s) && price > 0.0 && RiskAt(c, price) > 0.0
    requires RewardAt(c, price) > 0.0 && RewardAt(c, price) / price > CostOf(c, s)
    ensures var m, k := Minimum(c, s), CostOf(c, s);
      && QualityAt(c, s, price).Some?
      && (QualityAt(c, s, price).value.enforced >= m <==>
            RewardAt(c, price) - k * price >= m * (RiskAt(c, price) + k * price))
  {
    var m, k := Minimum(c, s), CostOf(c, s);
    var risk, reward := RiskAt(c, price), RewardAt(c, price);
    if c.structural { NetRatio(risk, reward, price, k, m); } else { QuotientAtLeast(reward, risk, m); }
  }

  /**
   The closed form is exact: at any positive price strictly on the right side of the stop, the
   reward/risk requirement is met if and only if the price balances inside the target.
   */
  lemma AcceptableExactlyInside(c: Candidate, s: Settings, price: real)
    requires ValidSettings(s) && price > 0.0 && RiskAt(c, price) > 0.0
    ensures Acceptable(c, s, price) <==> Inside(c, s, price)
  {
    var m, k := Minimum(c, s), CostOf(c, s);
    CostRange(c, s);
    BalanceExpands(c, s, price);
    if Inside(c, s, price) { PositiveSides(RiskAt(c, price), RewardAt(c, price), price, k, m); }
    if RewardAt(c, price) > 0.0 && RewardAt(c, price) / price > k { EnforcedMeans(c, s, price); }
  }

  lemma CostRange(c: Candidate, s: Settings)
    requires ValidSettings(s)
    ensures 0.0 <= CostOf(c, s) < 1.0 && Minimum(c, s) > 0.0
  { }

  /** Dividing a target by two positive factors, as a comparison with a price. */
  lemma TwoDivisions(t: real, g: real, f: real, price: real)
    requires g > 0.0 && f > 0.0
    ensures price <= Divide(Divide(t, g), f) <==> price * f * g <= t
    ensures price >= Divide(Divide(t, g), f) <==> price * f * g >= t
  {
    var w := t / g;
    var b := w / f;
    assert w * g == t && b * f == w;
    Rescale(price, b, f);
    Rescale(b, price, f);
    Rescale(price * f, w, g);
    Rescale(w, price * f, g);
  }

  lemma BoundaryIsBalance(c: Candidate, s: Settings, price: real)
    requires ValidSettings(s)
    ensures Better(c, price, RatioBoundary(c, s)) <==> Inside(c, s, price)
  {
    var m, k := Minimum(c, s), CostOf(c, s);
    CostRange(c, s);
    if c.long {
      TwoDivisions(Target(c, s), 1.0 + m, 1.0 + k, price);
    } else {
      TwoDivisions(Target(c, s), 1.0 + m, 1.0 - k, price);
    }
  }

  // ---------------------------------------------------------------- ticks

  function Steps(n: int, tick: real): real { n as real * tick }

  ghost predicate Aligned(x: real, tick: real) { exists n: int :: x == Steps(n, tick) }

  /** Of all steps at or below y ticks, `k` is the last. */
  lemma GridBelow(k: real, n: real, y: real, tick: real, x: real)
    requires tick > 0.0 && x == y * tick && k <= y && (n <= y ==> n <= k)
    ensures k * tick <= x && (n * tick <= x ==> n * tick <= k * tick)
  {
    Scaling(k, y, tick);
    if n <= y { Scaling(n, k, tick); } else { StrictScaling(y, n, tick); }
  }

  lemma GridAbove(k: real, n: real, y: real, tick: real, x: real)
    requires tick > 0.0 && x == y * tick && k >= y && (n >= y ==> n >= k)
    ensures k * tick >= x && (n * tick >= x ==> n * tick >= k * tick)
  {
    Scaling(y, k, tick);
    if n >= y { Scaling(k, n, tick); } else { StrictScaling(n, y, tick); }
  }

  lemma FloorIsGreatest(y: real, n: int)
    requires n as real <= y
    ensures n <= y.Floor
  { }

  lemma FloorIsBest(x: real, tick: real, n: int)
    requires tick > 0.0
    ensures FloorTo(x, tick) <= x && Aligned(FloorTo(x, tick), tick)
    ensures Steps(n, tick) <= x ==> Steps(n, tick) <= FloorTo(x, tick)
  {
    var y := x / tick;
    if n as real <= y { FloorIsGreatest(y, n); }
    GridBelow(y.Floor as real, n as real, y, tick, x);
  }

  lemma CeilingIsLeast(y: real, n: int)
    requires n as real >= y
    ensures n >= -((-y).Floor)
  {
    assert -y >= (-n) as real;
  }

  lemma CeilIsBest(x: real, tick: real, n: int)
    requires tick > 0.0
    ensures CeilTo(x, tick) >= x && Aligned(CeilTo(x, tick), tick)
    ensures Steps(n, tick) >= x ==> Steps(n, tick) >= CeilTo(x, tick)
  {
    var y := x / tick;
    if n as real >= y { CeilingIsLeast(y, n); }
    GridAbove((-((-y).Floor)) as real, n as real, y, tick, x);
  }

  // ---------------------------------------------------------------- main results

  predicate Better(c: Candidate, a: real, b: real) { if c.long then a <= b else a >= b }

  /** Inside both the reward/risk and the slippage boundary. */
  predicate Allowed(c: Candidate, s: Settings, reference: real, price: real)
    requires ValidSettings(s)
  {
    Better(c, price, RatioBoundary(c, s)) && Better(c, price, SlippageBoundary(c, s, reference))
  }

  /** A price at which the order would trade against the reference quote. */
  predicate MarketableAt(c: Candidate, reference: real, price: real) { Better(c, reference, price) }

  lemma LimitIsBest(c: Candidate, s: Settings, reference: real, tick: real, n: int)
    requires ValidSettings(s) && tick > 0.0
    ensures var l := LimitPrice(c, s, reference, tick);
      && Aligned(l, tick) && Allowed(c, s, reference, l)
      && (Allowed(c, s, reference, Steps(n, tick)) ==> Better(c, Steps(n, tick), l))
  {
    if c.long {
      FloorIsBest(RawLimit(c, s, reference), tick, n);
    } else {
      CeilIsBest(RawLimit(c, s, reference), tick, n);
    }
  }

  lemma LimitPositive(c: Candidate, s: Settings, reference: real, tick: real)
    requires ValidSettings(s) && tick > 0.0 && reference > 0.0
    requires MarketableAt(c, reference, LimitPrice(c, s, reference, tick))
    ensures LimitPrice(c, s, reference, tick) > 0.0
  {
    LimitIsBest(c, s, reference, tick, 0);
    if !c.long { SlippagePositive(c, s, reference); }
  }

  lemma SlippagePositive(c: Candidate, s: Settings, reference: real)
    requires ValidSettings(s) && reference > 0.0
    ensures SlippageBoundary(c, s, reference) > 0.0
  {
    var share := if c.long then 1.0 + s.maxAdverseBps / 10000.0 else 1.0 - s.maxAdverseBps / 10000.0;
    StrictScaling(0.0, share, reference);
  }

  /** A usable reference: positive inputs and a reference price that itself meets the requirement. */
  predicate Usable(c: Candidate, s: Settings, reference: real, tick: real)
    requires ValidSettings(s)
  {
    reference > 0.0 && tick > 0.0 && Acceptable(c, s, reference)
  }

  /**
   The two re-checks at the end can never refuse: on a usable reference the order is priced exactly
   when the best aligned limit is marketable, and otherwise refused for that reason alone.
   */
  lemma PricedExactlyWhenMarketable(c: Candidate, s: Settings, reference: real, tick: real)
    requires ValidSettings(s)
    ensures var x := BoundedPrice(c, s, reference, tick);
      && (x.Limit? <==> Usable(c, s, reference, tick) && MarketableAt(c, reference, LimitPrice(c, s, reference, tick)))
      && (x.Limit? ==> x.price == LimitPrice(c, s, reference, tick) && Acceptable(c, s, x.price))
      && (x.Refused? ==> x.why != LimitOutside && x.why != LimitBelowMinimum && x.why != CostInvalid)
  {
    if Usable(c, s, reference, tick) {
      var l := LimitPrice(c, s, reference, tick);
      if MarketableAt(c, reference, l) {
        LimitPositive(c, s, reference, tick);
        LimitIsBest(c, s, reference, tick, 0);
        BoundaryIsBalance(c, s, l);
        AcceptableExactlyInside(c, s, l);
      }
    }
  }

  /** A limit is found whenever some aligned price inside both boundaries is marketable at the reference. */
  lemma FoundWheneverOneExists(c: Candidate, s: Settings, reference: real, tick: real, n: int)
    requires ValidSettings(s) && Usable(c, s, reference, tick)
    requires Allowed(c, s, reference, Steps(n, tick)) && MarketableAt(c, reference, Steps(n, tick))
    ensures var x := BoundedPrice(c, s, reference, tick); x.Limit? && Better(c, Steps(n, tick), x.price)
  {
    LimitIsBest(c, s, reference, tick, n);
    PricedExactlyWhenMarketable(c, s, reference, tick);
  }

  lemma SlippageMeans(c: Candidate, s: Settings, reference: real, fill: real)
    requires reference > 0.0
    ensures AdverseBps(c.long, reference, fill) <= s.maxAdverseBps
       <==> Better(c, fill, SlippageBoundary(c, s, reference))
  {
    var k := s.maxAdverseBps / 10000.0;
    var d := if c.long then fill - reference else reference - fill;
    ProductAtLeast(-(d / reference), reference, -k, -d);
    assert AdverseBps(c.long, reference, fill) == d / reference * 10000.0;
    if c.long { assert reference * (1.0 + k) == reference + k * reference; }
    else { assert reference * (1.0 - k) == reference - k * reference; }
  }

  /**
   Every positive fill at the limit or better, still on the right side of the stop, meets the
   reward/risk floor and the slippage cap.
   */
  lemma FillsAreGood(c: Candidate, s: Settings, reference: real, tick: real, fill: real)
    requires ValidSettings(s) && BoundedPrice(c, s, reference, tick).Limit?
    requires fill > 0.0 && RiskAt(c, fill) > 0.0 && Better(c, fill, BoundedPrice(c, s, reference, tick).price)
    ensures Acceptable(c, s, fill)
    ensures AdverseBps(c.long, reference, fill) <= s.maxAdverseBps
  {
    PricedExactlyWhenMarketable(c, s, reference, tick);
    LimitIsBest(c, s, reference, tick, 0);
    BoundaryIsBalance(c, s, fill);
    AcceptableExactlyInside(c, s, fill);
    SlippageMeans(c, s, reference, fill);
  }

  // ---------------------------------------------------------------- the same in plain numbers

  /** The cost share and the required ratio of a candidate. */
  predicate Terms(c: Candidate, s: Settings, cost: real, ratio: real) {
    if c.structural then 10000.0 * cost == s.feeBps + s.slippageBps + s.fundingBps && ratio == s.minNetRatio
    else cost == 0.0 && ratio == s.minGrossRatio
  }

  /** After costs, what is won at the target is at least `ratio` times what is lost at the stop. */
  predicate Worthwhile(c: Candidate, cost: real, ratio: real, price: real) {
    if c.long then c.takeProfit - price - cost * price >= ratio * (price - c.stopLoss + cost * price)
    else price - c.takeProfit - cost * price >= ratio * (c.stopLoss - price + cost * price)
  }

  /** At most the allowed basis points worse than the reference. */
  predicate NearEnough(c: Candidate, s: Settings, reference: real, price: real) {
    10000.0 * (if c.long then price - reference else reference - price) <= s.maxAdverseBps * reference
  }

  /** `a` trades no worse than `b` for the candidate. */
  predicate NotBeyond(c: Candidate, a: real, b: real) { if c.long then a <= b else b <= a }

  lemma TermsAre(c: Candidate, s: Settings, cost: real, ratio: real)
    requires Terms(c, s, cost, ratio)
    ensures cost == CostOf(c, s) && ratio == Minimum(c, s)
  { }

  lemma InsideIsWorthwhile(c: Candidate, s: Settings, price: real)
    requires ValidSettings(s)
    ensures Inside(c, s, price) <==> Worthwhile(c, CostOf(c, s), Minimum(c, s), price)
  {
    BalanceExpands(c, s, price);
  }

  lemma AcceptableIsWorthwhile(c: Candidate, s: Settings, price: real)
    requires ValidSettings(s)
    ensures Acceptable(c, s, price) <==> GoodReference(c, CostOf(c, s), Minimum(c, s), price)
  {
    if price > 0.0 && RiskAt(c, price) > 0.0 {
      AcceptableExactlyInside(c, s, price);
      InsideIsWorthwhile(c, s, price);
    }
  }

  lemma WorthwhileExactly(c: Candidate, s: Settings, price: real, cost: real, ratio: real)
    requires ValidSettings(s) && Terms(c, s, cost, ratio)
    ensures Better(c, price, RatioBoundary(c, s)) <==> Worthwhile(c, cost, ratio, price)
  {
    TermsAre(c, s, cost, ratio);
    BoundaryIsBalance(c, s, price);
    InsideIsWorthwhile(c, s, price);
  }

  lemma NearExactly(c: Candidate, s: Settings, reference: real, price: real)
    ensures Better(c, price, SlippageBoundary(c, s, reference)) <==> NearEnough(c, s, reference, price)
  {
    var k := s.maxAdverseBps / 10000.0;
    assert 10000.0 * (k * reference) == s.maxAdverseBps * reference;
    if c.long { assert reference * (1.0 + k) == reference + k * reference; }
    else { assert reference * (1.0 - k) == reference - k * reference; }
  }

  lemma AllowedExactly(c: Candidate, s: Settings, reference: real, price: real, cost: real, ratio: real)
    requires ValidSettings(s) && Terms(c, s, cost, ratio)
    ensures Allowed(c, s, reference, price)
       <==> Worthwhile(c, cost, ratio, price) && NearEnough(c, s, reference, price)
  {
    WorthwhileExactly(c, s, price, cost, ratio);
    NearExactly(c, s, reference, price);
  }

  /** A reference on the right side of the stop from which the trade is worthwhile. */
  predicate GoodReference(c: Candidate, cost: real, ratio: real, reference: real) {
    && reference > 0.0 && (if c.long then reference > c.stopLoss else reference < c.stopLoss)
    && Worthwhile(c, cost, ratio, reference)
  }

  lemma UsableExactly(c: Candidate, s: Settings, reference: real, tick: real, cost: real, ratio: real)
    requires ValidSettings(s) && Terms(c, s, cost, ratio)
    ensures Usable(c, s, reference, tick) <==> tick > 0.0 && GoodReference(c, cost, ratio, reference)
  {
    TermsAre(c, s, cost, ratio);
    AcceptableIsWorthwhile(c, s, reference);
  }

  /** A price at the reference or beyond that is worthwhile and near enough. */
  predicate Suits(c: Candidate, s: Settings, cost: real, ratio: real, reference: real, price: real) {
    NotBeyond(c, reference, price) && Worthwhile(c, cost, ratio, price) && NearEnough(c, s, reference, price)
  }

  /**
   The price in plain numbers: a limit is found exactly when the reference is good and some multiple of the tick at
   the reference or beyond is worthwhile and near enough; and then it is the furthest such multiple.
   */
  lemma PricedInNumbers(c: Candidate, s: Settings, reference: real, tick: real, cost: real, ratio: real, n: int)
    requires ValidSettings(s) && Terms(c, s, cost, ratio)
    ensures var x := BoundedPrice(c, s, reference, tick); var p := n as real * tick;
      && (x.Limit? ==>
            && tick > 0.0 && GoodReference(c, cost, ratio, reference) && Suits(c, s, cost, ratio, reference, x.price)
            && (exists k: int :: x.price == Steps(k, tick)) && x.maxAdverseBps == s.maxAdverseBps)
      && (tick > 0.0 && GoodReference(c, cost, ratio, reference) && Suits(c, s, cost, ratio, reference, p) ==>
            x.Limit? && NotBeyond(c, p, x.price))
  {
    UsableExactly(c, s, reference, tick, cost, ratio);
    PricedExactlyWhenMarketable(c, s, reference, tick);
    if tick > 0.0 {
      var l := LimitPrice(c, s, reference, tick);
      LimitIsBest(c, s, reference, tick, n);
      AllowedExactly(c, s, reference, l, cost, ratio);
      AllowedExactly(c, s, reference, Steps(n, tick), cost, ratio);
    }
  }

  /** Every fill at the limit or better, on the right side of the stop, is worthwhile and near enough. */
  lemma FillsInNumbers(c: Candidate, s: Settings, reference: real, tick: real, fill: real, cost: real, ratio: real)
    requires ValidSettings(s) && Terms(c, s, cost, ratio) && BoundedPrice(c, s, reference, tick).Limit?
    requires NotBeyond(c, fill, BoundedPrice(c, s, reference, tick).price)
    ensures Worthwhile(c, cost, ratio, fill) && NearEnough(c, s, reference, fill)
  {
    PricedExactlyWhenMarketable(c, s, reference, tick);
    LimitIsBest(c, s, reference, tick, 0);
    AllowedExactly(c, s, reference, fill, cost, ratio);
  }

  /** The reported quality, multiplied out: the gross ratio, and the ratio after costs. */
  lemma QualityInNumbers(c: Candidate, s: Settings, price: real, cost: real, ratio: real, risk: real, reward: real)
    requires ValidSettings(s) && Terms(c, s, cost, ratio) && QualityAt(c, s, price).Some?
    requires risk == (if c.long then price - c.stopLoss else c.stopLoss - price)
    requires reward == if c.long then c.takeProfit - price else price - c.takeProfit
    ensures var q := QualityAt(c, s, price).value;
      && price > 0.0 && risk > 0.0 && q.price == price && q.cost == cost && q.minimum == ratio
      && q.gross * risk == reward && q.net * (risk + cost * price) == reward - cost * price
      && q.enforced == if c.structural then q.net else q.gross
  {
    TermsAre(c, s, cost, ratio);
    CostRange(c, s);
    NetTimes(risk, reward, price, cost);
  }

  lemma NetTimes(risk: real, reward: real, price: real, cost: real)
    requires price > 0.0 && risk > 0.0 && cost >= 0.0
    ensures risk / price + cost > 0.0
    ensures (reward / price - cost) / (risk / price + cost) * (risk + cost * price) == reward - cost * price
  {
    var a, b := reward / price, risk / price;
    assert a * price == reward && b * price == risk;
    var q := (a - cost) / (b + cost);
    assert q * (b + cost) == a - cost;
    assert q * (b + cost) * price == q * (risk + cost * price);
    assert (a - cost) * price == reward - cost * price;
  }
}
