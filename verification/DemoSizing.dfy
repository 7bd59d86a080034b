/**
 Sizing of one Demo order: `build_demo_capital_bucket_plan`, the quantity part of `evaluate_risk`,
 `_contracts_from_base_quantity` and the budget re-checks of `_process_symbol`, with score risk
 enabled and over exact reals.
 */
module DemoSizing {
  import opened Options
  import opened Reals

  datatype Budget = Budget(
    maxRisk: real, maxMargin: real, bucket: Option<real>, maxOpen: nat, orderCap: real, maxContracts: real)

  predicate ValidBudget(g: Budget) {
    && g.maxRisk > 0.0 && g.maxMargin > 0.0 && (g.bucket.Some? ==> g.bucket.value > 0.0) && g.maxOpen >= 1
    && g.orderCap > 0.0 && g.maxContracts > 0.0
  }

  datatype Instrument = Instrument(lot: real, minSize: real, contractValue: Option<real>, baseQuoted: bool)

  /** One priced candidate: `limit` is the bounded order price, `reference` the quote it was priced from. */
  datatype Ticket = Ticket(
    limit: real, reference: real, stop: real, cost: real, tierRisk: real, tierMargin: real, leverage: nat,
    minQuantity: real, otherReasons: bool, instrument: Instrument)

  /** What the earlier stages guarantee about a ticket. */
  predicate ValidTicket(t: Ticket) {
    && t.limit > 0.0 && t.reference > 0.0 && t.stop != t.limit && t.cost >= 0.0
    && t.tierRisk > 0.0 && t.tierMargin > 0.0
    && t.leverage >= 1 && t.minQuantity > 0.0 && t.instrument.lot > 0.0
  }

  datatype Trade = Trade(riskPct: real, marginPct: real, margin: real, marginCap: Option<real>, legacy: bool)

  datatype Block =
    | LegacyTrade | LimitReached | RiskSpent | EquitySpent | MarginSpent | EngineRejected
    | ContractValueMissing | CurrencyUnsupported | BelowMinimum | ZeroContracts
    | OverNotional | OverPortfolioRisk | OverBucket | OverPortfolioMargin

  datatype Outcome = Blocked(why: Block) | Reserved(trade: Trade, contracts: real, notional: real)

  function RiskUsed(ps: seq<Trade>): real {
    if ps == [] then 0.0 else RiskUsed(ps[..|ps| - 1]) + Max(0.0, ps[|ps| - 1].riskPct)
  }

  function MarginUsed(ps: seq<Trade>): real {
    if ps == [] then 0.0 else MarginUsed(ps[..|ps| - 1]) + Max(0.0, ps[|ps| - 1].marginPct)
  }

  // ---------------------------------------------------------------- capital buckets

  datatype Plan = Plan(target: real, cap: real, slots: int, limit: int)

  /** At or below one bucket the account is one slot; above it only whole buckets count. */
  function BucketPlan(equity: real, available: real, bucket: real, maxOpen: nat): (p: Plan)
    requires equity > 0.0 && available >= 0.0 && bucket > 0.0 && maxOpen >= 1
    ensures p.cap <= p.target <= bucket && p.cap <= available && p.target <= equity
    ensures 1 <= p.limit <= maxOpen && p.slots as real * p.target <= equity
  {
    var usable := Min(equity, available);
    if equity <= bucket then Plan(equity, Min(equity, usable), 1, 1)
    else
      var slots := (equity / bucket).Floor;
      WholeBuckets(equity, bucket);
      Plan(bucket, Min(bucket, usable), slots, if maxOpen <= slots then maxOpen else slots)
  }

  lemma AboveOne(q: real, b: real, a: real)
    requires b > 0.0 && q * b == a && a >= b
    ensures q >= 1.0
  {
    if q < 1.0 { Scaling(0.0, 1.0 - q, b); }
  }

  lemma WholeBuckets(equity: real, bucket: real)
    requires 0.0 < bucket < equity
    ensures (equity / bucket).Floor >= 1 && (equity / bucket).Floor as real * bucket <= equity
  {
    var q := equity / bucket;
    assert q * bucket == equity;
    AboveOne(q, bucket, equity);
    Scaling(q.Floor as real, q, bucket);
  }

  function PositionLimit(g: Budget, equity: real): int
    requires ValidBudget(g) && equity > 0.0
  {
    if g.bucket.Some? then BucketPlan(equity, equity, g.bucket.value, g.maxOpen).limit else g.maxOpen
  }

  // ---------------------------------------------------------------- the pieces of the size

  function RequestedRisk(g: Budget, t: Ticket, openRisk: real): real {
    Min(t.tierRisk, Max(0.0, g.maxRisk - openRisk))
  }

  function MarginRoom(g: Budget, t: Ticket, openMargin: real): real {
    Min(t.tierMargin, Max(0.0, g.maxMargin - openMargin))
  }

  /** The notional that margin allows, before the global cap and the available equity. */
  function MarginNotional(g: Budget, t: Ticket, equity: real, available: real, openMargin: real): real
    requires ValidBudget(g) && equity > 0.0 && available >= 0.0
  {
    if g.bucket.Some?
    then Min(BucketPlan(equity, available, g.bucket.value, g.maxOpen).cap * t.leverage as real, g.orderCap)
    else equity * MarginRoom(g, t, openMargin) * t.leverage as real
  }

  function MaxNotional(g: Budget, t: Ticket, equity: real, available: real, openMargin: real): real
    requires ValidBudget(g) && equity > 0.0 && available >= 0.0
  {
    Min(Min(g.orderCap, MarginNotional(g, t, equity, available, openMargin)), available * t.leverage as real)
  }

  /** Stop distance plus round-trip cost, per unit, at the sizing price. */
  function RiskDistance(t: Ticket): real { Abs(t.limit - t.stop) + t.limit * t.cost }

  const QUANTUM: real := 100000000.0

  function Truncate(x: real): real { (x * QUANTUM).Floor as real / QUANTUM }

  /** The risk engine's quantity; zero when it is below the minimum. */
  function Quantity(t: Ticket, equity: real, risk: real, maxNotional: real): (q: real)
    requires ValidTicket(t)
  {
    RiskDistancePositive(t);
    var q := Truncate(Min(equity * risk / RiskDistance(t), maxNotional / t.limit));
    if q < t.minQuantity then 0.0 else q
  }

  function RoundedContracts(t: Ticket, base: real, contractValue: real): real
    requires ValidTicket(t) && contractValue > 0.0
  {
    (base / contractValue / t.instrument.lot).Floor as real * t.instrument.lot
  }

  function SizingPrice(t: Ticket): real { Max(t.reference, t.limit) }

  function Notional(t: Ticket, base: real): real { base * SizingPrice(t) }

  function MarginOf(t: Ticket, notional: real): real
    requires t.leverage >= 1
  {
    notional / t.leverage as real
  }

  function RiskOf(t: Ticket, base: real, equity: real): real
    requires equity > 0.0
  {
    (base * Abs(t.limit - t.stop) + Notional(t, base) * t.cost) / equity
  }

  /** The order after lot rounding, and the budget re-checks in their order. */
  function Rechecked(g: Budget, t: Ticket, equity: real, openRisk: real, openMargin: real, maxNotional: real,
                     cap: Option<real>, contracts: real, contractValue: real): Outcome
    requires t.leverage >= 1 && equity > 0.0
  {
    var base := contracts * contractValue;
    var notional := Notional(t, base);
    var margin := MarginOf(t, notional);
    Decision(g, openRisk, openMargin, maxNotional, cap, contracts, notional, margin, margin / equity,
             RiskOf(t, base, equity))
  }

  /** The four re-checks, in the order of the source. */
  function Decision(g: Budget, openRisk: real, openMargin: real, maxNotional: real, cap: Option<real>, contracts: real,
                    notional: real, margin: real, share: real, risk: real): Outcome {
    if notional > maxNotional then Blocked(OverNotional)
    else if openRisk + risk > g.maxRisk then Blocked(OverPortfolioRisk)
    else if cap.Some? && margin > cap.value then Blocked(OverBucket)
    else if cap.None? && openMargin + share > g.maxMargin then Blocked(OverPortfolioMargin)
    else Reserved(Trade(risk, share, margin, cap, false), contracts, notional)
  }

  function MarginCap(g: Budget, equity: real, available: real): Option<real>
    requires ValidBudget(g) && equity > 0.0 && available >= 0.0
  {
    if g.bucket.Some? then Some(BucketPlan(equity, available, g.bucket.value, g.maxOpen).cap) else None
  }

  /** From the remaining budgets to a reservation, as `_process_symbol` goes. */
  function Size(g: Budget, t: Ticket, equity: real, available: real, ps: seq<Trade>): Outcome
    requires ValidBudget(g) && ValidTicket(t) && equity > 0.0 && available >= 0.0
  {
    var openRisk, openMargin := RiskUsed(ps), MarginUsed(ps);
    var risk := RequestedRisk(g, t, openRisk);
    if exists i :: 0 <= i < |ps| && ps[i].legacy then Blocked(LegacyTrade)
    else if |ps| >= PositionLimit(g, equity) then Blocked(LimitReached)
    else if risk <= 0.0 then Blocked(RiskSpent)
    else if g.bucket.Some? && BucketPlan(equity, available, g.bucket.value, g.maxOpen).cap <= 0.0
    then Blocked(EquitySpent)
    else if g.bucket.None? && MarginRoom(g, t, openMargin) <= 0.0 then Blocked(MarginSpent)
    else
      var maxNotional := MaxNotional(g, t, equity, available, openMargin);
      if maxNotional <= 0.0 then Blocked(EquitySpent)
      else
        var q := Quantity(t, equity, risk, maxNotional);
        if t.otherReasons || q <= 0.0 then Blocked(EngineRejected)
        else if t.instrument.contractValue.None? || t.instrument.contractValue.value <= 0.0
        then Blocked(ContractValueMissing)
        else if !t.instrument.baseQuoted then Blocked(CurrencyUnsupported)
        else
          var v := t.instrument.contractValue.value;
          var contracts := Min(RoundedContracts(t, q, v), g.maxContracts);
          if contracts < t.instrument.minSize then Blocked(BelowMinimum)
          else if contracts <= 0.0 then Blocked(ZeroContracts)
          else Rechecked(g, t, equity, openRisk, openMargin, maxNotional, MarginCap(g, equity, available), contracts, v)
  }

  // ---------------------------------------------------------------- arithmetic of the pieces

  lemma RiskDistancePositive(t: Ticket)
    requires ValidTicket(t)
    ensures RiskDistance(t) > 0.0
  {
    assert t.limit * t.cost >= 0.0;
  }

  lemma TruncateBelow(x: real)
    ensures Truncate(x) <= x
  {
    var y := x * QUANTUM;
    assert Truncate(x) == y.Floor as real / QUANTUM;
    assert x == y / QUANTUM;
  }

  /** Multiplying back a quotient bound. */
  lemma BelowQuotient(q: real, a: real, b: real)
    requires b > 0.0 && q <= a / b
    ensures q * b <= a
  {
    var c := a / b;
    assert c * b == a;
    Scaling(q, c, b);
  }

  lemma QuantityBounds(t: Ticket, equity: real, risk: real, maxNotional: real)
    requires ValidTicket(t) && Quantity(t, equity, risk, maxNotional) > 0.0
    ensures var q := Quantity(t, equity, risk, maxNotional);
      q * RiskDistance(t) <= equity * risk && q * t.limit <= maxNotional
  {
    RiskDistancePositive(t);
    var q := Quantity(t, equity, risk, maxNotional);
    var a, b := equity * risk / RiskDistance(t), maxNotional / t.limit;
    TruncateBelow(Min(a, b));
    BelowQuotient(q, equity * risk, RiskDistance(t));
    BelowQuotient(q, maxNotional, t.limit);
  }

  lemma RoundingShrinks(t: Ticket, base: real, v: real)
    requires ValidTicket(t) && v > 0.0
    ensures RoundedContracts(t, base, v) * v <= base
  {
    var lot := t.instrument.lot;
    var raw := base / v;
    assert raw * v == base;
    var steps := raw / lot;
    assert steps * lot == raw;
    Scaling(steps.Floor as real, steps, lot);
    Scaling(RoundedContracts(t, base, v), raw, v);
  }

  // ---------------------------------------------------------------- re-checks at or above the reference

  predicate RecheckBlock(b: Block) {
    b.OverNotional? || b.OverPortfolioRisk? || b.OverBucket? || b.OverPortfolioMargin?
  }

  lemma AtMostQuotient(x: real, a: real, d: real)
    requires d > 0.0 && x * d <= a
    ensures x <= a / d
  {
    AtMostFactor(x, a / d, d, a);
  }

  lemma AtMostFactor(x: real, q: real, d: real, a: real)
    requires d > 0.0 && q * d == a && x * d <= a
    ensures x <= q
  {
    if x > q { StrictScaling(q, x, d); }
  }

  lemma TruncateKeepsGrid(x: real, n: int)
    requires n as real / QUANTUM <= x
    ensures n as real / QUANTUM <= Truncate(x)
  {
    assert n as real <= x * QUANTUM;
    assert n <= (x * QUANTUM).Floor;
  }

  /** Of all quantities on the grid that respect the risk budget and the notional cap, the engine takes the largest. */
  lemma QuantityIsLargest(t: Ticket, equity: real, risk: real, maxNotional: real, n: int)
    requires ValidTicket(t) && n as real / QUANTUM >= t.minQuantity
    requires n as real / QUANTUM * RiskDistance(t) <= equity * risk && n as real / QUANTUM * t.limit <= maxNotional
    ensures n as real / QUANTUM <= Quantity(t, equity, risk, maxNotional)
  {
    RiskDistancePositive(t);
    var x := n as real / QUANTUM;
    AtMostQuotient(x, equity * risk, RiskDistance(t));
    AtMostQuotient(x, maxNotional, t.limit);
    TruncateKeepsGrid(Min(equity * risk / RiskDistance(t), maxNotional / t.limit), n);
  }

  /** Of all whole lots worth no more than the approved quantity, rounding takes the most. */
  lemma LotsAreLargest(t: Ticket, base: real, v: real, n: int)
    requires ValidTicket(t) && v > 0.0 && n as real * t.instrument.lot * v <= base
    ensures n as real * t.instrument.lot <= RoundedContracts(t, base, v)
  {
    var lot := t.instrument.lot;
    AtMostQuotient(n as real * lot, base, v);
    AtMostQuotient(n as real, base / v, lot);
    WholeSteps(base / v / lot, n);
    Scaling(n as real, (base / v / lot).Floor as real, lot);
  }

  lemma WholeSteps(y: real, n: int)
    requires n as real <= y
    ensures n <= y.Floor
  { }

  lemma SizeIsSized(g: Budget, t: Ticket, equity: real, risk: real, maxNotional: real, contracts: real, v: real)
    requires ValidTicket(t) && v > 0.0 && contracts > 0.0
    requires var q := Quantity(t, equity, risk, maxNotional); q > 0.0 && contracts <= RoundedContracts(t, q, v)
    ensures var base := contracts * v;
      base >= 0.0 && base * RiskDistance(t) <= equity * risk && base * t.limit <= maxNotional
  {
    var q := Quantity(t, equity, risk, maxNotional);
    QuantityBounds(t, equity, risk, maxNotional);
    RoundingShrinks(t, q, v);
    RiskDistancePositive(t);
    SmallerIsSafer(contracts, RoundedContracts(t, q, v), v, q, contracts * v, RiskDistance(t), equity * risk);
    SmallerIsSafer(contracts, RoundedContracts(t, q, v), v, q, contracts * v, t.limit, maxNotional);
  }

  /** Fewer contracts than the approved quantity stay within whatever that quantity stayed within. */
  lemma SmallerIsSafer(contracts: real, rounded: real, v: real, q: real, base: real, per: real, cap: real)
    requires 0.0 < contracts <= rounded && v > 0.0 && rounded * v <= q && base == contracts * v && per > 0.0
    requires q * per <= cap
    ensures base >= 0.0 && base * per <= cap
  {
    Scaling(0.0, contracts, v);
    Scaling(contracts, rounded, v);
    Scaling(base, q, per);
  }

  lemma QuotientBelow(a: real, b: real, m: real)
    requires b > 0.0 && a <= b * m
    ensures a / b <= m
  {
    ProductBelow(a / b, b, m, a);
  }

  lemma ProductBelow(q: real, b: real, m: real, a: real)
    requires b > 0.0 && q * b == a && a <= b * m
    ensures q <= m
  {
    if q > m { Scaling(0.0, q - m, b); }
  }

  lemma RiskArithmetic(base: real, d: real, p: real, k: real, equity: real, r: real)
    requires equity > 0.0 && base * (d + p * k) <= equity * r
    ensures (base * d + base * p * k) / equity <= r
  {
    assert base * (d + p * k) == base * d + base * p * k;
    QuotientBelow(base * d + base * p * k, equity, r);
  }

  lemma RiskFits(g: Budget, t: Ticket, equity: real, openRisk: real, base: real)
    requires t.reference <= t.limit && equity > 0.0
    requires base * RiskDistance(t) <= equity * RequestedRisk(g, t, openRisk) && RequestedRisk(g, t, openRisk) > 0.0
    ensures openRisk + RiskOf(t, base, equity) <= g.maxRisk
  {
    RiskArithmetic(base, Abs(t.limit - t.stop), t.limit, t.cost, equity, RequestedRisk(g, t, openRisk));
  }

  /** How the notional cap relates to the margin budgets it was computed from. */
  ghost predicate CapsNotional(g: Budget, t: Ticket, equity: real, available: real, openMargin: real,
                               maxNotional: real, cap: Option<real>)
  {
    && maxNotional <= available * t.leverage as real
    && (cap.Some? ==> maxNotional <= cap.value * t.leverage as real)
    && (cap.None? ==> MarginRoom(g, t, openMargin) > 0.0
                      && maxNotional <= equity * MarginRoom(g, t, openMargin) * t.leverage as real)
  }

  lemma MaxNotionalCaps(g: Budget, t: Ticket, equity: real, available: real, openMargin: real)
    requires ValidBudget(g) && equity > 0.0 && available >= 0.0
    requires g.bucket.None? ==> MarginRoom(g, t, openMargin) > 0.0
    ensures CapsNotional(g, t, equity, available, openMargin,
                         MaxNotional(g, t, equity, available, openMargin), MarginCap(g, equity, available))
  { }

  lemma RoomArithmetic(n: real, lev: real, equity: real, room: real)
    requires lev > 0.0 && equity > 0.0 && n <= equity * room * lev
    ensures n / lev / equity <= room
  {
    QuotientBelow(n, lev, equity * room);
    QuotientBelow(n / lev, equity, room);
  }

  lemma MarginFits(g: Budget, t: Ticket, equity: real, available: real, openMargin: real, maxNotional: real,
                   cap: Option<real>, notional: real)
    requires t.leverage >= 1 && equity > 0.0 && notional <= maxNotional
    requires CapsNotional(g, t, equity, available, openMargin, maxNotional, cap)
    ensures MarginOf(t, notional) <= available
    ensures cap.Some? ==> MarginOf(t, notional) <= cap.value
    ensures cap.None? ==> openMargin + MarginOf(t, notional) / equity <= g.maxMargin
  {
    var lev := t.leverage as real;
    QuotientBelow(notional, lev, available);
    if cap.Some? { QuotientBelow(notional, lev, cap.value); }
    else { RoomArithmetic(notional, lev, equity, MarginRoom(g, t, openMargin)); }
  }

  lemma RecheckPasses(g: Budget, t: Ticket, equity: real, available: real, openRisk: real, openMargin: real,
                      maxNotional: real, cap: Option<real>, contracts: real, v: real)
    requires t.leverage >= 1 && equity > 0.0 && t.reference <= t.limit
    requires CapsNotional(g, t, equity, available, openMargin, maxNotional, cap)
    requires var base := contracts * v;
      && base * t.limit <= maxNotional && RequestedRisk(g, t, openRisk) > 0.0
      && base * RiskDistance(t) <= equity * RequestedRisk(g, t, openRisk)
    ensures Rechecked(g, t, equity, openRisk, openMargin, maxNotional, cap, contracts, v).Reserved?
  {
    var base := contracts * v;
    assert Notional(t, base) == base * t.limit;
    RiskFits(g, t, equity, openRisk, base);
    MarginFits(g, t, equity, available, openMargin, maxNotional, cap, Notional(t, base));
  }

  /**
   When the limit is at or above the reference, as it always is for a long candidate, the limit price,
   the engine's quantity and the lot rounding compose so that no budget re-check can fail.
   */
  lemma RechecksAreIdle(g: Budget, t: Ticket, equity: real, available: real, ps: seq<Trade>)
    requires ValidBudget(g) && ValidTicket(t) && equity > 0.0 && available >= 0.0 && t.reference <= t.limit
    ensures var x := Size(g, t, equity, available, ps); x.Blocked? ==> !RecheckBlock(x.why)
  {
    var x := Size(g, t, equity, available, ps);
    if x.Blocked? && RecheckBlock(x.why) {
      var openRisk, openMargin := RiskUsed(ps), MarginUsed(ps);
      var risk := RequestedRisk(g, t, openRisk);
      var maxNotional := MaxNotional(g, t, equity, available, openMargin);
      var q := Quantity(t, equity, risk, maxNotional);
      var v := t.instrument.contractValue.value;
      var contracts := Min(RoundedContracts(t, q, v), g.maxContracts);
      SizeIsSized(g, t, equity, risk, maxNotional, contracts, v);
      MaxNotionalCaps(g, t, equity, available, openMargin);
      RecheckPasses(g, t, equity, available, openRisk, openMargin, maxNotional, MarginCap(g, equity, available),
                    contracts, v);
    }
  }

  // ---------------------------------------------------------------- and can need them below it

  function WitnessBudget(limit: real): Budget { Budget(0.2, 0.8, None, 2, limit, 1000.0) }

  /** One contract of one unit, whose notional cap is exactly one unit at the limit price. */
  function WitnessTicket(limit: real, reference: real, stop: real, cost: real): Ticket {
    Ticket(limit, reference, stop, cost, 0.1, 0.5, 1, 0.00000001, false, Instrument(1.0, 1.0, Some(1.0), true))
  }

  function WitnessEquity(reference: real, distance: real): real { 100.0 * (reference + distance) }

  lemma WitnessQuantity(t: Ticket, distance: real)
    requires ValidTicket(t) && 0.0 < t.limit < t.reference && t.minQuantity <= 1.0 && distance == RiskDistance(t)
    ensures Quantity(t, WitnessEquity(t.reference, distance), 0.1, t.limit) == 1.0
  {
    RiskDistancePositive(t);
    OneFits(WitnessEquity(t.reference, distance) * 0.1, distance,
            WitnessEquity(t.reference, distance) * 0.1 / distance);
    OneUnit(t.limit);
  }

  lemma OneFits(a: real, d: real, q: real)
    requires d > 0.0 && a >= d && q == a / d
    ensures q >= 1.0
  {
    AboveOne(q, d, a);
  }

  lemma OneUnit(limit: real)
    requires limit > 0.0
    ensures limit / limit == 1.0 && Truncate(1.0) == 1.0
  { }

  /** Below the reference the same composition does fail, whatever stop and cost the candidate has. */
  lemma RecheckCanFail(limit: real, reference: real, stop: real, cost: real)
    requires 0.0 < limit < reference && stop != limit && cost >= 0.0
    ensures var t := WitnessTicket(limit, reference, stop, cost);
      var e := WitnessEquity(reference, RiskDistance(t));
      && ValidBudget(WitnessBudget(limit)) && ValidTicket(t) && e > 0.0
      && Size(WitnessBudget(limit), t, e, e, []) == Blocked(OverNotional)
  {
    var g, t := WitnessBudget(limit), WitnessTicket(limit, reference, stop, cost);
    RiskDistancePositive(t);
    var d := RiskDistance(t);
    var e := WitnessEquity(reference, d);
    WitnessQuantity(t, d);
    assert RequestedRisk(g, t, 0.0) == 0.1;
    assert MaxNotional(g, t, e, e, 0.0) == limit;
    assert RoundedContracts(t, 1.0, 1.0) == 1.0;
  }

  /** No budget re-check refuses any ticket at these prices, under any budget, equity and portfolio. */
  ghost predicate RechecksIdle(limit: real, reference: real, stop: real, cost: real) {
    forall g, t, equity, available, ps {:trigger Size(g, t, equity, available, ps)} ::
      ValidBudget(g) && ValidTicket(t) && AtPrices(t, limit, reference, stop, cost) && equity > 0.0 && available >= 0.0
      ==> var x := Size(g, t, equity, available, ps); x.Blocked? ==> !RecheckBlock(x.why)
  }

  predicate AtPrices(t: Ticket, limit: real, reference: real, stop: real, cost: real) {
    t.limit == limit && t.reference == reference && t.stop == stop && t.cost == cost
  }

  /** The exact condition: the limit is not below the reference. */
  lemma RechecksIdleExactly(limit: real, reference: real, stop: real, cost: real)
    requires limit > 0.0 && reference > 0.0 && stop != limit && cost >= 0.0
    ensures RechecksIdle(limit, reference, stop, cost) <==> reference <= limit
  {
    if reference <= limit {
      forall g, t, equity, available, ps |
        && ValidBudget(g) && ValidTicket(t) && AtPrices(t, limit, reference, stop, cost)
        && equity > 0.0 && available >= 0.0
        ensures var x := Size(g, t, equity, available, ps); x.Blocked? ==> !RecheckBlock(x.why)
      {
        RechecksAreIdle(g, t, equity, available, ps);
      }
    } else {
      RecheckCanFail(limit, reference, stop, cost);
    }
  }
}
