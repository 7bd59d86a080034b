/**
 The ranked scan of `SafeDemoAutomation.run_once`: candidates take risk, margin, slots and order
 attempts out of shared budgets, one after another.
 */
module DemoAllocator {
  import opened Options
  import opened Reals
  import opened DemoSizing
  import Pricing = ExecutionPrice

  /** What the exchange does with an order that reached it, or why it did not. */
  datatype Answer = LeverageUnconfirmed | PlaceRaised | NotFilled | Filled | FilledButUnusable

  /** One ranked candidate: `gated` when a check before sizing blocks it, `locked` when a lock is found first. */
  datatype Item = Item(ticket: Ticket, gated: bool, locked: bool, answer: Answer)

  function MarginSum(ps: seq<Trade>): real {
    if ps == [] then 0.0 else MarginSum(ps[..|ps| - 1]) + ps[|ps| - 1].margin
  }

  lemma Appended(ps: seq<Trade>, x: Trade)
    ensures RiskUsed(ps + [x]) == RiskUsed(ps) + Max(0.0, x.riskPct)
    ensures MarginUsed(ps + [x]) == MarginUsed(ps) + Max(0.0, x.marginPct)
    ensures MarginSum(ps + [x]) == MarginSum(ps) + x.margin
  {
    assert (ps + [x])[..|ps|] == ps;
  }

  /** A trade that fits what was left when it was admitted. */
  ghost predicate Fits(g: Budget, equity: real, available: real, ps: seq<Trade>, x: Trade)
    requires ValidBudget(g) && equity > 0.0 && available >= 0.0
  {
    && x.riskPct >= 0.0 && RiskUsed(ps) + x.riskPct <= g.maxRisk
    && 0.0 <= x.margin <= available && |ps| < PositionLimit(g, equity)
    && (g.bucket.Some? ==> x.margin <= BucketPlan(equity, available, g.bucket.value, g.maxOpen).cap)
    && (g.bucket.None? ==> x.marginPct >= 0.0 && MarginUsed(ps) + x.marginPct <= g.maxMargin)
  }

  lemma Nonnegative(a: real, b: real)
    requires a >= 0.0 && b > 0.0
    ensures a / b >= 0.0
  { }

  lemma RecheckFits(g: Budget, t: Ticket, equity: real, available: real, openRisk: real, openMargin: real,
                    maxNotional: real, cap: Option<real>, contracts: real, v: real)
    requires ValidTicket(t) && equity > 0.0 && contracts > 0.0 && v > 0.0
    requires CapsNotional(g, t, equity, available, openMargin, maxNotional, cap)
    requires Rechecked(g, t, equity, openRisk, openMargin, maxNotional, cap, contracts, v).Reserved?
    ensures var x := Rechecked(g, t, equity, openRisk, openMargin, maxNotional, cap, contracts, v).trade;
      && x.riskPct >= 0.0 && openRisk + x.riskPct <= g.maxRisk && 0.0 <= x.margin <= available && x.marginPct >= 0.0
      && (cap.Some? ==> x.margin <= cap.value) && (cap.None? ==> openMargin + x.marginPct <= g.maxMargin)
  {
    var base := contracts * v;
    var notional := Notional(t, base);
    assert base > 0.0;
    Scaling(0.0, base, SizingPrice(t));
    Scaling(0.0, base, Abs(t.limit - t.stop));
    Scaling(0.0, notional, t.cost);
    Nonnegative(base * Abs(t.limit - t.stop) + notional * t.cost, equity);
    Nonnegative(notional, t.leverage as real);
    Nonnegative(MarginOf(t, notional), equity);
    MarginFits(g, t, equity, available, openMargin, maxNotional, cap, notional);
  }

  /** Whatever is reserved fits the risk, margin, slot and bucket budgets, long or short. */
  lemma ReservationFits(g: Budget, t: Ticket, equity: real, available: real, ps: seq<Trade>)
    requires ValidBudget(g) && ValidTicket(t) && equity > 0.0 && available >= 0.0
    requires Size(g, t, equity, available, ps).Reserved?
    ensures Fits(g, equity, available, ps, Size(g, t, equity, available, ps).trade)
  {
    var openRisk, openMargin := RiskUsed(ps), MarginUsed(ps);
    var maxNotional := MaxNotional(g, t, equity, available, openMargin);
    var q := Quantity(t, equity, RequestedRisk(g, t, openRisk), maxNotional);
    var v := t.instrument.contractValue.value;
    var contracts := Min(RoundedContracts(t, q, v), g.maxContracts);
    MaxNotionalCaps(g, t, equity, available, openMargin);
    RecheckFits(g, t, equity, available, openRisk, openMargin, maxNotional, MarginCap(g, equity, available), contracts,
                v);
  }

  /** What the scan has done so far: `added` on top of `portfolio`, paid for out of `available0`. */
  ghost predicate InBudget(g: Budget, equity: real, available0: real, portfolio: seq<Trade>, added: seq<Trade>,
                           available: real)
    requires ValidBudget(g) && equity > 0.0 && available0 >= 0.0
  {
    var ps := portfolio + added;
    && (RiskUsed(portfolio) <= g.maxRisk ==> RiskUsed(ps) <= g.maxRisk)
    && (g.bucket.None? && MarginUsed(portfolio) <= g.maxMargin ==> MarginUsed(ps) <= g.maxMargin)
    && (added != [] ==> |ps| <= PositionLimit(g, equity))
    && (g.bucket.Some? ==> forall i :: 0 <= i < |added| ==>
          added[i].margin <= BucketPlan(equity, available0, g.bucket.value, g.maxOpen).target)
    && available >= 0.0 && available + MarginSum(added) == available0
  }

  /** Admitting what fits keeps every budget, and the `max(0, ...)` of the source never bites. */
  lemma AdmissionInBudget(g: Budget, equity: real, available0: real, portfolio: seq<Trade>, added: seq<Trade>,
                          available: real, x: Trade)
    requires ValidBudget(g) && equity > 0.0 && available0 >= 0.0 && available >= 0.0
    requires InBudget(g, equity, available0, portfolio, added, available)
    requires Fits(g, equity, available, portfolio + added, x)
    ensures Max(0.0, available - x.margin) == available - x.margin
    ensures InBudget(g, equity, available0, portfolio, added + [x], available - x.margin)
  {
    Appended(portfolio + added, x);
    Appended(added, x);
    assert portfolio + (added + [x]) == (portfolio + added) + [x];
  }

  /** The running totals of a scan. */
  datatype Tally = Tally(added: seq<Trade>, available: real, attempts: nat, stopped: bool)

  /** The scan ends before this candidate: a lock, or no order attempt left. */
  predicate Halts(y: Tally, item: Item, execute: bool, submissionLimit: Option<nat>) {
    execute && (y.stopped || item.locked || (submissionLimit.Some? && y.attempts >= submissionLimit.value))
  }

  predicate Attempted(a: Answer) { !a.LeverageUnconfirmed? }

  /** The tally once a candidate is sized: sent when executing, reserved when filled or on a dry run. */
  function Tallied(y: Tally, x: Outcome, answer: Answer, execute: bool): Tally {
    if x.Blocked? then y
    else
      var sent := if !execute then y
                  else y.(attempts := y.attempts + (if Attempted(answer) then 1 else 0),
                          stopped := y.stopped || answer.LeverageUnconfirmed? || answer.FilledButUnusable?);
      if !execute || answer.Filled?
      then sent.(added := y.added + [x.trade], available := y.available - x.trade.margin) else sent
  }

  /** One candidate, sized on what is left. */
  function Take(g: Budget, equity: real, portfolio: seq<Trade>, y: Tally, item: Item, execute: bool): (r: Tally)
    requires ValidBudget(g) && equity > 0.0 && y.available >= 0.0 && ValidTicket(item.ticket)
    ensures r.available >= 0.0 && r.attempts <= y.attempts + (if execute then 1 else 0)
  {
    if item.gated then y
    else
      var x := Size(g, item.ticket, equity, y.available, portfolio + y.added);
      assert x.Reserved? ==> x.trade.margin <= y.available by {
        if x.Reserved? { ReservationFits(g, item.ticket, equity, y.available, portfolio + y.added); }
      }
      Tallied(y, x, item.answer, execute)
  }

  function ScanFrom(g: Budget, equity: real, portfolio: seq<Trade>, items: seq<Item>, i: nat, execute: bool,
                    submissionLimit: Option<nat>, y: Tally): Tally
    requires ValidBudget(g) && equity > 0.0 && y.available >= 0.0 && i <= |items|
    requires forall k :: 0 <= k < |items| ==> ValidTicket(items[k].ticket)
    decreases |items| - i
  {
    if i == |items| || Halts(y, items[i], execute, submissionLimit) then y
    else ScanFrom(g, equity, portfolio, items, i + 1, execute, submissionLimit,
                  Take(g, equity, portfolio, y, items[i], execute))
  }

  function Scanned(g: Budget, equity: real, available: real, portfolio: seq<Trade>, items: seq<Item>, execute: bool,
                   submissionLimit: Option<nat>): Tally
    requires ValidBudget(g) && equity > 0.0 && available >= 0.0
    requires forall k :: 0 <= k < |items| ==> ValidTicket(items[k].ticket)
  {
    ScanFrom(g, equity, portfolio, items, 0, execute, submissionLimit, Tally([], available, 0, false))
  }

  /** `_process_symbol` and the bookkeeping after it, with the source's `max(0, ...)` on the equity left. */
  method Process(g: Budget, equity: real, portfolio: seq<Trade>, y: Tally, item: Item, execute: bool) returns (z: Tally)
    requires ValidBudget(g) && equity > 0.0 && y.available >= 0.0 && ValidTicket(item.ticket)
    ensures z == Take(g, equity, portfolio, y, item, execute)
  {
    z := y;
    if item.gated { return; }
    var x := Size(g, item.ticket, equity, y.available, portfolio + y.added);
    if x.Blocked? { return; }
    var reserved := !execute;
    if execute {
      match item.answer
      case LeverageUnconfirmed => z := z.(stopped := true);
      case PlaceRaised => z := z.(attempts := z.attempts + 1);
      case NotFilled => z := z.(attempts := z.attempts + 1);
      case Filled => z := z.(attempts := z.attempts + 1); reserved := true;
      case FilledButUnusable => z := z.(attempts := z.attempts + 1, stopped := true);
    }
    if reserved {
      ReservationFits(g, item.ticket, equity, y.available, portfolio + y.added);
      z := z.(added := z.added + [x.trade], available := Max(0.0, z.available - x.trade.margin));
    }
  }

  /** The scan loop of a run. */
  method Scan(g: Budget, equity: real, available: real, portfolio: seq<Trade>, items: seq<Item>,
              execute: bool, submissionLimit: Option<nat>)
    returns (z: Tally)
    requires ValidBudget(g) && equity > 0.0 && available >= 0.0
    requires forall i :: 0 <= i < |items| ==> ValidTicket(items[i].ticket)
    ensures z == Scanned(g, equity, available, portfolio, items, execute, submissionLimit)
  {
    z := Tally([], available, 0, false);
    var i := 0;
    while i < |items|
      invariant 0 <= i <= |items| && z.available >= 0.0
      invariant ScanFrom(g, equity, portfolio, items, i, execute, submissionLimit, z)
             == Scanned(g, equity, available, portfolio, items, execute, submissionLimit)
    {
      if execute {
        if z.stopped || items[i].locked { break; }
        if submissionLimit.Some? && z.attempts >= submissionLimit.value { break; }
      }
      z := Process(g, equity, portfolio, z, items[i], execute);
      i := i + 1;
    }
  }

  lemma TalliedInBudget(g: Budget, equity: real, available0: real, portfolio: seq<Trade>, y: Tally, x: Outcome,
                        answer: Answer, execute: bool)
    requires ValidBudget(g) && equity > 0.0 && available0 >= 0.0 && y.available >= 0.0
    requires InBudget(g, equity, available0, portfolio, y.added, y.available)
    requires x.Reserved? ==> Fits(g, equity, y.available, portfolio + y.added, x.trade)
    ensures var z := Tallied(y, x, answer, execute);
      InBudget(g, equity, available0, portfolio, z.added, z.available)
  {
    if x.Reserved? { AdmissionInBudget(g, equity, available0, portfolio, y.added, y.available, x.trade); }
  }

  /** One candidate keeps every budget. */
  lemma TakeKeepsBudget(g: Budget, equity: real, available0: real, portfolio: seq<Trade>, y: Tally, item: Item,
                        execute: bool)
    requires ValidBudget(g) && equity > 0.0 && available0 >= 0.0 && y.available >= 0.0 && ValidTicket(item.ticket)
    requires InBudget(g, equity, available0, portfolio, y.added, y.available)
    ensures var z := Take(g, equity, portfolio, y, item, execute);
      InBudget(g, equity, available0, portfolio, z.added, z.available)
  {
    var x := Size(g, item.ticket, equity, y.available, portfolio + y.added);
    if x.Reserved? { ReservationFits(g, item.ticket, equity, y.available, portfolio + y.added); }
    TalliedInBudget(g, equity, available0, portfolio, y, x, item.answer, execute);
  }

  lemma {:induction false} ScanKeepsBudget(g: Budget, equity: real, available0: real, portfolio: seq<Trade>,
                                           items: seq<Item>, i: nat, execute: bool, limit: Option<nat>, y: Tally)
    requires ValidBudget(g) && equity > 0.0 && available0 >= 0.0 && y.available >= 0.0 && i <= |items|
    requires forall k :: 0 <= k < |items| ==> ValidTicket(items[k].ticket)
    requires InBudget(g, equity, available0, portfolio, y.added, y.available)
    requires execute && limit.Some? ==> y.attempts <= limit.value
    ensures var z := ScanFrom(g, equity, portfolio, items, i, execute, limit, y);
      && InBudget(g, equity, available0, portfolio, z.added, z.available)
      && (execute && limit.Some? ==> z.attempts <= limit.value)
      && (!execute ==> z.attempts == y.attempts)
    decreases |items| - i
  {
    if i < |items| && !Halts(y, items[i], execute, limit) {
      TakeKeepsBudget(g, equity, available0, portfolio, y, items[i], execute);
      ScanKeepsBudget(g, equity, available0, portfolio, items, i + 1, execute, limit,
                      Take(g, equity, portfolio, y, items[i], execute));
    }
  }

  /**
   For every ranked list: no admission takes total stop risk past the portfolio cap, the count past
   the position limit or a position past its bucket; equity left plus margin newly reserved is the
   equity the run began with; and order attempts stay within the run's limit.
   */
  lemma ScanStaysInBudget(g: Budget, equity: real, available: real, portfolio: seq<Trade>, items: seq<Item>,
                          execute: bool, limit: Option<nat>)
    requires ValidBudget(g) && equity > 0.0 && available >= 0.0
    requires forall k :: 0 <= k < |items| ==> ValidTicket(items[k].ticket)
    ensures var z := Scanned(g, equity, available, portfolio, items, execute, limit);
      && InBudget(g, equity, available, portfolio, z.added, z.available)
      && (execute && limit.Some? ==> z.attempts <= limit.value)
      && (!execute ==> z.attempts == 0)
  {
    assert portfolio + [] == portfolio;
    ScanKeepsBudget(g, equity, available, portfolio, items, 0, execute, limit, Tally([], available, 0, false));
  }

  // ---------------------------------------------------------------- pricing meets sizing

  /** The ticket that the priced candidate becomes. */
  predicate TicketFor(t: Ticket, c: Pricing.Candidate, s: Pricing.Settings, reference: real, tick: real)
    requires Pricing.ValidSettings(s)
  {
    var x := Pricing.BoundedPrice(c, s, reference, tick);
    x.Limit? && t.limit == x.price && t.reference == reference && t.stop == c.stopLoss && t.cost == Pricing.CostOf(c, s)
  }

  /** For every long candidate, from quote to lot-rounded order, no budget re-check can refuse. */
  lemma LongOrdersPassEveryRecheck(g: Budget, t: Ticket, equity: real, available: real, ps: seq<Trade>,
                                   c: Pricing.Candidate, s: Pricing.Settings, reference: real, tick: real)
    requires ValidBudget(g) && ValidTicket(t) && equity > 0.0 && available >= 0.0 && Pricing.ValidSettings(s)
    requires c.long && TicketFor(t, c, s, reference, tick)
    ensures var x := Size(g, t, equity, available, ps); x.Blocked? ==> !RecheckBlock(x.why)
  {
    Pricing.PricedExactlyWhenMarketable(c, s, reference, tick);
    RechecksAreIdle(g, t, equity, available, ps);
  }

  /**
   From quote to lot-rounded order, exactly: the re-checks are idle for every ticket of a priced candidate
   if and only if it is long or its limit is the reference itself.
   */
  lemma PricedRechecksExactly(c: Pricing.Candidate, s: Pricing.Settings, reference: real, tick: real)
    requires Pricing.ValidSettings(s) && Pricing.BoundedPrice(c, s, reference, tick).Limit?
    ensures var limit := Pricing.BoundedPrice(c, s, reference, tick).price;
      RechecksIdle(limit, reference, c.stopLoss, Pricing.CostOf(c, s)) <==> c.long || limit == reference
  {
    Pricing.PricedExactlyWhenMarketable(c, s, reference, tick);
    var limit := Pricing.BoundedPrice(c, s, reference, tick).price;
    RechecksIdleExactly(limit, reference, c.stopLoss, Pricing.CostOf(c, s));
  }

  function ShortCandidate(): Pricing.Candidate { Pricing.Candidate(false, 101.0, 90.0, false) }

  const MAX_BPS: real := 50.0

  function WideSettings(): Pricing.Settings { Pricing.Settings(5.0, 2.0, 1.0, 1.0, 1.0, MAX_BPS) }

  lemma ShortRaw()
    ensures Pricing.RawLimit(ShortCandidate(), WideSettings(), 100.0) == 99.5
  {
    assert Pricing.Target(ShortCandidate(), WideSettings()) == 191.0;
  }

  lemma ShortUsable()
    ensures Pricing.Acceptable(ShortCandidate(), WideSettings(), 100.0)
  { }

  /** A short from 100 with stop 101 and target 90, fifty basis points and ticks of a half, is priced at 99.5 ... */
  lemma ShortPricedBelow()
    ensures var x := Pricing.BoundedPrice(ShortCandidate(), WideSettings(), 100.0, 0.5); x.Limit? && x.price == 99.5
  {
    ShortRaw();
    ShortUsable();
    assert Pricing.LimitPrice(ShortCandidate(), WideSettings(), 100.0, 0.5) == 99.5;
    Pricing.PricedExactlyWhenMarketable(ShortCandidate(), WideSettings(), 100.0, 0.5);
  }

  /** ... so some budget refuses its ticket after rounding. */
  lemma PricedShortRefused()
    ensures var c, s := ShortCandidate(), WideSettings();
      var t := WitnessTicket(99.5, 100.0, 101.0, Pricing.CostOf(c, s));
      var equity := WitnessEquity(100.0, RiskDistance(t));
      && TicketFor(t, c, s, 100.0, 0.5) && ValidTicket(t) && ValidBudget(WitnessBudget(99.5)) && equity > 0.0
      && Size(WitnessBudget(99.5), t, equity, equity, []) == Blocked(OverNotional)
  {
    ShortPricedBelow();
    RecheckCanFail(99.5, 100.0, 101.0, Pricing.CostOf(ShortCandidate(), WideSettings()));
  }
}
