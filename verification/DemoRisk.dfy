/**
 What the orders of a demo scan stake, in contracts and prices: the loss at the stop and the margin of every
 reservation, of every scan, and how much of the budget an order uses.
 */
module DemoRisk {
  import opened Options
  import opened Reals
  import opened DemoSizing
  import opened DemoAllocator

  /** An order as it goes to the exchange. */
  datatype Placed = Placed(ticket: Ticket, contracts: real)

  /** What the contracts are worth in units of the base currency. */
  function Units(p: Placed): real {
    if p.ticket.instrument.contractValue.Some? then p.contracts * p.ticket.instrument.contractValue.value else 0.0
  }

  function Distance(t: Ticket): real { if t.limit >= t.stop then t.limit - t.stop else t.stop - t.limit }

  function Higher(t: Ticket): real { if t.limit >= t.reference then t.limit else t.reference }

  /** The loss when the stop is hit, round-trip cost included. */
  function LossAtStop(p: Placed): real {
    Units(p) * Distance(p.ticket) + Units(p) * Higher(p.ticket) * p.ticket.cost
  }

  // ---------------------------------------------------------------- one reservation

  /** A reservation in plain amounts: stake, margin and notional of the order it stands for. */
  predicate Booked(t: Ticket, equity: real, x: Outcome)
    requires x.Reserved?
  {
    var p := Placed(t, x.contracts);
    && x.notional == Units(p) * Higher(t) && x.trade.riskPct * equity == LossAtStop(p)
    && x.trade.margin * t.leverage as real == x.notional && x.trade.marginPct * equity == x.trade.margin
  }

  lemma BackTo(a: real, b: real)
    requires b != 0.0
    ensures a / b * b == a
  { }

  lemma RecheckedBooked(g: Budget, t: Ticket, equity: real, openRisk: real, openMargin: real, maxNotional: real,
                        cap: Option<real>, contracts: real, v: real)
    requires t.leverage >= 1 && equity > 0.0 && t.instrument.contractValue == Some(v)
    requires Rechecked(g, t, equity, openRisk, openMargin, maxNotional, cap, contracts, v).Reserved?
    ensures var x := Rechecked(g, t, equity, openRisk, openMargin, maxNotional, cap, contracts, v);
      x.contracts == contracts && Booked(t, equity, x)
  {
    var base := contracts * v;
    var notional := base * Higher(t);
    assert Notional(t, base) == notional;
    BackTo(base * Abs(t.limit - t.stop) + notional * t.cost, equity);
    BackTo(notional, t.leverage as real);
    BackTo(MarginOf(t, notional), equity);
  }

  /** The order behind a reservation, and the size the engine approved for it. */
  lemma SizeReserved(g: Budget, t: Ticket, equity: real, available: real, ps: seq<Trade>)
    returns (q: real, contracts: real, v: real, maxNotional: real)
    requires ValidBudget(g) && ValidTicket(t) && equity > 0.0 && available >= 0.0
    requires Size(g, t, equity, available, ps).Reserved?
    ensures Size(g, t, equity, available, ps)
         == Rechecked(g, t, equity, RiskUsed(ps), MarginUsed(ps), maxNotional, MarginCap(g, equity, available),
                      contracts, v)
    ensures maxNotional == MaxNotional(g, t, equity, available, MarginUsed(ps))
    ensures q == Quantity(t, equity, RequestedRisk(g, t, RiskUsed(ps)), maxNotional) && q > 0.0
    ensures t.instrument.contractValue == Some(v) && v > 0.0 && t.instrument.baseQuoted
    ensures contracts == Min(RoundedContracts(t, q, v), g.maxContracts)
    ensures 0.0 < contracts && t.instrument.minSize <= contracts
  {
    maxNotional := MaxNotional(g, t, equity, available, MarginUsed(ps));
    q := Quantity(t, equity, RequestedRisk(g, t, RiskUsed(ps)), maxNotional);
    v := t.instrument.contractValue.value;
    contracts := Min(RoundedContracts(t, q, v), g.maxContracts);
  }

  /**
   What a reservation stands for: an order the instrument accepts, whose booked risk is the loss at its stop,
   whose margin is its notional over the leverage, each as a share of equity.
   */
  lemma ReservationTerms(g: Budget, t: Ticket, equity: real, available: real, ps: seq<Trade>)
    requires ValidBudget(g) && ValidTicket(t) && equity > 0.0 && available >= 0.0
    requires Size(g, t, equity, available, ps).Reserved?
    ensures var x := Size(g, t, equity, available, ps);
      && Booked(t, equity, x) && 0.0 < x.contracts <= g.maxContracts && t.instrument.minSize <= x.contracts
      && t.instrument.contractValue.Some? && t.instrument.contractValue.value > 0.0 && t.instrument.baseQuoted
  {
    var q, contracts, v, maxNotional := SizeReserved(g, t, equity, available, ps);
    RecheckedBooked(g, t, equity, RiskUsed(ps), MarginUsed(ps), maxNotional, MarginCap(g, equity, available),
                    contracts, v);
  }

  // ---------------------------------------------------------------- how much of the budget it uses

  /** Summed positive risk shares of a portfolio. */
  function OpenRisk(ps: seq<Trade>): real {
    if ps == [] then 0.0 else (if ps[0].riskPct > 0.0 then ps[0].riskPct else 0.0) + OpenRisk(ps[1..])
  }

  function OpenMargin(ps: seq<Trade>): real {
    if ps == [] then 0.0 else (if ps[0].marginPct > 0.0 then ps[0].marginPct else 0.0) + OpenMargin(ps[1..])
  }

  lemma {:induction false} OpenAppend(ps: seq<Trade>, x: Trade)
    ensures OpenRisk(ps + [x]) == OpenRisk(ps) + (if x.riskPct > 0.0 then x.riskPct else 0.0)
    ensures OpenMargin(ps + [x]) == OpenMargin(ps) + (if x.marginPct > 0.0 then x.marginPct else 0.0)
  {
    if ps == [] {
      assert [x][1..] == [] && ps + [x] == [x];
    } else {
      assert (ps + [x])[1..] == ps[1..] + [x];
      OpenAppend(ps[1..], x);
    }
  }

  lemma {:induction false} UsedIsOpen(ps: seq<Trade>)
    ensures RiskUsed(ps) == OpenRisk(ps) && MarginUsed(ps) == OpenMargin(ps)
  {
    if ps != [] {
      var front, x := ps[..|ps| - 1], ps[|ps| - 1];
      UsedIsOpen(front);
      assert front + [x] == ps;
      OpenAppend(front, x);
    }
  }

  /** Contracts of an approved quantity: worth no more than it, and the quantity fits its share of risk. */
  lemma ApprovedQuantity(t: Ticket, equity: real, risk: real, maxNotional: real, q: real, contracts: real, v: real)
    requires ValidTicket(t) && v > 0.0 && contracts > 0.0 && contracts <= RoundedContracts(t, q, v)
    requires q == Quantity(t, equity, risk, maxNotional) && q > 0.0
    ensures contracts * v <= q && q * RiskDistance(t) <= equity * risk
  {
    QuantityBounds(t, equity, risk, maxNotional);
    RoundingShrinks(t, q, v);
    Scaling(contracts, RoundedContracts(t, q, v), v);
  }

  /** A loss of `per` on each of `units` fits the tier's share of equity and what is left of the portfolio's. */
  predicate FitsTier(units: real, per: real, equity: real, tier: real, left: real) {
    units * per <= equity * tier && units * per <= equity * left
  }

  lemma WithinTier(units: real, q: real, per: real, equity: real, risk: real, tier: real, left: real)
    requires units <= q && per > 0.0 && q * per <= equity * risk && equity > 0.0 && risk <= tier && risk <= left
    ensures FitsTier(units, per, equity, tier, left)
  {
    Scaling(units, q, per);
    Scaling(risk, tier, equity);
    Scaling(risk, left, equity);
  }

  lemma RequestedPositive(g: Budget, t: Ticket, equity: real, available: real, ps: seq<Trade>)
    requires ValidBudget(g) && ValidTicket(t) && equity > 0.0 && available >= 0.0
    requires Size(g, t, equity, available, ps).Reserved?
    ensures RequestedRisk(g, t, RiskUsed(ps)) > 0.0
    ensures g.bucket.None? ==> MarginRoom(g, t, MarginUsed(ps)) > 0.0
  { }

  lemma ApprovedFits(t: Ticket, equity: real, risk: real, maxNotional: real, q: real, contracts: real, v: real,
                     units: real, per: real, left: real)
    requires ValidTicket(t) && equity > 0.0 && v > 0.0 && contracts > 0.0 && contracts <= RoundedContracts(t, q, v)
    requires q == Quantity(t, equity, risk, maxNotional) && q > 0.0 && risk <= t.tierRisk && risk <= left
    requires t.instrument.contractValue == Some(v) && units == Units(Placed(t, contracts))
    requires per == Distance(t) + t.limit * t.cost
    ensures FitsTier(units, per, equity, t.tierRisk, left)
  {
    RiskDistancePositive(t);
    ApprovedQuantity(t, equity, risk, maxNotional, q, contracts, v);
    WithinTier(units, q, per, equity, risk, t.tierRisk, left);
  }

  lemma ReservedContracts(g: Budget, t: Ticket, equity: real, available: real, ps: seq<Trade>)
    returns (q: real, contracts: real, v: real, maxNotional: real, risk: real)
    requires ValidBudget(g) && ValidTicket(t) && equity > 0.0 && available >= 0.0
    requires Size(g, t, equity, available, ps).Reserved?
    ensures Size(g, t, equity, available, ps).contracts == contracts && t.instrument.contractValue == Some(v)
    ensures v > 0.0 && contracts > 0.0 && contracts <= RoundedContracts(t, q, v)
    ensures q == Quantity(t, equity, risk, maxNotional) && q > 0.0
    ensures risk <= t.tierRisk && risk <= g.maxRisk - OpenRisk(ps)
  {
    q, contracts, v, maxNotional := SizeReserved(g, t, equity, available, ps);
    risk := RequestedRisk(g, t, RiskUsed(ps));
    UsedIsOpen(ps);
    RequestedPositive(g, t, equity, available, ps);
    RecheckedBooked(g, t, equity, RiskUsed(ps), MarginUsed(ps), maxNotional, MarginCap(g, equity, available),
                    contracts, v);
  }

  /** Every reservation, long or short: its loss at the stop from the limit price fits the tier and what is left. */
  lemma ReservationFitsTier(g: Budget, t: Ticket, equity: real, available: real, ps: seq<Trade>, units: real, per: real,
                            left: real)
    requires ValidBudget(g) && ValidTicket(t) && equity > 0.0 && available >= 0.0
    requires Size(g, t, equity, available, ps).Reserved? && left == g.maxRisk - OpenRisk(ps)
    requires units == Units(Placed(t, Size(g, t, equity, available, ps).contracts))
    requires per == Distance(t) + t.limit * t.cost
    ensures FitsTier(units, per, equity, t.tierRisk, left)
  {
    var q, contracts, v, maxNotional, risk := ReservedContracts(g, t, equity, available, ps);
    ApprovedFits(t, equity, risk, maxNotional, q, contracts, v, units, per, left);
  }

  // ---------------------------------------------------------------- the whole scan

  function LossSum(orders: seq<Placed>): real {
    if orders == [] then 0.0 else LossAtStop(orders[0]) + LossSum(orders[1..])
  }

  /** The order that one candidate puts into the budget, if any. */
  function Admits(g: Budget, equity: real, portfolio: seq<Trade>, y: Tally, item: Item, execute: bool): seq<Placed>
    requires ValidBudget(g) && equity > 0.0 && y.available >= 0.0 && ValidTicket(item.ticket)
  {
    var z := Take(g, equity, portfolio, y, item, execute);
    var x := Size(g, item.ticket, equity, y.available, portfolio + y.added);
    if z.added != y.added && x.Reserved? then [Placed(item.ticket, x.contracts)] else []
  }

  /** The orders that a scan admits from candidate `i` on, in their order. */
  function Orders(g: Budget, equity: real, portfolio: seq<Trade>, items: seq<Item>, i: nat, execute: bool,
                  limit: Option<nat>, y: Tally): seq<Placed>
    requires ValidBudget(g) && equity > 0.0 && y.available >= 0.0 && i <= |items|
    requires forall k :: 0 <= k < |items| ==> ValidTicket(items[k].ticket)
    decreases |items| - i
  {
    if i == |items| || Halts(y, items[i], execute, limit) then []
    else
      Admits(g, equity, portfolio, y, items[i], execute)
        + Orders(g, equity, portfolio, items, i + 1, execute, limit, Take(g, equity, portfolio, y, items[i], execute))
  }

  /** The trade books the order: no negative risk, and as a share of equity exactly the loss at its stop. */
  predicate Backs(x: Trade, p: Placed, equity: real) { x.riskPct >= 0.0 && x.riskPct * equity == LossAtStop(p) }

  lemma ReservationBacks(g: Budget, t: Ticket, equity: real, available: real, ps: seq<Trade>)
    requires ValidBudget(g) && ValidTicket(t) && equity > 0.0 && available >= 0.0
    requires Size(g, t, equity, available, ps).Reserved?
    ensures var x := Size(g, t, equity, available, ps); Backs(x.trade, Placed(t, x.contracts), equity)
  {
    ReservationTerms(g, t, equity, available, ps);
    ReservationFits(g, t, equity, available, ps);
  }

  /** One candidate adds nothing, or the trade that backs its order. */
  lemma TakeAdds(g: Budget, equity: real, portfolio: seq<Trade>, y: Tally, item: Item, execute: bool)
    returns (more: seq<Trade>)
    requires ValidBudget(g) && equity > 0.0 && y.available >= 0.0 && ValidTicket(item.ticket)
    ensures Take(g, equity, portfolio, y, item, execute).added == y.added + more
    ensures AllBack(more, Admits(g, equity, portfolio, y, item, execute), equity)
  {
    var z := Take(g, equity, portfolio, y, item, execute);
    if z.added == y.added {
      more := [];
    } else {
      more := [Size(g, item.ticket, equity, y.available, portfolio + y.added).trade];
      ReservationBacks(g, item.ticket, equity, y.available, portfolio + y.added);
    }
  }

  predicate AllBack(ts: seq<Trade>, orders: seq<Placed>, equity: real) {
    |ts| == |orders| && forall k :: 0 <= k < |ts| ==> Backs(ts[k], orders[k], equity)
  }

  lemma {:induction false} BackedLoss(ts: seq<Trade>, orders: seq<Placed>, equity: real)
    requires AllBack(ts, orders, equity)
    ensures equity * OpenRisk(ts) == LossSum(orders)
  {
    if ts != [] {
      BackedLoss(ts[1..], orders[1..], equity);
      AddedLoss(equity, OpenRisk(ts[1..]), ts[0].riskPct, OpenRisk(ts), LossAtStop(orders[0]));
    }
  }

  lemma AddedLoss(equity: real, before: real, r: real, after: real, loss: real)
    requires after == r + before && r * equity == loss
    ensures equity * after == loss + equity * before
  { }

  lemma Joined(a: seq<Trade>, p: seq<Placed>, b: seq<Trade>, q: seq<Placed>, equity: real)
    requires AllBack(a, p, equity) && AllBack(b, q, equity)
    ensures AllBack(a + b, p + q, equity)
  { }

  /** The trades a scan adds back the orders it admits, one by one. */
  lemma {:induction false} ScanBacks(g: Budget, equity: real, portfolio: seq<Trade>, items: seq<Item>, i: nat,
                                     execute: bool, limit: Option<nat>, y: Tally) returns (ts: seq<Trade>)
    requires ValidBudget(g) && equity > 0.0 && y.available >= 0.0 && i <= |items|
    requires forall k :: 0 <= k < |items| ==> ValidTicket(items[k].ticket)
    ensures ScanFrom(g, equity, portfolio, items, i, execute, limit, y).added == y.added + ts
    ensures AllBack(ts, Orders(g, equity, portfolio, items, i, execute, limit, y), equity)
    decreases |items| - i
  {
    if i == |items| || Halts(y, items[i], execute, limit) {
      ts := [];
    } else {
      var z := Take(g, equity, portfolio, y, items[i], execute);
      var more := TakeAdds(g, equity, portfolio, y, items[i], execute);
      var rest := ScanBacks(g, equity, portfolio, items, i + 1, execute, limit, z);
      ts := more + rest;
      assert y.added + ts == z.added + rest;
      Joined(more, Admits(g, equity, portfolio, y, items[i], execute), rest,
             Orders(g, equity, portfolio, items, i + 1, execute, limit, z), equity);
    }
  }

  lemma {:induction false} OpenJoined(a: seq<Trade>, b: seq<Trade>)
    ensures OpenRisk(a + b) == OpenRisk(a) + OpenRisk(b)
  {
    if a == [] { assert a + b == b; } else {
      assert (a + b)[1..] == a[1..] + b && (a + b)[0] == a[0];
      OpenJoined(a[1..], b);
    }
  }

  /**
   For every ranked list the loss when every admitted order is stopped out, on top of the risk the portfolio
   already carried, stays within the portfolio's share of equity.
   */
  lemma ScanLossCapped(g: Budget, equity: real, available: real, portfolio: seq<Trade>, items: seq<Item>,
                       execute: bool, limit: Option<nat>, open: real, orders: seq<Placed>)
    requires ValidBudget(g) && equity > 0.0 && available >= 0.0 && open == OpenRisk(portfolio) && open <= g.maxRisk
    requires forall k :: 0 <= k < |items| ==> ValidTicket(items[k].ticket)
    requires orders == Orders(g, equity, portfolio, items, 0, execute, limit, Tally([], available, 0, false))
    ensures WithinShare(equity, open, LossSum(orders), g.maxRisk)
  {
    var ts := ScanAdds(g, equity, available, portfolio, items, execute, limit, orders);
    RiskRoom(g, portfolio, ts);
    LossWithin(equity, open, ts, orders, g.maxRisk, LossSum(orders));
  }

  /** A loss on top of an open share stays within a share of equity. */
  predicate WithinShare(equity: real, open: real, loss: real, cap: real) { equity * open + loss <= equity * cap }

  lemma ScanAdds(g: Budget, equity: real, available: real, portfolio: seq<Trade>, items: seq<Item>, execute: bool,
                 limit: Option<nat>, orders: seq<Placed>) returns (ts: seq<Trade>)
    requires ValidBudget(g) && equity > 0.0 && available >= 0.0
    requires forall k :: 0 <= k < |items| ==> ValidTicket(items[k].ticket)
    requires orders == Orders(g, equity, portfolio, items, 0, execute, limit, Tally([], available, 0, false))
    ensures AllBack(ts, orders, equity)
    ensures RiskUsed(portfolio) <= g.maxRisk ==> RiskUsed(portfolio + ts) <= g.maxRisk
  {
    var y := Tally([], available, 0, false);
    ts := ScanBacks(g, equity, portfolio, items, 0, execute, limit, y);
    ScanStaysInBudget(g, equity, available, portfolio, items, execute, limit);
    assert [] + ts == ts;
  }

  lemma RiskRoom(g: Budget, portfolio: seq<Trade>, ts: seq<Trade>)
    requires OpenRisk(portfolio) <= g.maxRisk
    requires RiskUsed(portfolio) <= g.maxRisk ==> RiskUsed(portfolio + ts) <= g.maxRisk
    ensures OpenRisk(portfolio) + OpenRisk(ts) <= g.maxRisk
  {
    UsedIsOpen(portfolio);
    UsedIsOpen(portfolio + ts);
    OpenJoined(portfolio, ts);
  }

  lemma LossWithin(equity: real, open: real, ts: seq<Trade>, orders: seq<Placed>, cap: real, loss: real)
    requires equity > 0.0 && AllBack(ts, orders, equity) && open + OpenRisk(ts) <= cap && loss == LossSum(orders)
    ensures WithinShare(equity, open, loss, cap)
  {
    BackedLoss(ts, orders, equity);
    Capped(equity, open, OpenRisk(ts), cap, loss);
  }

  lemma Capped(equity: real, a: real, b: real, cap: real, loss: real)
    requires equity > 0.0 && a + b <= cap && equity * b == loss
    ensures equity * a + loss <= equity * cap
  {
    Scaling(a + b, cap, equity);
  }

  // ---------------------------------------------------------------- and no less than it could

  lemma GridAbove(x: real) returns (m: int)
    ensures x <= m as real / QUANTUM < x + 1.0 / QUANTUM
  {
    m := -((-(x * QUANTUM)).Floor);
    assert x * QUANTUM <= m as real < x * QUANTUM + 1.0;
  }

  /** One grid step more than `n` lots would still fit the risk and the notional limits. */
  predicate Affordable(g: Budget, t: Ticket, equity: real, risk: real, maxNotional: real, units: real) {
    && (units + 1.0 / QUANTUM) * (Distance(t) + t.limit * t.cost) <= equity * risk
    && (units + 1.0 / QUANTUM) * t.limit <= maxNotional
  }

  lemma AffordableQuantity(g: Budget, t: Ticket, equity: real, risk: real, maxNotional: real, units: real)
    requires ValidTicket(t) && Quantity(t, equity, risk, maxNotional) > 0.0
    requires Affordable(g, t, equity, risk, maxNotional, units)
    ensures units <= Quantity(t, equity, risk, maxNotional)
  {
    var m := GridAbove(units);
    var x := m as real / QUANTUM;
    RiskDistancePositive(t);
    Scaling(x, units + 1.0 / QUANTUM, RiskDistance(t));
    Scaling(x, units + 1.0 / QUANTUM, t.limit);
    if x >= t.minQuantity { QuantityIsLargest(t, equity, risk, maxNotional, m); }
  }

  /**
   No order is smaller than it has to be: any whole number of lots that would leave a grid step of room in
   risk and notional is at most what was reserved, unless the contract cap bound it.
   */
  lemma ReservationIsLargest(g: Budget, t: Ticket, equity: real, available: real, ps: seq<Trade>, n: int)
    requires ValidBudget(g) && ValidTicket(t) && equity > 0.0 && available >= 0.0
    requires Size(g, t, equity, available, ps).Reserved?
    requires Affordable(g, t, equity, RequestedRisk(g, t, RiskUsed(ps)),
                        MaxNotional(g, t, equity, available, MarginUsed(ps)),
                        Units(Placed(t, n as real * t.instrument.lot)))
    ensures var x := Size(g, t, equity, available, ps);
      n as real * t.instrument.lot <= x.contracts || x.contracts == g.maxContracts
  {
    var q, contracts, v, maxNotional := SizeReserved(g, t, equity, available, ps);
    AffordableQuantity(g, t, equity, RequestedRisk(g, t, RiskUsed(ps)), maxNotional,
                       Units(Placed(t, n as real * t.instrument.lot)));
    LotsAreLargest(t, q, v, n);
    RecheckedBooked(g, t, equity, RiskUsed(ps), MarginUsed(ps), maxNotional, MarginCap(g, equity, available),
                    contracts, v);
  }

  /** The risk share behind it: the tier's, and what the portfolio has left. */
  lemma RiskLimitIs(g: Budget, t: Ticket, equity: real, available: real, ps: seq<Trade>)
    requires ValidBudget(g) && ValidTicket(t) && equity > 0.0 && available >= 0.0
    requires Size(g, t, equity, available, ps).Reserved?
    ensures RequestedRisk(g, t, RiskUsed(ps)) == Min(t.tierRisk, g.maxRisk - OpenRisk(ps))
  {
    UsedIsOpen(ps);
    RequestedPositive(g, t, equity, available, ps);
  }

  /** The notional limit behind it: order cap, available equity, and the position's bucket ... */
  lemma BucketLimitIs(g: Budget, t: Ticket, equity: real, available: real, openMargin: real, cap: real, lev: real)
    requires ValidBudget(g) && equity > 0.0 && available >= 0.0 && lev == t.leverage as real
    requires g.bucket.Some? && cap == Min(Min(equity, g.bucket.value), available)
    ensures MaxNotional(g, t, equity, available, openMargin) == Min(Min(g.orderCap, cap * lev), available * lev)
  {
    BucketCap(equity, available, g.bucket.value, g.maxOpen);
  }

  /** ... or, without buckets, the tier's margin share and what the portfolio has left of its own. */
  lemma MarginLimitIs(g: Budget, t: Ticket, equity: real, available: real, openMargin: real, room: real, lev: real)
    requires ValidBudget(g) && equity > 0.0 && available >= 0.0 && lev == t.leverage as real
    requires g.bucket.None? && openMargin <= g.maxMargin && room == Min(t.tierMargin, g.maxMargin - openMargin)
    ensures MaxNotional(g, t, equity, available, openMargin)
         == Min(Min(g.orderCap, equity * room * lev), available * lev)
  { }

  /** A bucket plan caps a position at the smallest of equity, bucket and available, and opens as many as fit. */
  lemma BucketCap(equity: real, available: real, bucket: real, maxOpen: nat)
    requires equity > 0.0 && available >= 0.0 && bucket > 0.0 && maxOpen >= 1
    ensures var p := BucketPlan(equity, available, bucket, maxOpen);
      p.cap == Min(Min(equity, bucket), available) && p.target == Min(equity, bucket)
  { }

  lemma BucketIsLargest(equity: real, available: real, bucket: real, maxOpen: nat)
    requires equity > 0.0 && available >= 0.0 && bucket > 0.0 && maxOpen >= 1
    ensures var p := BucketPlan(equity, available, bucket, maxOpen);
      && p.limit as real * p.target <= equity
      && (p.limit == maxOpen || (p.limit + 1) as real * p.target > equity)
  {
    if equity > bucket {
      var p := BucketPlan(equity, available, bucket, maxOpen);
      WholeBucketsIn(equity, bucket, equity / bucket, p.limit);
    }
  }

  lemma WholeBucketsIn(equity: real, bucket: real, q: real, n: int)
    requires bucket > 0.0 && q * bucket == equity
    ensures n <= q.Floor ==> n as real * bucket <= equity
    ensures n == q.Floor ==> (n + 1) as real * bucket > equity
  {
    if n <= q.Floor { Scaling(n as real, q, bucket); }
    if n == q.Floor { StrictScaling(q, (n + 1) as real, bucket); }
  }

  // ---------------------------------------------------------------- what one candidate counts for

  /**
   A candidate that is gated or not sized changes nothing. A dry run reserves it without an attempt. An
   executing run attempts it unless its leverage could not be confirmed, spends budget on it exactly when it
   was filled, and ends when leverage or fill is in doubt.
   */
  lemma TakeCounts(g: Budget, equity: real, portfolio: seq<Trade>, y: Tally, item: Item, execute: bool)
    requires ValidBudget(g) && equity > 0.0 && y.available >= 0.0 && ValidTicket(item.ticket)
    ensures var z, x := Take(g, equity, portfolio, y, item, execute),
                        Size(g, item.ticket, equity, y.available, portfolio + y.added);
      if item.gated || x.Blocked? then z == y
      else
        && (if z.added == y.added then z.available == y.available
            else z.added == y.added + [x.trade] && z.available == y.available - x.trade.margin)
        && (z.added != y.added <==> !execute || item.answer == Filled)
        && z.attempts == y.attempts + (if execute && item.answer != LeverageUnconfirmed then 1 else 0)
        && (z.stopped <==>
              y.stopped || (execute && (item.answer == LeverageUnconfirmed || item.answer == FilledButUnusable)))
  { }

  /** A stopped run, a lock, or an exhausted attempt budget ends an executing scan where it stands. */
  lemma ScanEnds(g: Budget, equity: real, portfolio: seq<Trade>, items: seq<Item>, i: nat, execute: bool,
                 limit: Option<nat>, y: Tally)
    requires ValidBudget(g) && equity > 0.0 && y.available >= 0.0 && i < |items|
    requires forall k :: 0 <= k < |items| ==> ValidTicket(items[k].ticket)
    ensures execute && (y.stopped || items[i].locked || (limit.Some? && y.attempts >= limit.value)) ==>
      ScanFrom(g, equity, portfolio, items, i, execute, limit, y) == y
    ensures !execute || !(y.stopped || items[i].locked || (limit.Some? && y.attempts >= limit.value)) ==>
      ScanFrom(g, equity, portfolio, items, i, execute, limit, y)
      == ScanFrom(g, equity, portfolio, items, i + 1, execute, limit, Take(g, equity, portfolio, y, items[i], execute))
  { }

  // ---------------------------------------------------------------- what a reservation needs

  /** Whatever is reserved passed every gate: no legacy trade, a free slot, an approving engine, a usable instrument. */
  lemma ReservationNeeds(g: Budget, t: Ticket, equity: real, available: real, ps: seq<Trade>)
    requires ValidBudget(g) && ValidTicket(t) && equity > 0.0 && available >= 0.0
    requires Size(g, t, equity, available, ps).Reserved?
    ensures forall i :: 0 <= i < |ps| ==> !ps[i].legacy
    ensures |ps| < g.maxOpen && !t.otherReasons && t.instrument.baseQuoted
    ensures t.instrument.contractValue.Some? && t.instrument.contractValue.value > 0.0
    ensures var x := Size(g, t, equity, available, ps);
      0.0 < x.contracts <= g.maxContracts && t.instrument.minSize <= x.contracts && !x.trade.legacy
  {
    if g.bucket.Some? { assert PositionLimit(g, equity) <= g.maxOpen; }
  }
}
