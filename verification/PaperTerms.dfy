/**
 What the operations of the paper broker do in plain amounts: which orders a tick fills, at what price, for
 what fee, and what a close pays. Every amount is exact up to one unit of the money grid.
 */
module PaperTerms {
  import opened Options
  import opened Reals
  import opened PaperGrid
  import opened PaperBook
  import opened PaperLedger
  import opened PaperTick

  /** `y` is `x` truncated: not above it and less than one grid unit below. */
  predicate JustBelow(y: real, x: real) { y <= x < y + 1.0 / UNIT }

  /** `y` is within one grid unit of `x`. */
  predicate Near(y: real, x: real) { x - 1.0 / UNIT < y < x + 1.0 / UNIT }

  lemma QJustBelow(x: real)
    requires x >= 0.0
    ensures JustBelow(Q(x), x) && Q(x) >= 0.0
  {
    QTowardZero(x);
  }

  lemma QNear(x: real)
    ensures Near(Q(x), x)
  {
    QTowardZero(x);
  }

  // ---------------------------------------------------------------- which orders a tick fills

  /** A tick at `price` reaches a limit order on its own terms: longs at or below the limit, shorts at or above it. */
  predicate Reaches(o: Order, symbol: string, price: real) {
    && o.symbol == symbol && o.status == Pending && o.limit.Some?
    && (o.side == Long ==> price <= o.limit.value) && (o.side == Short ==> o.limit.value <= price)
  }

  /** A tick fills exactly the pending orders of its symbol whose limit the price reaches; no other order changes. */
  lemma TickFillsExactly(r: Rates, b: Book, symbol: string, price: real, k: nat)
    requires k < |b.orders|
    ensures var o, o' := b.orders[k], Tick(r, b, symbol, price).orders[k];
      if Reaches(o, symbol, price)
      then o' == o.(status := Filled, fillPrice := o'.fillPrice, fee := o'.fee) && o'.fillPrice.Some?
      else o' == o
  {
    TickShape(r, b, symbol, price);
  }

  /** After a tick every pending long limit of the symbol lies strictly below the price, every short one above. */
  lemma NothingIsCrossed(r: Rates, b: Book, symbol: string, price: real, k: nat)
    requires k < |b.orders|
    ensures var o := Tick(r, b, symbol, price).orders[k];
      o.symbol == symbol && o.status == Pending && o.limit.Some? ==>
        (o.side == Long ==> o.limit.value < price) && (o.side == Short ==> price < o.limit.value)
  {
    TickFillsExactly(r, b, symbol, price, k);
  }

  // ---------------------------------------------------------------- what a fill costs

  /** What a buyer pays or a seller gets once `bps` basis points of the price have gone against them. */
  function Quote(price: real, bps: real, buys: bool): real {
    if buys then price + price * bps / 10000.0 else price - price * bps / 10000.0
  }

  lemma SlippedIs(r: Rates, price: real, side: Side, opening: bool)
    ensures Slipped(r, price, side, opening) == Quote(price, r.slippageBps, (side == Long) == opening)
  {
    var s := r.slippageBps / 10000.0;
    assert price * (1.0 + s) == price + price * s && price * (1.0 - s) == price - price * s;
    assert price * s == price * r.slippageBps / 10000.0;
  }

  lemma SlippedNonnegative(r: Rates, price: real, side: Side, opening: bool)
    requires FairRates(r) && price >= 0.0
    ensures Slipped(r, price, side, opening) >= 0.0
  {
    var s := r.slippageBps / 10000.0;
    Product(price, 1.0 + s);
    Product(price, 1.0 - s);
  }

  /** The prices and fees of a fill: at the limit as maker, at the slipped price as taker. */
  predicate FillAmounts(r: Rates, side: Side, quantity: real, price: real, maker: bool, entry: real, fee: real) {
    && JustBelow(entry, if maker then price else Quote(price, r.slippageBps, side == Long))
    && JustBelow(fee, entry * quantity * (if maker then r.maker else r.taker))
  }

  /** The position that an order becomes. */
  predicate BecomesPosition(o: Order, p: Position) {
    && p.orderId == o.id && p.symbol == o.symbol && p.side == o.side && p.quantity == o.quantity
    && p.stopLoss == o.stopLoss && p.takeProfit == o.takeProfit
    && p.open && p.mark == p.entry && p.unrealized == 0.0 && p.realized == 0.0 && p.reason.None?
  }

  predicate FilledOn(r: Rates, o: Order, price: real, maker: bool, p: Position) {
    BecomesPosition(o, p) && FillAmounts(r, o.side, o.quantity, price, maker, p.entry, p.fees)
  }

  lemma FeeTerms(price: real, quantity: real, rate: real)
    requires price >= 0.0 && quantity >= 0.0 && rate >= 0.0
    ensures JustBelow(Fee(price, quantity, rate), price * quantity * rate)
  {
    Product(price, quantity);
    Product(price * quantity, rate);
    QJustBelow(price * quantity * rate);
  }

  lemma EntryTerms(r: Rates, o: Order, price: real, maker: bool)
    requires FairRates(r) && price >= 0.0
    ensures var e := FillPrice(r, o, price, maker);
      e >= 0.0 && JustBelow(e, if maker then price else Quote(price, r.slippageBps, o.side == Long))
  {
    SlippedNonnegative(r, price, o.side, true);
    QJustBelow(if maker then price else Slipped(r, price, o.side, true));
    SlippedIs(r, price, o.side, true);
  }

  lemma OpenedTerms(r: Rates, o: Order, price: real, maker: bool, id: Id)
    requires FairRates(r) && price >= 0.0 && o.quantity >= 0.0
    ensures FilledOn(r, o, price, maker, Opened(r, o, price, maker, id))
  {
    EntryTerms(r, o, price, maker);
    FeeTerms(FillPrice(r, o, price, maker), o.quantity, if maker then r.maker else r.taker);
  }

  /** A fill appends one position on the order's own terms and takes its fee, and nothing else, from cash. */
  lemma FillTerms(r: Rates, b: Book, i: nat, price: real, maker: bool)
    requires FairRates(r) && price >= 0.0 && i < |b.orders| && b.orders[i].quantity >= 0.0
    ensures var b', o := Fill(r, b, i, price, maker), b.orders[i];
      && |b'.positions| == |b.positions| + 1 && b'.positions[..|b.positions|] == b.positions
      && FilledOn(r, o, price, maker, b'.positions[|b.positions|])
  {
    OpenedTerms(r, b.orders[i], price, maker, b.nextId);
  }

  lemma FillPays(r: Rates, b: Book, i: nat, price: real, maker: bool)
    requires i < |b.orders|
    ensures var b', o := Fill(r, b, i, price, maker), b.orders[i];
      && |b'.positions| == |b.positions| + 1
      && var p := b'.positions[|b.positions|];
        && b'.cash == b.cash - p.fees && b'.starting == b.starting
        && b'.orders == b.orders[i := o.(status := Filled, fillPrice := Some(p.entry), fee := p.fees)]
  { }

  /** Orders a tick fills are filled at their limit, as maker. */
  lemma TickFillTerms(r: Rates, b: Book, symbol: string, price: real, k: nat)
    requires FairRates(r)
    ensures var hits := MarketableFrom(b.orders, 0, symbol, price);
      k < |hits| && hits[k].quantity >= 0.0 && hits[k].limit.value >= 0.0 ==>
        FilledOn(r, hits[k], hits[k].limit.value, true, NewPosition(r, hits, k, b.nextId))
  {
    var hits := MarketableFrom(b.orders, 0, symbol, price);
    if k < |hits| && hits[k].quantity >= 0.0 && hits[k].limit.value >= 0.0 {
      OpenedTerms(r, hits[k], hits[k].limit.value, true, b.nextId + k);
    }
  }

  // ---------------------------------------------------------------- what a close pays

  /** Profit of moving from `entry` to `exit` with this quantity on this side. */
  function Profit(side: Side, entry: real, exit: real, quantity: real): real {
    if side == Long then quantity * exit - quantity * entry else quantity * entry - quantity * exit
  }

  lemma GrossTerms(side: Side, entry: real, exit: real, quantity: real)
    ensures Near(Gross(side, entry, exit, quantity), Profit(side, entry, exit, quantity))
  {
    QNear(if side.Long? then (exit - entry) * quantity else (entry - exit) * quantity);
  }

  /** The exit price, what it pays and its fee: the move's profit and the taker fee, up to a grid unit each. */
  predicate CloseAmounts(r: Rates, side: Side, entry: real, quantity: real, price: real, exit: real, gross: real,
                         fee: real) {
    && JustBelow(exit, Quote(price, r.slippageBps, side == Short))
    && Near(gross, Profit(side, entry, exit, quantity)) && JustBelow(fee, exit * quantity * r.taker)
  }

  predicate ClosedOn(r: Rates, p: Position, price: real, why: Reason, c: Position, gross: real, fee: real) {
    && c == p.(open := false, mark := c.mark, unrealized := 0.0, realized := gross - p.fees - fee,
               fees := p.fees + fee, reason := Some(why))
    && CloseAmounts(r, p.side, p.entry, p.quantity, price, c.mark, gross, fee)
  }

  lemma ExitTerms(r: Rates, p: Position, price: real)
    requires FairRates(r) && price >= 0.0 && p.quantity >= 0.0
    ensures CloseAmounts(r, p.side, p.entry, p.quantity, price, ExitPrice(r, p, price), ExitGross(r, p, price),
                         ExitFee(r, p, price))
  {
    SlippedNonnegative(r, price, p.side, false);
    QJustBelow(Slipped(r, price, p.side, false));
    SlippedIs(r, price, p.side, false);
    GrossTerms(p.side, p.entry, ExitPrice(r, p, price), p.quantity);
    FeeTerms(ExitPrice(r, p, price), p.quantity, r.taker);
  }

  lemma ClosedFields(r: Rates, p: Position, price: real, why: Reason, gross: real, fee: real)
    requires OnGrid(p.fees) && gross == ExitGross(r, p, price) && fee == ExitFee(r, p, price)
    ensures ClosedPosition(r, p, price, why)
         == p.(open := false, mark := ExitPrice(r, p, price), unrealized := 0.0, realized := gross - p.fees - fee,
               fees := p.fees + fee, reason := Some(why))
  {
    CloseExact(r, p, price, why);
  }

  lemma ClosedTerms(r: Rates, p: Position, price: real, why: Reason, gross: real, fee: real)
    requires FairRates(r) && price >= 0.0 && p.quantity >= 0.0 && OnGrid(p.fees)
    requires gross == ExitGross(r, p, price) && fee == ExitFee(r, p, price)
    ensures ClosedOn(r, p, price, why, ClosedPosition(r, p, price, why), gross, fee)
  {
    ExitTerms(r, p, price);
    ClosedFields(r, p, price, why, gross, fee);
  }

  /** A close pays the profit of the move less its fee, each exact up to a grid unit, into cash. */
  lemma CloseTerms(r: Rates, b: Book, j: nat, price: real, why: Reason) returns (gross: real, fee: real)
    requires FairRates(r) && price >= 0.0 && j < |b.positions|
    requires b.positions[j].quantity >= 0.0 && OnGrid(b.positions[j].fees)
    ensures var b' := CloseAt(r, b, j, price, why);
      && |b'.positions| == |b.positions| && b'.orders == b.orders && b'.starting == b.starting
      && (forall k :: 0 <= k < |b.positions| && k != j ==> b'.positions[k] == b.positions[k])
      && ClosedOn(r, b.positions[j], price, why, b'.positions[j], gross, fee) && b'.cash == b.cash + gross - fee
  {
    var p := b.positions[j];
    gross, fee := ExitGross(r, p, price), ExitFee(r, p, price);
    ClosedTerms(r, p, price, why, gross, fee);
    ClosePays(r, b, j, price, why, gross, fee);
  }

  lemma ClosePays(r: Rates, b: Book, j: nat, price: real, why: Reason, gross: real, fee: real)
    requires j < |b.positions|
    requires gross == ExitGross(r, b.positions[j], price) && fee == ExitFee(r, b.positions[j], price)
    ensures var b' := CloseAt(r, b, j, price, why);
      b'.positions == b.positions[j := ClosedPosition(r, b.positions[j], price, why)] && b'.cash == b.cash + gross - fee
  { }

  /** A mark shows the price and the profit at it, each up to a grid unit. */
  lemma MarkTerms(p: Position, price: real)
    ensures var m := Marked(p, price);
      && m == p.(mark := m.mark, unrealized := m.unrealized)
      && Near(m.mark, price) && Near(m.unrealized, Profit(p.side, p.entry, price, p.quantity))
  {
    QNear(price);
    GrossTerms(p.side, p.entry, price, p.quantity);
  }

  /**
   What a tick does to one position: nothing to other symbols and closed positions; closed at the stop when
   the price has reached it, else at the target when it has reached that, else only marked.
   */
  lemma TickClosesExactly(r: Rates, b: Book, symbol: string, price: real, j: nat)
    requires j < |b.positions|
    ensures j < |Tick(r, b, symbol, price).positions|
    ensures var p, p' := b.positions[j], Tick(r, b, symbol, price).positions[j];
      var stopped := if p.side == Long then price <= p.stopLoss else price >= p.stopLoss;
      var reached := if p.side == Long then price >= p.takeProfit else price <= p.takeProfit;
      if p.symbol != symbol || !p.open then p' == p
      else if stopped then !p'.open && p'.reason == Some(StopLoss)
      else if reached then !p'.open && p'.reason == Some(TakeProfit)
      else p' == p.(mark := p'.mark, unrealized := p'.unrealized)
  {
    TickShape(r, b, symbol, price);
  }

  // ---------------------------------------------------------------- what a request becomes

  /** The order record of a request: its own fields, amounts truncated to the grid. */
  predicate OrderOf(q: Request, o: Order) {
    && o.symbol == q.symbol && o.side == q.side && o.kind == q.kind
    && JustBelow(o.quantity, q.quantity) && JustBelow(o.reference, q.reference)
    && JustBelow(o.stopLoss, q.stopLoss) && JustBelow(o.takeProfit, q.takeProfit)
    && (o.limit.Some? <==> q.limit.Some?) && (q.limit.Some? ==> JustBelow(o.limit.value, q.limit.value))
    && (q.client.Some? ==> o.client == Given(q.client.value))
  }

  /**
   A request is accepted exactly when risk approved it and its client id is new. A limit order then waits and
   costs nothing; a market order is filled at once, at its reference price and as taker.
   */
  lemma SubmitTerms(r: Rates, b: Book, q: Request)
    requires FairRates(r) && ValidRequest(q)
    ensures Submit(r, b, q).Ok? <==>
      q.approved && forall i :: 0 <= i < |b.orders| && q.client.Some? ==> b.orders[i].client != Given(q.client.value)
    ensures Submit(r, b, q).Ok? ==>
      var b' := Submit(r, b, q).value;
      && |b'.orders| == |b.orders| + 1 && b'.orders[..|b.orders|] == b.orders && OrderOf(q, b'.orders[|b.orders|])
      && (q.kind == Limit ==>
            b'.orders[|b.orders|].status == Pending && b'.cash == b.cash && b'.positions == b.positions)
      && (q.kind == Market ==>
            && b'.orders[|b.orders|].status == Filled && |b'.positions| == |b.positions| + 1
            && var p := b'.positions[|b.positions|];
               b'.cash == b.cash - p.fees && p.side == q.side && p.quantity == b'.orders[|b.orders|].quantity
               && JustBelow(p.entry, Quote(q.reference, r.slippageBps, q.side == Long)))
  {
    var o := NewOrder(q, b.nextId);
    RequestTruncated(q, b.nextId);
    var b1 := b.(orders := b.orders + [o], nextId := b.nextId + 1);
    if q.kind.Market? {
      FillTerms(r, b1, |b.orders|, q.reference, false);
      FillPays(r, b1, |b.orders|, q.reference, false);
    }
  }

  lemma RequestTruncated(q: Request, id: Id)
    requires ValidRequest(q)
    ensures OrderOf(q, NewOrder(q, id)) && NewOrder(q, id).quantity >= 0.0
  {
    QJustBelow(q.quantity);
    QJustBelow(q.reference);
    QJustBelow(q.stopLoss);
    QJustBelow(q.takeProfit);
    if q.limit.Some? { QJustBelow(q.limit.value); }
  }

  // ---------------------------------------------------------------- requests about what exists

  /** A cancellation succeeds exactly on a pending order, and changes its status and nothing else. */
  lemma CancelTerms(b: Book, id: Id, i: nat)
    requires i < |b.orders| && b.orders[i].id == id && forall k :: 0 <= k < i ==> b.orders[k].id != id
    ensures Cancel(b, id).Ok? <==> b.orders[i].status == Pending
    ensures Cancel(b, id).Ok? ==>
      var b' := Cancel(b, id).value;
      && |b'.orders| == |b.orders| && b'.orders[i] == b.orders[i].(status := Cancelled)
      && (forall k :: 0 <= k < |b.orders| && k != i ==> b'.orders[k] == b.orders[k])
      && b'.cash == b.cash && b'.positions == b.positions && b'.starting == b.starting
  { }

  /** A requested close succeeds exactly on an open position, which it closes by hand; no order and no other changes. */
  lemma CloseRequestTerms(r: Rates, b: Book, id: Id, price: real, why: string, j: nat)
    requires j < |b.positions| && b.positions[j].id == id && forall k :: 0 <= k < j ==> b.positions[k].id != id
    ensures Close(r, b, id, price, why).Ok? <==> b.positions[j].open
    ensures Close(r, b, id, price, why).Ok? ==>
      var b' := Close(r, b, id, price, why).value;
      && |b'.positions| == |b.positions| && b'.orders == b.orders && b' == CloseAt(r, b, j, price, Manual(why))
      && !b'.positions[j].open && b'.positions[j].reason == Some(Manual(why))
      && (forall k :: 0 <= k < |b.positions| && k != j ==> b'.positions[k] == b.positions[k])
  { }

  /** Nothing answers to an id that is not there, and a reset leaves the starting balance alone in the book. */
  lemma AbsentTerms(r: Rates, b: Book, id: Id, price: real, why: string)
    ensures (forall k :: 0 <= k < |b.orders| ==> b.orders[k].id != id) ==> Cancel(b, id) == Err(OrderNotFound)
    ensures (forall k :: 0 <= k < |b.positions| ==> b.positions[k].id != id) ==>
      Close(r, b, id, price, why) == Err(PositionNotFound)
    ensures Reset(b).cash == b.starting && Reset(b).orders == [] && Reset(b).positions == []
  { }
}
