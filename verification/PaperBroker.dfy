/**
 `PaperBroker` as an object: every method changes the fields step by step and ends in the book that
 the corresponding function on values gives.
 */
module PaperBroker {
  import opened Options
  import opened PaperGrid
  import opened PaperBook
  import opened PaperLedger

  /** Identifiers of the orders a tick fills, in the order in which it fills them. */
  function FilledIds(orders: seq<Order>, i: nat, symbol: string, price: real): seq<Id>
    requires i <= |orders|
    decreases |orders| - i
  {
    if i == |orders| then []
    else (if Marketable(orders[i], symbol, price) then [orders[i].id] else []) + FilledIds(orders, i + 1, symbol, price)
  }

  function ClosedIds(positions: seq<Position>, j: nat, symbol: string, price: real): seq<Id>
    requires j <= |positions|
    decreases |positions| - j
  {
    if j == |positions| then []
    else (if Live(positions[j], symbol) && Trigger(positions[j], price).Some? then [positions[j].id] else [])
         + ClosedIds(positions, j + 1, symbol, price)
  }

  lemma MarkFromStep(r: Rates, b: Book, j: nat, symbol: string, price: real)
    requires j < |b.positions|
    ensures MarkFrom(r, b, j, symbol, price) == MarkFrom(r, MarkOne(r, b, j, symbol, price), j + 1, symbol, price)
  { }

  class PaperBroker {
    const rates: Rates
    var startingBalance: real
    var cashBalance: real
    var orders: seq<Order>
    var positions: seq<Position>
    var nextId: Id

    function Contents(): Book
      reads this
    {
      Book(startingBalance, cashBalance, orders, positions, nextId)
    }

    constructor (starting: real, rates: Rates)
      requires starting > 0.0
      ensures Contents() == Book(starting, starting, [], [], 0) && this.rates == rates
    {
      this.rates := rates;
      startingBalance := starting;
      cashBalance := starting;
      orders := [];
      positions := [];
      nextId := 0;
    }

    method FillOrder(i: nat, price: real, maker: bool)
      requires i < |orders|
      modifies this
      ensures Contents() == Fill(rates, old(Contents()), i, price, maker)
    {
      var o := orders[i];
      var fillPrice := FillPrice(rates, o, price, maker);
      var fee := EntryFee(rates, o, price, maker);
      cashBalance := cashBalance - fee;
      orders := orders[i := o.(status := Filled, fillPrice := Some(fillPrice), fee := fee)];
      var id := nextId;
      nextId := nextId + 1;
      positions := positions + [Position(id, o.id, o.symbol, o.side, true, o.quantity, fillPrice, fillPrice,
                                         o.stopLoss, o.takeProfit, 0.0, 0.0, fee, None)];
    }

    method CloseOpen(j: nat, price: real, why: Reason)
      requires j < |positions|
      modifies this
      ensures Contents() == CloseAt(rates, old(Contents()), j, price, why)
    {
      var p := positions[j];
      var exit, gross, fee := ExitPrice(rates, p, price), ExitGross(rates, p, price), ExitFee(rates, p, price);
      cashBalance := cashBalance + (gross - fee);
      positions := positions[j := p.(open := false, mark := exit, unrealized := 0.0,
                                     realized := NetOf(gross, p.fees, fee), fees := Q(p.fees + fee),
                                     reason := Some(why))];
    }

    method SubmitOrder(q: Request) returns (done: Result<Id>)
      requires ValidRequest(q)
      modifies this
      ensures done.Ok? <==> Submit(rates, old(Contents()), q).Ok?
      ensures done.Err? ==> Submit(rates, old(Contents()), q) == Err(done.error)
      ensures Contents() == Or(Submit(rates, old(Contents()), q), old(Contents()))
    {
      if !q.approved { return Err(RiskRejected); }
      if ClientTaken(orders, q.client) { return Err(DuplicateClientOrderId); }
      var id := nextId;
      nextId := nextId + 1;
      orders := orders + [NewOrder(q, id)];
      if q.kind.Market? { FillOrder(|orders| - 1, q.reference, false); }
      return Ok(id);
    }

    method CancelOrder(id: Id) returns (done: Result<Id>)
      modifies this
      ensures done.Ok? <==> Cancel(old(Contents()), id).Ok?
      ensures Contents() == Or(Cancel(old(Contents()), id), old(Contents()))
    {
      var i := FindOrder(orders, id, 0);
      if i == |orders| { return Err(OrderNotFound); }
      if !orders[i].status.Pending? { return Err(NotPending); }
      orders := orders[i := orders[i].(status := Cancelled)];
      return Ok(id);
    }

    method ClosePosition(id: Id, price: real, why: string) returns (done: Result<Id>)
      modifies this
      ensures done.Ok? <==> Close(rates, old(Contents()), id, price, why).Ok?
      ensures Contents() == Or(Close(rates, old(Contents()), id, price, why), old(Contents()))
    {
      var j := FindPosition(positions, id, 0);
      if j == |positions| { return Err(PositionNotFound); }
      if !positions[j].open { return Err(PositionNotOpen); }
      CloseOpen(j, price, Manual(why));
      return Ok(id);
    }

    /** One order of the first loop of a tick. */
    method FillIfMarketable(i: nat, symbol: string, price: real) returns (hit: bool)
      requires i < |orders|
      modifies this
      ensures Contents() == FillOne(rates, old(Contents()), i, symbol, price)
      ensures hit <==> Marketable(old(orders)[i], symbol, price)
      ensures |orders| == |old(orders)|
      ensures forall k :: 0 <= k < |orders| && k != i ==> orders[k] == old(orders)[k]
    {
      hit := Marketable(orders[i], symbol, price);
      if hit { FillOrder(i, orders[i].limit.value, true); }
    }

    method FillPass(symbol: string, price: real) returns (filled: seq<Id>)
      modifies this
      ensures Contents() == FillFrom(rates, old(Contents()), 0, symbol, price)
      ensures filled == FilledIds(old(orders), 0, symbol, price)
    {
      filled := [];
      var i := 0;
      while i < |orders|
        invariant 0 <= i <= |orders| && |orders| == |old(orders)|
        invariant FillFrom(rates, Contents(), i, symbol, price) == FillFrom(rates, old(Contents()), 0, symbol, price)
        invariant forall k :: i <= k < |orders| ==> orders[k] == old(orders)[k]
        invariant filled + FilledIds(old(orders), i, symbol, price) == FilledIds(old(orders), 0, symbol, price)
        decreases |orders| - i
      {
        var id := orders[i].id;
        var hit := FillIfMarketable(i, symbol, price);
        if hit { filled := filled + [id]; }
        i := i + 1;
      }
    }

    /** Mark one position and close it when its bracket is reached. */
    method MarkAt(j: nat, symbol: string, price: real) returns (hit: bool)
      requires j < |positions|
      modifies this
      ensures Contents() == MarkOne(rates, old(Contents()), j, symbol, price)
      ensures hit <==> Live(old(positions)[j], symbol) && Trigger(old(positions)[j], price).Some?
      ensures |positions| == |old(positions)|
      ensures forall k :: 0 <= k < |positions| && k != j ==> positions[k] == old(positions)[k]
    {
      hit := false;
      var p := positions[j];
      if Live(p, symbol) {
        positions := positions[j := Marked(p, price)];
        var why := Trigger(p, price);
        if why.Some? {
          hit := true;
          CloseOpen(j, price, why.value);
        }
      }
    }

    method MarkPass(symbol: string, price: real) returns (closed: seq<Id>)
      modifies this
      ensures Contents() == MarkFrom(rates, old(Contents()), 0, symbol, price)
      ensures closed == ClosedIds(old(positions), 0, symbol, price)
    {
      closed := [];
      var j := 0;
      while j < |positions|
        invariant 0 <= j <= |positions| && |positions| == |old(positions)|
        invariant MarkFrom(rates, Contents(), j, symbol, price) == MarkFrom(rates, old(Contents()), 0, symbol, price)
        invariant forall k :: j <= k < |positions| ==> positions[k] == old(positions)[k]
        invariant closed + ClosedIds(old(positions), j, symbol, price) == ClosedIds(old(positions), 0, symbol, price)
        decreases |positions| - j
      {
        var id := positions[j].id;
        ghost var rest := ClosedIds(old(positions), j + 1, symbol, price);
        MarkFromStep(rates, Contents(), j, symbol, price);
        var hit := MarkAt(j, symbol, price);
        if hit {
          assert closed + ([id] + rest) == (closed + [id]) + rest;
          closed := closed + [id];
        } else {
          assert [] + rest == rest;
        }
        j := j + 1;
      }
    }

    /** One market price for one symbol: fill marketable limits, then mark and close what triggers. */
    method TickOnce(symbol: string, price: real) returns (filled: seq<Id>, closed: seq<Id>)
      modifies this
      ensures Contents() == Tick(rates, old(Contents()), symbol, price)
      ensures filled == FilledIds(old(orders), 0, symbol, price)
      ensures closed == ClosedIds(FillFrom(rates, old(Contents()), 0, symbol, price).positions, 0, symbol, price)
    {
      filled := FillPass(symbol, price);
      closed := MarkPass(symbol, price);
    }

    method RestoreFrom(v: Book)
      modifies this
      ensures Contents() == Restore(old(Contents()), v)
    {
      startingBalance := Q(v.starting);
      cashBalance := Q(v.cash);
      orders := seq(|v.orders|, i requires 0 <= i < |v.orders| =>
        v.orders[i].(stopLoss := Q(v.orders[i].stopLoss), takeProfit := Q(v.orders[i].takeProfit)));
      positions := v.positions;
      if nextId < v.nextId { nextId := v.nextId; }
    }

    method ResetAll()
      modifies this
      ensures Contents() == Reset(old(Contents()))
    {
      cashBalance := startingBalance;
      orders := [];
      positions := [];
    }
  }
}
