/**
 What a tick of the paper broker leaves behind.
 */
module PaperTick {
  import opened Options
  import opened PaperGrid
  import opened PaperBook

  /** The order after a tick, on its own. */
  function OrderAfter(r: Rates, o: Order, symbol: string, price: real): Order {
    if Marketable(o, symbol, price) then FilledOrder(r, o, o.limit.value, true) else o
  }

  /** The position after a tick, on its own. */
  function PositionAfter(r: Rates, p: Position, symbol: string, price: real): Position {
    if !Live(p, symbol) then p
    else match Trigger(p, price)
      case None => Marked(p, price)
      case Some(why) => ClosedPosition(r, Marked(p, price), price, why)
  }

  /** The marketable orders from index `i` on, in the order of the book. */
  function MarketableFrom(orders: seq<Order>, i: nat, symbol: string, price: real): (t: seq<Order>)
    requires i <= |orders|
    ensures forall k :: 0 <= k < |t| ==> t[k].limit.Some? && t[k].symbol == symbol
    decreases |orders| - i
  {
    if i == |orders| then []
    else if Marketable(orders[i], symbol, price) then [orders[i]] + MarketableFrom(orders, i + 1, symbol, price)
    else MarketableFrom(orders, i + 1, symbol, price)
  }

  /** The positions that the marketable orders from index `i` on open, with new identifiers from `id` on. */
  function OpenedFrom(r: Rates, orders: seq<Order>, i: nat, symbol: string, price: real, id: Id): seq<Position>
    requires i <= |orders|
    decreases |orders| - i
  {
    if i == |orders| then []
    else if Marketable(orders[i], symbol, price) then
      [Opened(r, orders[i], orders[i].limit.value, true, id)] + OpenedFrom(r, orders, i + 1, symbol, price, id + 1)
    else OpenedFrom(r, orders, i + 1, symbol, price, id)
  }

  /** One position per marketable order, in their order. */
  lemma {:induction false} OpenedInOrder(r: Rates, orders: seq<Order>, i: nat, symbol: string, price: real, id: Id,
                                         k: nat)
    requires i <= |orders|
    ensures var ps, hits := OpenedFrom(r, orders, i, symbol, price, id), MarketableFrom(orders, i, symbol, price);
      |ps| == |hits| && (k < |hits| ==> ps[k] == Opened(r, hits[k], hits[k].limit.value, true, id + k))
    decreases |orders| - i
  {
    if i < |orders| {
      if Marketable(orders[i], symbol, price) {
        OpenedInOrder(r, orders, i + 1, symbol, price, id + 1, if k > 0 then k - 1 else 0);
      } else {
        OpenedInOrder(r, orders, i + 1, symbol, price, id, k);
      }
    }
  }

  lemma {:induction false} OpenedSame(r: Rates, a: seq<Order>, b: seq<Order>, i: nat, symbol: string, price: real,
                                      id: Id)
    requires |a| == |b| && i <= |a| && forall k :: i <= k < |a| ==> a[k] == b[k]
    ensures OpenedFrom(r, a, i, symbol, price, id) == OpenedFrom(r, b, i, symbol, price, id)
    decreases |a| - i
  {
    if i < |a| { OpenedSame(r, a, b, i + 1, symbol, price, if Marketable(a[i], symbol, price) then id + 1 else id); }
  }

  lemma {:induction false} FilledOrders(r: Rates, b: Book, i: nat, symbol: string, price: real)
    requires i <= |b.orders|
    ensures var b' := FillFrom(r, b, i, symbol, price);
      forall k :: 0 <= k < |b.orders| ==>
        b'.orders[k] == (if k < i then b.orders[k] else OrderAfter(r, b.orders[k], symbol, price))
    decreases |b.orders| - i
  {
    if i < |b.orders| { FilledOrders(r, FillOne(r, b, i, symbol, price), i + 1, symbol, price); }
  }

  lemma {:induction false} FilledPositions(r: Rates, b: Book, i: nat, symbol: string, price: real)
    requires i <= |b.orders|
    ensures FillFrom(r, b, i, symbol, price).positions
         == b.positions + OpenedFrom(r, b.orders, i, symbol, price, b.nextId)
    decreases |b.orders| - i
  {
    if i < |b.orders| {
      var b1 := FillOne(r, b, i, symbol, price);
      FilledPositions(r, b1, i + 1, symbol, price);
      OpenedSame(r, b1.orders, b.orders, i + 1, symbol, price, b1.nextId);
    }
  }

  lemma {:induction false} MarkFromShape(r: Rates, b: Book, j: nat, symbol: string, price: real)
    requires j <= |b.positions|
    ensures var b' := MarkFrom(r, b, j, symbol, price);
      forall k :: 0 <= k < |b.positions| ==>
        b'.positions[k] == (if k < j then b.positions[k] else PositionAfter(r, b.positions[k], symbol, price))
    decreases |b.positions| - j
  {
    if j < |b.positions| {
      var b1 := MarkOne(r, b, j, symbol, price);
      MarkFromShape(r, b1, j + 1, symbol, price);
      assert b1.positions[j] == PositionAfter(r, b.positions[j], symbol, price);
    }
  }

  /** The position that the k-th of these orders opens. */
  function NewPosition(r: Rates, hits: seq<Order>, k: nat, id: Id): Position
    requires k < |hits| && hits[k].limit.Some?
  {
    Opened(r, hits[k], hits[k].limit.value, true, id + k)
  }

  /** Position `j` once the first loop of the tick is through: an older one, or one that a filled order opened. */
  lemma TickPosition(r: Rates, b: Book, symbol: string, price: real, j: nat)
    ensures var b', hits := Tick(r, b, symbol, price), MarketableFrom(b.orders, 0, symbol, price);
      && |b'.positions| == |b.positions| + |hits|
      && (j < |b.positions| ==> b'.positions[j] == PositionAfter(r, b.positions[j], symbol, price))
      && (j < |hits| ==>
            b'.positions[|b.positions| + j] == PositionAfter(r, NewPosition(r, hits, j, b.nextId), symbol, price))
  {
    FilledPositions(r, b, 0, symbol, price);
    OpenedInOrder(r, b.orders, 0, symbol, price, b.nextId, j);
    MarkFromShape(r, FillFrom(r, b, 0, symbol, price), 0, symbol, price);
  }

  /**
   A tick acts on every order and every position on its own: new positions are those of the orders that
   were marketable, one each and in their order, marked or closed like the older ones.
   */
  lemma TickShape(r: Rates, b: Book, symbol: string, price: real)
    ensures var b', hits := Tick(r, b, symbol, price), MarketableFrom(b.orders, 0, symbol, price);
      && |b'.orders| == |b.orders| && |b'.positions| == |b.positions| + |hits|
      && (forall k :: 0 <= k < |b.orders| ==> b'.orders[k] == OrderAfter(r, b.orders[k], symbol, price))
      && (forall k :: 0 <= k < |b.positions| ==> b'.positions[k] == PositionAfter(r, b.positions[k], symbol, price))
      && (forall k :: 0 <= k < |hits| ==>
            b'.positions[|b.positions| + k] == PositionAfter(r, NewPosition(r, hits, k, b.nextId), symbol, price))
  {
    var b', hits := Tick(r, b, symbol, price), MarketableFrom(b.orders, 0, symbol, price);
    FilledOrders(r, b, 0, symbol, price);
    TickPosition(r, b, symbol, price, 0);
    forall k | 0 <= k < |b.positions| ensures b'.positions[k] == PositionAfter(r, b.positions[k], symbol, price) {
      TickPosition(r, b, symbol, price, k);
    }
    forall k | 0 <= k < |hits|
      ensures b'.positions[|b.positions| + k] == PositionAfter(r, NewPosition(r, hits, k, b.nextId), symbol, price)
    {
      TickPosition(r, b, symbol, price, k);
    }
  }

  /** The price lies strictly between the position's stop and its target. */
  predicate InsideBracket(p: Position, price: real) {
    if p.side.Long? then p.stopLoss < price < p.takeProfit else p.takeProfit < price < p.stopLoss
  }

  /** Nothing of the symbol is left to do at the price. */
  ghost predicate Settled(b: Book, symbol: string, price: real) {
    && (forall i :: 0 <= i < |b.orders| ==> !Marketable(b.orders[i], symbol, price))
    && (forall j :: 0 <= j < |b.positions| && Live(b.positions[j], symbol) ==>
          Trigger(b.positions[j], price).None? && b.positions[j] == Marked(b.positions[j], price))
  }

  lemma AfterIsSettled(r: Rates, p: Position, symbol: string, price: real)
    ensures var a := PositionAfter(r, p, symbol, price);
      Live(a, symbol) ==> Trigger(a, price).None? && a == Marked(a, price)
  { }

  /**
   After a tick no pending limit order of the symbol is marketable at the price, and every open
   position of the symbol, including those filled in the same tick, is marked at the price and lies
   strictly inside its bracket.
   */
  lemma TickSettles(r: Rates, b: Book, symbol: string, price: real)
    ensures var b' := Tick(r, b, symbol, price);
      && Settled(b', symbol, price)
      && forall j :: 0 <= j < |b'.positions| && Live(b'.positions[j], symbol) ==> InsideBracket(b'.positions[j], price)
  {
    TickShape(r, b, symbol, price);
    var b' := Tick(r, b, symbol, price);
    forall j | 0 <= j < |b'.positions| && Live(b'.positions[j], symbol)
      ensures Trigger(b'.positions[j], price).None? && b'.positions[j] == Marked(b'.positions[j], price)
    {
      if j < |b.positions| { AfterIsSettled(r, b.positions[j], symbol, price); }
      else {
        var k := j - |b.positions|;
        assert b'.positions[|b.positions| + k] == b'.positions[j];
        AfterIsSettled(r, NewPosition(r, MarketableFrom(b.orders, 0, symbol, price), k, b.nextId), symbol, price);
      }
    }
  }

  /** A tick leaves the orders and positions of every other symbol alone. */
  lemma TickLeavesOthers(r: Rates, b: Book, symbol: string, price: real)
    ensures var b' := Tick(r, b, symbol, price);
      && |b'.orders| == |b.orders| && |b'.positions| >= |b.positions|
      && (forall i :: 0 <= i < |b.orders| && b.orders[i].symbol != symbol ==> b'.orders[i] == b.orders[i])
      && (forall j :: 0 <= j < |b.positions| && b.positions[j].symbol != symbol ==> b'.positions[j] == b.positions[j])
      && (forall j :: |b.positions| <= j < |b'.positions| ==> b'.positions[j].symbol == symbol)
  {
    TickShape(r, b, symbol, price);
    var b', hits := Tick(r, b, symbol, price), MarketableFrom(b.orders, 0, symbol, price);
    forall j | |b.positions| <= j < |b'.positions| ensures b'.positions[j].symbol == symbol {
      var k := j - |b.positions|;
      assert b'.positions[|b.positions| + k] == b'.positions[j];
      assert NewPosition(r, hits, k, b.nextId).symbol == hits[k].symbol;
    }
  }

  lemma {:induction false} FillIdle(r: Rates, b: Book, i: nat, symbol: string, price: real)
    requires i <= |b.orders| && forall k :: i <= k < |b.orders| ==> !Marketable(b.orders[k], symbol, price)
    ensures FillFrom(r, b, i, symbol, price) == b
    decreases |b.orders| - i
  {
    if i < |b.orders| { FillIdle(r, b, i + 1, symbol, price); }
  }

  lemma {:induction false} MarkIdle(r: Rates, b: Book, j: nat, symbol: string, price: real)
    requires j <= |b.positions| && Settled(b, symbol, price)
    ensures MarkFrom(r, b, j, symbol, price) == b
    decreases |b.positions| - j
  {
    if j < |b.positions| {
      var p := b.positions[j];
      if Live(p, symbol) {
        assert Trigger(p, price).None? && Marked(p, price) == p;
        assert b.positions[j := p] == b.positions;
      }
      assert MarkOne(r, b, j, symbol, price) == b;
      MarkIdle(r, b, j + 1, symbol, price);
    }
  }

  /** Repeating a tick at the same price changes nothing at all. */
  lemma TickTwice(r: Rates, b: Book, symbol: string, price: real)
    ensures Tick(r, Tick(r, b, symbol, price), symbol, price) == Tick(r, b, symbol, price)
  {
    TickSettles(r, b, symbol, price);
    var b' := Tick(r, b, symbol, price);
    FillIdle(r, b', 0, symbol, price);
    MarkIdle(r, b', 0, symbol, price);
  }
}
