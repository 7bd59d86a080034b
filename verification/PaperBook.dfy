/**
 The paper broker's ledger as values: what each operation of `PaperBroker` does to cash, orders and
 positions, and what holds after every sequence of operations.

 The broker's dictionaries keep insertion order, so they are sequences here. `nextId` stands for
 `uuid4`: identifiers never repeat.
 */
module PaperBook {
  import opened Options
  import opened PaperGrid

  datatype Result<+T> = Ok(value: T) | Err(error: BrokerError)
  datatype BrokerError =
    | RiskRejected | DuplicateClientOrderId | OrderNotFound | NotPending | PositionNotFound | PositionNotOpen

  type Id = nat
  datatype Side = Long | Short
  datatype Kind = Market | Limit
  datatype Status = Pending | Filled | Cancelled
  datatype ClientId = Given(name: string) | Generated(id: Id)
  datatype Reason = StopLoss | TakeProfit | Manual(text: string)

  datatype Order = Order(
    id: Id, client: ClientId, symbol: string, side: Side, kind: Kind, status: Status, quantity: real,
    reference: real, limit: Option<real>, fillPrice: Option<real>, stopLoss: real, takeProfit: real, fee: real)

  datatype Position = Position(
    id: Id, orderId: Id, symbol: string, side: Side, open: bool, quantity: real, entry: real, mark: real,
    stopLoss: real, takeProfit: real, unrealized: real, realized: real, fees: real, reason: Option<Reason>)

  datatype Rates = Rates(taker: real, maker: real, slippageBps: real)

  datatype Book = Book(starting: real, cash: real, orders: seq<Order>, positions: seq<Position>, nextId: Id)

  /** A request that passed its own validation. */
  datatype Request = Request(
    symbol: string, side: Side, quantity: real, reference: real, stopLoss: real, takeProfit: real,
    kind: Kind, limit: Option<real>, approved: bool, client: Option<string>)

  predicate ValidRequest(q: Request) {
    && q.quantity > 0.0 && q.reference > 0.0 && q.stopLoss > 0.0 && q.takeProfit > 0.0
    && (q.limit.Some? ==> q.limit.value > 0.0) && (q.kind.Limit? ==> q.limit.Some?)
    && (q.side.Long? ==> q.stopLoss < q.reference < q.takeProfit)
    && (q.side.Short? ==> q.takeProfit < q.reference < q.stopLoss)
  }

  // ---------------------------------------------------------------- arithmetic

  function Slipped(r: Rates, price: real, side: Side, opening: bool): real {
    var buy := (side.Long? && opening) || (side.Short? && !opening);
    price * (if buy then 1.0 + r.slippageBps / 10000.0 else 1.0 - r.slippageBps / 10000.0)
  }

  function Gross(side: Side, entry: real, exit: real, quantity: real): real {
    Q(if side.Long? then (exit - entry) * quantity else (entry - exit) * quantity)
  }

  function Fee(price: real, quantity: real, rate: real): real { Q(price * quantity * rate) }

  function NetOf(gross: real, paid: real, fee: real): real { Q(gross - paid - fee) }

  // ---------------------------------------------------------------- filling

  function FillPrice(r: Rates, o: Order, price: real, maker: bool): real {
    Q(if maker then price else Slipped(r, price, o.side, true))
  }

  function EntryFee(r: Rates, o: Order, price: real, maker: bool): real {
    Fee(FillPrice(r, o, price, maker), o.quantity, if maker then r.maker else r.taker)
  }

  function FilledOrder(r: Rates, o: Order, price: real, maker: bool): Order {
    o.(status := Filled, fillPrice := Some(FillPrice(r, o, price, maker)), fee := EntryFee(r, o, price, maker))
  }

  function Opened(r: Rates, o: Order, price: real, maker: bool, id: Id): Position {
    var p := FillPrice(r, o, price, maker);
    Position(id, o.id, o.symbol, o.side, true, o.quantity, p, p, o.stopLoss, o.takeProfit, 0.0, 0.0,
             EntryFee(r, o, price, maker), None)
  }

  /** `_fill` on the order at index `i`. */
  function Fill(r: Rates, b: Book, i: nat, price: real, maker: bool): Book
    requires i < |b.orders|
  {
    var o := b.orders[i];
    b.(cash := b.cash - EntryFee(r, o, price, maker),
       orders := b.orders[i := FilledOrder(r, o, price, maker)],
       positions := b.positions + [Opened(r, o, price, maker, b.nextId)],
       nextId := b.nextId + 1)
  }

  // ---------------------------------------------------------------- closing

  function ExitPrice(r: Rates, p: Position, price: real): real { Q(Slipped(r, price, p.side, false)) }

  function ExitFee(r: Rates, p: Position, price: real): real { Fee(ExitPrice(r, p, price), p.quantity, r.taker) }

  function ExitGross(r: Rates, p: Position, price: real): real {
    Gross(p.side, p.entry, ExitPrice(r, p, price), p.quantity)
  }

  function ClosedPosition(r: Rates, p: Position, price: real, why: Reason): Position {
    var gross, fee := ExitGross(r, p, price), ExitFee(r, p, price);
    p.(open := false, mark := ExitPrice(r, p, price), unrealized := 0.0, realized := NetOf(gross, p.fees, fee),
       fees := Q(p.fees + fee), reason := Some(why))
  }

  function Proceeds(r: Rates, p: Position, price: real): real { ExitGross(r, p, price) - ExitFee(r, p, price) }

  /** `_close_position` on the open position at index `j`. */
  function CloseAt(r: Rates, b: Book, j: nat, price: real, why: Reason): Book
    requires j < |b.positions|
  {
    var p := b.positions[j];
    b.(cash := b.cash + Proceeds(r, p, price), positions := b.positions[j := ClosedPosition(r, p, price, why)])
  }

  // ---------------------------------------------------------------- the public operations

  predicate ClientTaken(orders: seq<Order>, client: Option<string>) {
    client.Some? && exists i :: 0 <= i < |orders| && orders[i].client == Given(client.value)
  }

  function NewOrder(q: Request, id: Id): Order {
    Order(id, if q.client.Some? then Given(q.client.value) else Generated(id), q.symbol, q.side, q.kind, Pending,
          Q(q.quantity), Q(q.reference), if q.limit.Some? then Some(Q(q.limit.value)) else None, None,
          Q(q.stopLoss), Q(q.takeProfit), 0.0)
  }

  function Submit(r: Rates, b: Book, q: Request): Result<Book> {
    if !q.approved then Err(RiskRejected)
    else if ClientTaken(b.orders, q.client) then Err(DuplicateClientOrderId)
    else
      var b1 := b.(orders := b.orders + [NewOrder(q, b.nextId)], nextId := b.nextId + 1);
      Ok(if q.kind.Market? then Fill(r, b1, |b.orders|, q.reference, false) else b1)
  }

  function FindOrder(orders: seq<Order>, id: Id, i: nat): (k: nat)
    requires i <= |orders|
    ensures i <= k <= |orders| && (k < |orders| ==> orders[k].id == id)
    ensures forall j :: i <= j < k ==> orders[j].id != id
    decreases |orders| - i
  {
    if i == |orders| || orders[i].id == id then i else FindOrder(orders, id, i + 1)
  }

  function FindPosition(positions: seq<Position>, id: Id, i: nat): (k: nat)
    requires i <= |positions|
    ensures i <= k <= |positions| && (k < |positions| ==> positions[k].id == id)
    ensures forall j :: i <= j < k ==> positions[j].id != id
    decreases |positions| - i
  {
    if i == |positions| || positions[i].id == id then i else FindPosition(positions, id, i + 1)
  }

  function Cancel(b: Book, id: Id): Result<Book> {
    var i := FindOrder(b.orders, id, 0);
    if i == |b.orders| then Err(OrderNotFound)
    else if !b.orders[i].status.Pending? then Err(NotPending)
    else Ok(b.(orders := b.orders[i := b.orders[i].(status := Cancelled)]))
  }

  function Close(r: Rates, b: Book, id: Id, price: real, why: string): Result<Book> {
    var j := FindPosition(b.positions, id, 0);
    if j == |b.positions| then Err(PositionNotFound)
    else if !b.positions[j].open then Err(PositionNotOpen)
    else Ok(CloseAt(r, b, j, price, Manual(why)))
  }

  function Reset(b: Book): Book { b.(cash := b.starting, orders := [], positions := []) }

  // ---------------------------------------------------------------- ticks

  predicate Marketable(o: Order, symbol: string, price: real) {
    && o.symbol == symbol && o.status.Pending? && o.limit.Some?
    && ((o.side.Long? && price <= o.limit.value) || (o.side.Short? && price >= o.limit.value))
  }

  predicate Live(p: Position, symbol: string) { p.symbol == symbol && p.open }

  function Marked(p: Position, price: real): Position {
    p.(mark := Q(price), unrealized := Gross(p.side, p.entry, price, p.quantity))
  }

  function Trigger(p: Position, price: real): Option<Reason> {
    if p.side.Long? then
      if price <= p.stopLoss then Some(StopLoss) else if price >= p.takeProfit then Some(TakeProfit) else None
    else
      if price >= p.stopLoss then Some(StopLoss) else if price <= p.takeProfit then Some(TakeProfit) else None
  }

  function FillOne(r: Rates, b: Book, i: nat, symbol: string, price: real): (b': Book)
    requires i < |b.orders|
    ensures |b'.orders| == |b.orders| && |b'.positions| >= |b.positions|
  {
    if Marketable(b.orders[i], symbol, price) then Fill(r, b, i, b.orders[i].limit.value, true) else b
  }

  /** The first loop of a tick, from order `i` on. */
  function FillFrom(r: Rates, b: Book, i: nat, symbol: string, price: real): (b': Book)
    requires i <= |b.orders|
    ensures |b'.orders| == |b.orders|
    decreases |b.orders| - i
  {
    if i == |b.orders| then b else FillFrom(r, FillOne(r, b, i, symbol, price), i + 1, symbol, price)
  }

  function MarkOne(r: Rates, b: Book, j: nat, symbol: string, price: real): (b': Book)
    requires j < |b.positions|
    ensures |b'.positions| == |b.positions| && b'.orders == b.orders
  {
    var p := b.positions[j];
    if !Live(p, symbol) then b
    else
      var b1 := b.(positions := b.positions[j := Marked(p, price)]);
      match Trigger(p, price)
      case None => b1
      case Some(why) => CloseAt(r, b1, j, price, why)
  }

  /** The second loop of a tick, from position `j` on. */
  function MarkFrom(r: Rates, b: Book, j: nat, symbol: string, price: real): (b': Book)
    requires j <= |b.positions|
    ensures |b'.positions| == |b.positions| && b'.orders == b.orders
    decreases |b.positions| - j
  {
    if j == |b.positions| then b else MarkFrom(r, MarkOne(r, b, j, symbol, price), j + 1, symbol, price)
  }

  function Tick(r: Rates, b: Book, symbol: string, price: real): Book {
    MarkFrom(r, FillFrom(r, b, 0, symbol, price), 0, symbol, price)
  }
}
