/**
 What holds of the paper broker after every sequence of operations: exact cash conservation despite
 truncation, ownership of positions, and the meaning of a tick.
 */
module PaperLedger {
  import opened Options
  import opened Reals
  import opened PaperGrid
  import opened PaperBook

  // ---------------------------------------------------------------- the invariant

  /** What one position has done to cash so far. */
  function Contribution(p: Position): real { if p.open then -p.fees else p.realized }

  function Tally(ps: seq<Position>): real {
    if ps == [] then 0.0 else Tally(ps[..|ps| - 1]) + Contribution(ps[|ps| - 1])
  }

  function Owned(ps: seq<Position>, id: Id): nat {
    if ps == [] then 0 else Owned(ps[..|ps| - 1], id) + (if ps[|ps| - 1].orderId == id then 1 else 0)
  }

  predicate GridPosition(p: Position) {
    OnGrid(p.fees) && OnGrid(p.realized) && OnGrid(p.unrealized) && OnGrid(p.entry) && OnGrid(p.mark)
  }

  predicate GridOrder(o: Order) { OnGrid(o.stopLoss) && OnGrid(o.takeProfit) && OnGrid(o.quantity) }

  /** What cash would be without any position: every operation but reset and restore keeps it. */
  function Base(b: Book): real { b.cash - Tally(b.positions) }

  predicate Balanced(b: Book) { b.cash == b.starting + Tally(b.positions) }

  ghost predicate Gridded(b: Book) {
    && (forall j :: 0 <= j < |b.positions| ==> GridPosition(b.positions[j]))
    && (forall i :: 0 <= i < |b.orders| ==> GridOrder(b.orders[i]))
  }

  /** A filled order owns exactly one position; a pending or cancelled order owns none. */
  ghost predicate Ownership(b: Book) {
    && (forall i :: 0 <= i < |b.orders| ==> b.orders[i].id < b.nextId)
    && (forall j :: 0 <= j < |b.positions| ==> b.positions[j].id < b.nextId && b.positions[j].orderId < b.nextId)
    && (forall i, k :: 0 <= i < k < |b.orders| ==> b.orders[i].id != b.orders[k].id)
    && (forall i, k :: 0 <= i < k < |b.positions| ==> b.positions[i].id != b.positions[k].id)
    && (forall i :: 0 <= i < |b.orders| ==>
          Owned(b.positions, b.orders[i].id) == (if b.orders[i].status.Filled? then 1 else 0))
  }

  ghost predicate Formed(b: Book) { Gridded(b) && Ownership(b) }

  ghost predicate Kept(b: Book) { Balanced(b) && Formed(b) }

  /** An operation kept the book formed, its base and its starting balance. */
  ghost predicate Follows(b: Book, b': Book) { Formed(b') && Base(b') == Base(b) && b'.starting == b.starting }

  // ---------------------------------------------------------------- sums under updates

  lemma {:induction false} TallyUpdate(ps: seq<Position>, j: nat, p: Position)
    requires j < |ps|
    ensures Tally(ps[j := p]) == Tally(ps) - Contribution(ps[j]) + Contribution(p)
  {
    var n := |ps| - 1;
    if j < n {
      TallyUpdate(ps[..n], j, p);
      assert ps[j := p][..n] == ps[..n][j := p];
    } else {
      assert ps[j := p][..n] == ps[..n];
    }
  }

  lemma TallyAppend(ps: seq<Position>, p: Position)
    ensures Tally(ps + [p]) == Tally(ps) + Contribution(p)
  {
    assert (ps + [p])[..|ps|] == ps;
  }

  lemma {:induction false} OwnedUpdate(ps: seq<Position>, j: nat, p: Position, id: Id)
    requires j < |ps| && p.orderId == ps[j].orderId
    ensures Owned(ps[j := p], id) == Owned(ps, id)
  {
    var n := |ps| - 1;
    if j < n {
      OwnedUpdate(ps[..n], j, p, id);
      assert ps[j := p][..n] == ps[..n][j := p];
    } else {
      assert ps[j := p][..n] == ps[..n];
    }
  }

  lemma OwnedAppend(ps: seq<Position>, p: Position, id: Id)
    ensures Owned(ps + [p], id) == Owned(ps, id) + (if p.orderId == id then 1 else 0)
  {
    assert (ps + [p])[..|ps|] == ps;
  }

  lemma {:induction false} OwnedNone(ps: seq<Position>, id: Id)
    requires forall j :: 0 <= j < |ps| ==> ps[j].orderId != id
    ensures Owned(ps, id) == 0
  {
    if ps != [] { OwnedNone(ps[..|ps| - 1], id); }
  }

  // ---------------------------------------------------------------- one fill, one close

  lemma FillBalanced(r: Rates, b: Book, i: nat, price: real, maker: bool)
    requires i < |b.orders|
    ensures Base(Fill(r, b, i, price, maker)) == Base(b)
  {
    TallyAppend(b.positions, Opened(r, b.orders[i], price, maker, b.nextId));
  }

  lemma FillGridded(r: Rates, b: Book, i: nat, price: real, maker: bool)
    requires Gridded(b) && i < |b.orders|
    ensures Gridded(Fill(r, b, i, price, maker))
  {
    var o := b.orders[i];
    QOnGrid(FillPrice(r, o, price, maker) * o.quantity * (if maker then r.maker else r.taker));
    QOnGrid(if maker then price else Slipped(r, price, o.side, true));
    GridZero();
  }

  lemma FillOwnership(r: Rates, b: Book, i: nat, price: real, maker: bool)
    requires Ownership(b) && i < |b.orders| && b.orders[i].status.Pending?
    ensures Ownership(Fill(r, b, i, price, maker))
  {
    var b' := Fill(r, b, i, price, maker);
    forall k | 0 <= k < |b'.orders|
      ensures Owned(b'.positions, b'.orders[k].id) == (if b'.orders[k].status.Filled? then 1 else 0)
    {
      OwnedAppend(b.positions, b'.positions[|b.positions|], b'.orders[k].id);
    }
  }

  lemma FillKept(r: Rates, b: Book, i: nat, price: real, maker: bool)
    requires Formed(b) && i < |b.orders| && b.orders[i].status.Pending?
    ensures Follows(b, Fill(r, b, i, price, maker))
  {
    FillBalanced(r, b, i, price, maker);
    FillGridded(r, b, i, price, maker);
    FillOwnership(r, b, i, price, maker);
  }

  lemma ExitOnGrid(r: Rates, p: Position, price: real)
    ensures OnGrid(ExitGross(r, p, price)) && OnGrid(ExitFee(r, p, price)) && OnGrid(ExitPrice(r, p, price))
  {
    QOnGrid(if p.side.Long? then (ExitPrice(r, p, price) - p.entry) * p.quantity
            else (p.entry - ExitPrice(r, p, price)) * p.quantity);
    QOnGrid(ExitPrice(r, p, price) * p.quantity * r.taker);
    QOnGrid(Slipped(r, price, p.side, false));
  }

  lemma NetExact(gross: real, paid: real, fee: real)
    requires OnGrid(gross) && OnGrid(paid) && OnGrid(fee)
    ensures NetOf(gross, paid, fee) == gross - paid - fee && OnGrid(gross - paid - fee)
    ensures Q(paid + fee) == paid + fee && OnGrid(paid + fee) && OnGrid(gross - fee)
  {
    GridSum(gross, paid);
    GridSum(gross - paid, fee);
    GridSum(paid, fee);
    GridSum(gross, fee);
    QSame(gross - paid - fee);
    QSame(paid + fee);
  }

  /** Realized profit of a close is exact: truncation has already happened in its parts. */
  lemma CloseExact(r: Rates, p: Position, price: real, why: Reason)
    requires OnGrid(p.fees)
    ensures var c := ClosedPosition(r, p, price, why);
      && c.realized == ExitGross(r, p, price) - p.fees - ExitFee(r, p, price) && c.fees == p.fees + ExitFee(r, p, price)
      && OnGrid(c.realized) && OnGrid(c.fees) && OnGrid(c.mark) && OnGrid(Proceeds(r, p, price))
  {
    ExitOnGrid(r, p, price);
    NetExact(ExitGross(r, p, price), p.fees, ExitFee(r, p, price));
  }

  predicate FairRates(r: Rates) { 0.0 <= r.slippageBps <= 10000.0 && r.taker >= 0.0 && r.maker >= 0.0 }

  /** Slippage is always against the trader: buying costs at least the price, selling brings at most the price. */
  lemma SlippageIsAdverse(r: Rates, price: real, side: Side)
    requires FairRates(r) && price >= 0.0
    ensures Slipped(r, price, side, true) >= 0.0 && Slipped(r, price, side, false) >= 0.0
    ensures if side.Long? then Slipped(r, price, side, false) <= price <= Slipped(r, price, side, true)
            else Slipped(r, price, side, true) <= price <= Slipped(r, price, side, false)
  {
    var s := r.slippageBps / 10000.0;
    Product(price, s);
    Product(price, 1.0 - s);
  }

  lemma FeeNonnegative(price: real, quantity: real, rate: real)
    requires price >= 0.0 && quantity >= 0.0 && rate >= 0.0
    ensures Fee(price, quantity, rate) >= 0.0
  {
    Product(price, quantity);
    Product(price * quantity, rate);
    QTowardZero(price * quantity * rate);
  }

  predicate Worse(side: Side, entry: real, exit: real) { if side.Long? then exit <= entry else entry <= exit }

  lemma LossQuantized(move: real, quantity: real)
    requires move <= 0.0 && quantity >= 0.0
    ensures Q(move * quantity) <= 0.0
  {
    Scaling(move, 0.0, quantity);
    QTowardZero(move * quantity);
  }

  lemma GrossOfWorse(side: Side, entry: real, exit: real, quantity: real)
    requires quantity >= 0.0 && Worse(side, entry, exit)
    ensures Gross(side, entry, exit, quantity) <= 0.0
  {
    if side.Long? { LossQuantized(exit - entry, quantity); } else { LossQuantized(entry - exit, quantity); }
  }

  lemma FlatMarketPrices(r: Rates, price: real, side: Side)
    requires FairRates(r) && price >= 0.0
    ensures var entry, exit := Q(Slipped(r, price, side, true)), Q(Slipped(r, price, side, false));
      entry >= 0.0 && exit >= 0.0 && Worse(side, entry, exit)
  {
    SlippageIsAdverse(r, price, side);
    QTowardZero(Slipped(r, price, side, true));
    QTowardZero(Slipped(r, price, side, false));
    if side.Long? { QMonotone(Slipped(r, price, side, false), Slipped(r, price, side, true)); }
    else { QMonotone(Slipped(r, price, side, true), Slipped(r, price, side, false)); }
  }

  lemma RealizedOfWorse(side: Side, entry: real, exit: real, quantity: real, rate: real)
    requires entry >= 0.0 && exit >= 0.0 && quantity >= 0.0 && rate >= 0.0 && Worse(side, entry, exit)
    ensures NetOf(Gross(side, entry, exit, quantity), Fee(entry, quantity, rate), Fee(exit, quantity, rate)) <= 0.0
  {
    GrossOfWorse(side, entry, exit, quantity);
    FeeNonnegative(entry, quantity, rate);
    FeeNonnegative(exit, quantity, rate);
    QTowardZero(Gross(side, entry, exit, quantity) - Fee(entry, quantity, rate) - Fee(exit, quantity, rate));
  }

  /** Opening at the market and closing at the same price never gains, long or short, whatever is truncated. */
  lemma RoundTripNeverGains(r: Rates, o: Order, price: real, id: Id, why: Reason)
    requires FairRates(r) && price >= 0.0 && o.quantity >= 0.0
    ensures ClosedPosition(r, Opened(r, o, price, false, id), price, why).realized <= 0.0
  {
    FlatMarketPrices(r, price, o.side);
    RealizedOfWorse(o.side, Q(Slipped(r, price, o.side, true)), Q(Slipped(r, price, o.side, false)), o.quantity,
                    r.taker);
  }

  lemma CloseKept(r: Rates, b: Book, j: nat, price: real, why: Reason)
    requires Formed(b) && j < |b.positions| && b.positions[j].open
    ensures Follows(b, CloseAt(r, b, j, price, why))
  {
    var p := b.positions[j];
    var c := ClosedPosition(r, p, price, why);
    CloseExact(r, p, price, why);
    TallyUpdate(b.positions, j, c);
    GridZero();
    ReplaceOwnership(b, CloseAt(r, b, j, price, why), j, c);
  }

  lemma ReplaceOwnership(b: Book, b': Book, j: nat, p: Position)
    requires Ownership(b) && j < |b.positions| && p.id == b.positions[j].id && p.orderId == b.positions[j].orderId
    requires b'.orders == b.orders && b'.positions == b.positions[j := p] && b'.nextId == b.nextId
    ensures Ownership(b')
  {
    forall i | 0 <= i < |b.orders| ensures Owned(b'.positions, b.orders[i].id) == Owned(b.positions, b.orders[i].id) {
      OwnedUpdate(b.positions, j, p, b.orders[i].id);
    }
  }

  lemma MarkKept(b: Book, j: nat, price: real)
    requires Formed(b) && j < |b.positions| && b.positions[j].open
    ensures Follows(b, b.(positions := b.positions[j := Marked(b.positions[j], price)]))
  {
    var p := b.positions[j];
    var m := Marked(p, price);
    QOnGrid(price);
    QOnGrid(if p.side.Long? then (price - p.entry) * p.quantity else (p.entry - price) * p.quantity);
    TallyUpdate(b.positions, j, m);
    ReplaceOwnership(b, b.(positions := b.positions[j := m]), j, m);
  }

  // ---------------------------------------------------------------- every operation

  lemma FillOneKept(r: Rates, b: Book, i: nat, symbol: string, price: real)
    requires Formed(b) && i < |b.orders|
    ensures Follows(b, FillOne(r, b, i, symbol, price))
  {
    if Marketable(b.orders[i], symbol, price) { FillKept(r, b, i, b.orders[i].limit.value, true); }
  }

  lemma {:induction false} FillFromKept(r: Rates, b: Book, i: nat, symbol: string, price: real)
    requires Formed(b) && i <= |b.orders|
    ensures Follows(b, FillFrom(r, b, i, symbol, price))
    decreases |b.orders| - i
  {
    if i < |b.orders| {
      FillOneKept(r, b, i, symbol, price);
      FillFromKept(r, FillOne(r, b, i, symbol, price), i + 1, symbol, price);
    }
  }

  lemma MarkOneKept(r: Rates, b: Book, j: nat, symbol: string, price: real)
    requires Formed(b) && j < |b.positions|
    ensures Follows(b, MarkOne(r, b, j, symbol, price))
  {
    var p := b.positions[j];
    if Live(p, symbol) {
      MarkKept(b, j, price);
      var b1 := b.(positions := b.positions[j := Marked(p, price)]);
      if Trigger(p, price).Some? { CloseKept(r, b1, j, price, Trigger(p, price).value); }
    }
  }

  lemma {:induction false} MarkFromKept(r: Rates, b: Book, j: nat, symbol: string, price: real)
    requires Formed(b) && j <= |b.positions|
    ensures Follows(b, MarkFrom(r, b, j, symbol, price))
    decreases |b.positions| - j
  {
    if j < |b.positions| {
      MarkOneKept(r, b, j, symbol, price);
      MarkFromKept(r, MarkOne(r, b, j, symbol, price), j + 1, symbol, price);
    }
  }

  lemma TickKept(r: Rates, b: Book, symbol: string, price: real)
    requires Formed(b)
    ensures Follows(b, Tick(r, b, symbol, price))
  {
    FillFromKept(r, b, 0, symbol, price);
    MarkFromKept(r, FillFrom(r, b, 0, symbol, price), 0, symbol, price);
  }

  lemma AddOrderKept(b: Book, q: Request)
    requires Formed(b)
    ensures Follows(b, b.(orders := b.orders + [NewOrder(q, b.nextId)], nextId := b.nextId + 1))
  {
    QOnGrid(q.stopLoss);
    QOnGrid(q.takeProfit);
    QOnGrid(q.quantity);
    OwnedNone(b.positions, b.nextId);
  }

  lemma SubmitKept(r: Rates, b: Book, q: Request)
    requires Formed(b) && Submit(r, b, q).Ok?
    ensures Follows(b, Submit(r, b, q).value)
  {
    AddOrderKept(b, q);
    var b1 := b.(orders := b.orders + [NewOrder(q, b.nextId)], nextId := b.nextId + 1);
    if q.kind.Market? { FillKept(r, b1, |b.orders|, q.reference, false); }
  }

  lemma CancelKept(b: Book, id: Id)
    requires Formed(b) && Cancel(b, id).Ok?
    ensures Follows(b, Cancel(b, id).value)
  { }

  function Larger(a: Id, b: Id): Id { if a >= b then a else b }

  /**
   `restore`: amounts are quantized again, orders and positions are copied. Identifiers are counted, so
   that new ones differ from all in the snapshot the counter passes the snapshot's.
   */
  function Restore(b: Book, v: Book): Book {
    Book(Q(v.starting), Q(v.cash),
         seq(|v.orders|, i requires 0 <= i < |v.orders| =>
           v.orders[i].(stopLoss := Q(v.orders[i].stopLoss), takeProfit := Q(v.orders[i].takeProfit))),
         v.positions, Larger(b.nextId, v.nextId))
  }

  /** What `state` shows of a book: cash and starting balance quantized, the rest as it is. */
  function View(b: Book): Book { b.(starting := Q(b.starting), cash := Q(b.cash)) }

  /** Restoring gives back exactly what the snapshot's view shows, but for identifiers already used. */
  lemma RestoreExact(b: Book, v: Book)
    requires Gridded(v)
    ensures Restore(b, v) == View(v).(nextId := Larger(b.nextId, v.nextId))
  {
    forall i | 0 <= i < |v.orders| ensures Restore(b, v).orders[i] == v.orders[i] {
      QSame(v.orders[i].stopLoss);
      QSame(v.orders[i].takeProfit);
    }
    assert Restore(b, v).orders == v.orders;
  }

  lemma {:induction false} TallyOnGrid(ps: seq<Position>)
    requires forall j :: 0 <= j < |ps| ==> GridPosition(ps[j])
    ensures OnGrid(Tally(ps))
  {
    if ps == [] { GridZero(); }
    else {
      TallyOnGrid(ps[..|ps| - 1]);
      GridSum(Tally(ps[..|ps| - 1]), ps[|ps| - 1].fees);
      GridSum(Tally(ps[..|ps| - 1]), ps[|ps| - 1].realized);
    }
  }

  predicate Startable(b: Book) { b.starting >= 0.0 || OnGrid(b.starting) }

  /** A starting balance off the grid and cash below zero: truncation then goes two ways. */
  predicate Overdrawn(v: Book) { !OnGrid(v.starting) && v.cash < 0.0 }

  /**
   Restoring a conserved snapshot conserves cash if and only if it is not overdrawn: on the grid nothing is
   truncated, and above zero cash and starting balance lose the same fraction.
   */
  lemma RestoreConservesExactly(b: Book, v: Book)
    requires Kept(v) && Startable(v)
    ensures Formed(Restore(b, v)) && Startable(Restore(b, v))
    ensures Balanced(Restore(b, v)) <==> !Overdrawn(v)
  {
    RestoreExact(b, v);
    TallyOnGrid(v.positions);
    QShift(v.starting, Tally(v.positions));
    QOnGrid(v.starting);
  }

  // ---------------------------------------------------------------- every run

  datatype Op =
    | DoSubmit(q: Request) | DoCancel(id: Id) | DoTick(symbol: string, price: real)
    | DoClose(id: Id, price: real, why: string) | DoReset | DoSave | DoRestore(k: nat)

  /** A broker together with the snapshots taken so far, any of which may be restored. */
  datatype Desk = Desk(book: Book, saved: seq<Book>)

  function Or(x: Result<Book>, b: Book): Book { if x.Ok? then x.value else b }

  /** An operation of the broker itself; saving and restoring involve the store. */
  function Act(r: Rates, b: Book, op: Op): Book {
    match op
    case DoSubmit(q) => Or(Submit(r, b, q), b)
    case DoCancel(id) => Or(Cancel(b, id), b)
    case DoTick(symbol, price) => Tick(r, b, symbol, price)
    case DoClose(id, price, why) => Or(Close(r, b, id, price, why), b)
    case DoReset => Reset(b)
    case _ => b
  }

  function Do(r: Rates, d: Desk, op: Op): Desk {
    match op
    case DoSave => d.(saved := d.saved + [d.book])
    case DoRestore(k) => if k < |d.saved| then d.(book := Restore(d.book, d.saved[k])) else d
    case _ => d.(book := Act(r, d.book, op))
  }

  function DoAll(r: Rates, d: Desk, ops: seq<Op>): Desk
    decreases |ops|
  {
    if ops == [] then d else DoAll(r, Do(r, d, ops[0]), ops[1..])
  }

  ghost predicate DeskKept(d: Desk) {
    && Kept(d.book) && Startable(d.book)
    && forall k :: 0 <= k < |d.saved| ==>
         Kept(d.saved[k]) && Startable(d.saved[k]) && d.saved[k].nextId <= d.book.nextId
  }

  /** The operation restores an overdrawn snapshot. */
  predicate RestoresOverdrawn(d: Desk, op: Op) { op.DoRestore? && op.k < |d.saved| && Overdrawn(d.saved[op.k]) }

  predicate NeverOverdrawn(r: Rates, d: Desk, ops: seq<Op>)
    decreases |ops|
  {
    ops == [] || (!RestoresOverdrawn(d, ops[0]) && NeverOverdrawn(r, Do(r, d, ops[0]), ops[1..]))
  }

  lemma {:induction false} FillFromGrows(r: Rates, b: Book, i: nat, symbol: string, price: real)
    requires i <= |b.orders|
    ensures FillFrom(r, b, i, symbol, price).nextId >= b.nextId
    ensures FillFrom(r, b, i, symbol, price).starting == b.starting
    decreases |b.orders| - i
  {
    if i < |b.orders| { FillFromGrows(r, FillOne(r, b, i, symbol, price), i + 1, symbol, price); }
  }

  lemma {:induction false} MarkFromSame(r: Rates, b: Book, j: nat, symbol: string, price: real)
    requires j <= |b.positions|
    ensures MarkFrom(r, b, j, symbol, price).nextId == b.nextId
    ensures MarkFrom(r, b, j, symbol, price).starting == b.starting
    decreases |b.positions| - j
  {
    if j < |b.positions| { MarkFromSame(r, MarkOne(r, b, j, symbol, price), j + 1, symbol, price); }
  }

  lemma TickGrows(r: Rates, b: Book, symbol: string, price: real)
    ensures Tick(r, b, symbol, price).nextId >= b.nextId && Tick(r, b, symbol, price).starting == b.starting
  {
    FillFromGrows(r, b, 0, symbol, price);
    MarkFromSame(r, FillFrom(r, b, 0, symbol, price), 0, symbol, price);
  }

  /** Every operation of the broker keeps a formed book formed; all but reset keep its base. */
  lemma ActFollows(r: Rates, b: Book, op: Op)
    requires Formed(b)
    ensures var b' := Act(r, b, op);
      && Formed(b') && b'.starting == b.starting && b'.nextId >= b.nextId
      && (if op.DoReset? then Base(b') == b.starting else Base(b') == Base(b))
  {
    match op
    case DoSubmit(q) => if Submit(r, b, q).Ok? { SubmitKept(r, b, q); }
    case DoCancel(id) => if Cancel(b, id).Ok? { CancelKept(b, id); }
    case DoTick(symbol, price) =>
      TickKept(r, b, symbol, price);
      TickGrows(r, b, symbol, price);
    case DoClose(id, price, why) =>
      if Close(r, b, id, price, why).Ok? { CloseKept(r, b, FindPosition(b.positions, id, 0), price, Manual(why)); }
    case _ =>
  }

  /** Conservation, ownership and grid survive an operation if and only if it restores no overdrawn snapshot. */
  lemma DoKeptExactly(r: Rates, d: Desk, op: Op)
    requires DeskKept(d)
    ensures DeskKept(Do(r, d, op)) <==> !RestoresOverdrawn(d, op)
  {
    ActFollows(r, d.book, op);
    if op.DoRestore? && op.k < |d.saved| {
      RestoreConservesExactly(d.book, d.saved[op.k]);
      RestoreExact(d.book, d.saved[op.k]);
    }
  }

  /**
   Conservation and ownership over every run: after any sequence of submits, cancels, ticks, closes,
   resets, saves and restores of snapshots that are not overdrawn, cash is exactly the starting balance
   plus realized profit of closed positions minus fees of open ones, and orders own what they should.
   */
  lemma {:induction false} LedgerKept(r: Rates, d: Desk, ops: seq<Op>)
    requires DeskKept(d) && NeverOverdrawn(r, d, ops)
    ensures DeskKept(DoAll(r, d, ops))
    decreases |ops|
  {
    if ops != [] {
      DoKeptExactly(r, d, ops[0]);
      LedgerKept(r, Do(r, d, ops[0]), ops[1..]);
    }
  }

  function Realized(ps: seq<Position>): real {
    if ps == [] then 0.0
    else Realized(ps[..|ps| - 1]) + (if ps[|ps| - 1].open then 0.0 else ps[|ps| - 1].realized)
  }

  function OpenFees(ps: seq<Position>): real {
    if ps == [] then 0.0 else OpenFees(ps[..|ps| - 1]) + (if ps[|ps| - 1].open then ps[|ps| - 1].fees else 0.0)
  }

  lemma {:induction false} TallySplits(ps: seq<Position>)
    ensures Tally(ps) == Realized(ps) - OpenFees(ps)
  {
    if ps != [] { TallySplits(ps[..|ps| - 1]); }
  }

  function NewDesk(starting: real): Desk { Desk(Book(starting, starting, [], [], 0), []) }

  /** From any starting balance, over every run that restores no overdrawn snapshot. */
  lemma ConservedFromAnyStart(r: Rates, starting: real, ops: seq<Op>)
    requires starting >= 0.0 && NeverOverdrawn(r, NewDesk(starting), ops)
    ensures var b := DoAll(r, NewDesk(starting), ops).book;
      b.cash == b.starting + Realized(b.positions) - OpenFees(b.positions) && Ownership(b)
  {
    LedgerKept(r, NewDesk(starting), ops);
    TallySplits(DoAll(r, NewDesk(starting), ops).book.positions);
  }

  /** From a starting balance on the grid, over every run. */
  lemma ConservedFromStart(r: Rates, starting: real, ops: seq<Op>)
    requires OnGrid(starting)
    ensures var b := DoAll(r, NewDesk(starting), ops).book;
      && b.starting == starting && b.cash == starting + Realized(b.positions) - OpenFees(b.positions)
      && Ownership(b) && OnGrid(b.cash)
  {
    var b := DoAll(r, NewDesk(starting), ops).book;
    StartStays(r, NewDesk(starting), ops, starting);
    LedgerKept(r, NewDesk(starting), ops);
    TallySplits(b.positions);
    TallyOnGrid(b.positions);
    GridSum(starting, Tally(b.positions));
  }

  ghost predicate StartsAt(d: Desk, starting: real) {
    d.book.starting == starting && forall k :: 0 <= k < |d.saved| ==> d.saved[k].starting == starting
  }

  lemma {:induction false} StartStays(r: Rates, d: Desk, ops: seq<Op>, starting: real)
    requires OnGrid(starting) && StartsAt(d, starting)
    ensures StartsAt(DoAll(r, d, ops), starting) && NeverOverdrawn(r, d, ops)
    decreases |ops|
  {
    if ops != [] {
      QSame(starting);
      if ops[0].DoTick? { TickGrows(r, d.book, ops[0].symbol, ops[0].price); }
      StartStays(r, Do(r, d, ops[0]), ops[1..], starting);
    }
  }

  /** One order filled on a balance of half a grid unit, saved and restored: its fee is no longer accounted for. */
  lemma OverdrawnRestored(r: Rates, q: Request)
    requires r.taker == 0.0005 && r.slippageBps == 0.0 && ValidRequest(q) && q.kind.Market? && q.approved
    requires q.quantity == 1.0 && q.reference == 1.0
    ensures var d := DoAll(r, NewDesk(0.5 / UNIT), [DoSubmit(q), DoSave, DoRestore(0)]); !Balanced(d.book)
  {
    var d0 := NewDesk(0.5 / UNIT);
    var d1 := Do(r, d0, DoSubmit(q));
    var d2 := Do(r, d1, DoSave);
    var ops := [DoSubmit(q), DoSave, DoRestore(0)];
    assert ops[1..] == [DoSave, DoRestore(0)] && ops[1..][1..] == [DoRestore(0)] && ops[1..][1..][1..] == [];
    FilledOnCredit(r, q);
    DoKeptExactly(r, d0, DoSubmit(q));
    DoKeptExactly(r, d1, DoSave);
    RestoreConservesExactly(d2.book, d2.saved[0]);
    assert DoAll(r, d2, [DoRestore(0)]) == DoAll(r, Do(r, d2, DoRestore(0)), [DoRestore(0)][1..]);
    assert DoAll(r, d0, ops) == Do(r, d2, DoRestore(0));
  }

  lemma FilledOnCredit(r: Rates, q: Request)
    requires r.taker == 0.0005 && r.slippageBps == 0.0 && ValidRequest(q) && q.kind.Market? && q.approved
    requires q.quantity == 1.0 && q.reference == 1.0
    ensures Overdrawn(Do(r, NewDesk(0.5 / UNIT), DoSubmit(q)).book)
  {
    WholeFloor(100000000);
    WholeFloor(50000);
    assert Q(1.0) == 1.0 && Q(0.0005) == 0.0005;
    assert (0.5).Floor == 0;
  }

  /**
   Rolling back a broker whose amounts are all quantized loses something exactly when cash or start is off the
   grid.
   */
  lemma RollbackExactlyOnGrid(b: Book)
    requires Gridded(b)
    ensures Restore(b, b) == b <==> OnGrid(b.starting) && OnGrid(b.cash)
  {
    if OnGrid(b.starting) && OnGrid(b.cash) {
      QSame(b.starting);
      QSame(b.cash);
      forall i | 0 <= i < |b.orders| ensures Restore(b, b).orders[i] == b.orders[i] {
        QSame(b.orders[i].stopLoss);
        QSame(b.orders[i].takeProfit);
      }
      assert Restore(b, b).orders == b.orders;
    } else {
      QOnGrid(b.starting);
      QOnGrid(b.cash);
    }
  }
}
