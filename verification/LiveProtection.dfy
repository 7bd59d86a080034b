/**
 Reconciliation of open positions with pending protection orders (`_reconciled_positions_protected`
 and the matchers it is built from).
 */
module LiveProtection {
  import opened Options
  import opened Reals

  /** `position_side` as the exchange reports it. */
  datatype Side = LongSide | ShortSide | NetSide | OtherSide(name: string)

  datatype Trade = Buy | Sell

  datatype Position = Position(instrument: string, side: Side, size: real, margin: Option<string>)

  datatype Algo = Algo(
    id: string, client: Option<string>, isSwap: bool, instrument: string, isOco: bool, isLive: bool,
    trade: Option<Trade>, side: Option<Side>, margin: Option<string>, reduceOnly: Option<bool>,
    closeFraction: Option<real>, size: real, actualSize: real,
    takeProfit: Option<real>, takeType: Option<string>, takeOrder: Option<real>,
    stopLoss: Option<real>, stopType: Option<string>, stopOrder: Option<real>,
    amendType: Option<string>, failure: Option<string>, triggered: Option<int>)

  /** The protection that an order intent promised. */
  datatype Intent = Intent(
    instrument: string, client: Option<string>, size: Option<real>, stopLoss: Option<real>,
    takeProfit: Option<real>, triggerType: Option<string>)

  datatype Snapshot = Snapshot(positions: seq<Position>, pendingOrders: nat, algos: seq<Algo>)

  datatype Verdict = Protected | Unprotected | Raised

  predicate SideKnown(p: Position) {
    p.side.LongSide? || p.side.ShortSide? || (p.side.NetSide? && p.size != 0.0)
  }

  predicate IsLong(p: Position) { p.side.LongSide? || (p.side.NetSide? && p.size > 0.0) }

  predicate Complete(x: Intent) {
    x.client.Some? && x.size.Some? && x.stopLoss.Some? && x.takeProfit.Some? && x.triggerType.Some?
  }

  /** Every condition of `_algo_protects_position` that is evaluated before the direction is needed. */
  predicate Terms(a: Algo, p: Position, x: Intent)
    requires Complete(x)
  {
    && a.id != "" && a.isSwap && a.instrument == p.instrument && a.isOco && a.isLive
    && a.side == Some(p.side) && a.margin.Some? && a.margin == p.margin
    && a.takeProfit == x.takeProfit && a.stopLoss == x.stopLoss
    && a.takeType == x.triggerType && a.stopType == x.triggerType
    && a.takeOrder == Some(-1.0) && a.stopOrder == Some(-1.0)
    && Abs(p.size) > 0.0 && Abs(p.size) <= a.size <= x.size.value
    && a.actualSize == 0.0 && a.triggered.None? && a.failure.None?
    && (a.closeFraction.None? || a.closeFraction == Some(0.0))
    && (a.amendType.None? || a.amendType == Some("0"))
  }

  predicate Directed(a: Algo, p: Position, x: Intent)
    requires Complete(x)
  {
    && a.trade == Some(if IsLong(p) then Sell else Buy)
    && (p.side.NetSide? ==> a.reduceOnly == Some(true))
    && (if IsLong(p) then x.stopLoss.value < x.takeProfit.value else x.takeProfit.value < x.stopLoss.value)
  }

  function Filter<T>(s: seq<T>, f: T -> bool): (r: seq<T>)
    ensures |r| <= |s|
  {
    if s == [] then [] else (if f(s[0]) then [s[0]] else []) + Filter(s[1..], f)
  }

  function Named(algos: seq<Algo>, client: Option<string>): seq<Algo> {
    Filter(algos, (a: Algo) => a.client == client)
  }

  /** `_intent_protects_position`, apart from the direction it may raise on. */
  predicate Applies(algos: seq<Algo>, p: Position, x: Intent) {
    && x.instrument == p.instrument && Complete(x)
    && |Named(algos, x.client)| == 1 && Terms(Named(algos, x.client)[0], p, x)
  }

  predicate Raises(algos: seq<Algo>, p: Position, x: Intent) { Applies(algos, p, x) && !SideKnown(p) }

  predicate IntentProtects(algos: seq<Algo>, p: Position, x: Intent) {
    Applies(algos, p, x) && SideKnown(p) && Directed(Named(algos, x.client)[0], p, x)
  }

  function Matching(algos: seq<Algo>, p: Position, intents: seq<Intent>): seq<Intent> {
    Filter(intents, (x: Intent) => IntentProtects(algos, p, x))
  }

  function Open(s: Snapshot): seq<Position> { Filter(s.positions, (p: Position) => p.size != 0.0) }

  predicate DistinctIds(algos: seq<Algo>) {
    forall i, j :: 0 <= i < j < |algos| ==> algos[i].id != algos[j].id
  }

  predicate Raising(s: Snapshot, p: Position, intents: seq<Intent>) {
    exists x :: x in intents && Raises(s.algos, p, x)
  }

  predicate Accounted(s: Snapshot, p: Position, intents: seq<Intent>) {
    !Raising(s, p, intents) && |Matching(s.algos, p, intents)| == 1
  }

  /** What the report `protected` amounts to. */
  predicate Reported(s: Snapshot, intents: seq<Intent>) {
    Open(s) == [] || (s.pendingOrders == 0 && |s.algos| == |Open(s)| && DistinctIds(s.algos)
                      && forall p :: p in Open(s) ==> Accounted(s, p, intents))
  }

  /** `_reconciled_positions_protected`; `loaded` is missing without a repository and when loading fails. */
  method Reconcile(s: Snapshot, loaded: Option<seq<Intent>>) returns (v: Verdict)
    ensures v.Protected? <==> Open(s) == [] || (loaded.Some? && Reported(s, loaded.value))
    ensures v.Raised? ==> loaded.Some? && exists p :: p in Open(s) && Raising(s, p, loaded.value)
  {
    var open := Open(s);
    if open == [] { return Protected; }
    if s.pendingOrders != 0 || |s.algos| != |open| { return Unprotected; }
    if loaded.None? { return Unprotected; }
    var intents := loaded.value;
    if !DistinctIds(s.algos) { return Unprotected; }
    for i := 0 to |open|
      invariant forall j :: 0 <= j < i ==> Accounted(s, open[j], intents)
    {
      assert open[i] in open;
      if Raising(s, open[i], intents) { return Raised; }
      if |Matching(s.algos, open[i], intents)| != 1 { return Unprotected; }
    }
    return Protected;
  }

  // ---------------------------------------------------------------- what a match means

  /** The order `a` guards `p` as some intent promised: live, opposite, at least as large, within the intent. */
  ghost predicate Guards(s: Snapshot, a: Algo, p: Position, intents: seq<Intent>) {
    exists x :: x in intents && IntentProtects(s.algos, p, x) && Named(s.algos, x.client) == [a]
  }

  lemma {:induction false} FilterIn<T>(s: seq<T>, f: T -> bool, y: T)
    ensures y in Filter(s, f) <==> y in s && f(y)
  {
    if s != [] {
      FilterIn(s[1..], f, y);
      assert s == [s[0]] + s[1..];
    }
  }

  lemma OneMatch(s: Snapshot, p: Position, intents: seq<Intent>, x: Intent, y: Intent)
    requires |Matching(s.algos, p, intents)| == 1 && x in intents && y in intents
    requires IntentProtects(s.algos, p, x) && IntentProtects(s.algos, p, y)
    ensures x == y
  {
    var f := (z: Intent) => IntentProtects(s.algos, p, z);
    FilterIn(intents, f, x);
    FilterIn(intents, f, y);
  }

  /** The index of the order that guards one accounted position. */
  lemma GuardExists(s: Snapshot, p: Position, intents: seq<Intent>) returns (k: nat)
    requires Accounted(s, p, intents)
    ensures k < |s.algos| && Guards(s, s.algos[k], p, intents)
  {
    var f := (z: Intent) => IntentProtects(s.algos, p, z);
    var x := Matching(s.algos, p, intents)[0];
    FilterIn(intents, f, x);
    var a := Named(s.algos, x.client)[0];
    FilterIn(s.algos, (b: Algo) => b.client == x.client, a);
    k :| 0 <= k < |s.algos| && s.algos[k] == a;
  }

  /** A live pair of full-size market exits, untouched, at the promised prices, on the account's own terms. */
  predicate Standing(a: Algo, p: Position, x: Intent) {
    && a.id != "" && a.isSwap && a.isOco && a.isLive && a.instrument == p.instrument && x.instrument == p.instrument
    && a.side == Some(p.side) && a.margin.Some? && a.margin == p.margin
    && x.client.Some? && x.stopLoss.Some? && x.takeProfit.Some? && x.triggerType.Some? && x.size.Some?
    && a.stopLoss == x.stopLoss && a.stopType == x.triggerType && a.stopOrder == Some(-1.0)
    && a.takeProfit == x.takeProfit && a.takeType == x.triggerType && a.takeOrder == Some(-1.0)
    && p.size != 0.0 && p.size <= a.size && -p.size <= a.size && a.size <= x.size.value
    && a.actualSize == 0.0 && a.triggered == None && a.failure == None
    && (a.closeFraction == None || a.closeFraction == Some(0.0)) && (a.amendType == None || a.amendType == Some("0"))
  }

  /** It sells out of a long, buys out of a short, with stop and target on their sides, and only reduces when net. */
  predicate Exits(a: Algo, p: Position, x: Intent) {
    && x.stopLoss.Some? && x.takeProfit.Some?
    && (p.side == LongSide || (p.side == NetSide && p.size > 0.0) ==>
          a.trade == Some(Sell) && x.stopLoss.value < x.takeProfit.value)
    && (p.side == ShortSide || (p.side == NetSide && p.size <= 0.0) ==>
          a.trade == Some(Buy) && x.takeProfit.value < x.stopLoss.value)
    && (p.side == NetSide ==> a.reduceOnly == Some(true)) && !p.side.OtherSide?
  }

  /** An intent accounts for a position exactly when the one order of its client id stands and exits as promised. */
  lemma ProtectsExactly(algos: seq<Algo>, p: Position, x: Intent, a: Algo)
    requires Named(algos, x.client) == [a]
    ensures IntentProtects(algos, p, x) <==> Standing(a, p, x) && Exits(a, p, x)
  { }

  /** What guarding gives. */
  lemma GuardMeans(s: Snapshot, a: Algo, p: Position, intents: seq<Intent>)
    requires Guards(s, a, p, intents)
    ensures exists x :: x in intents && a in s.algos && a.client == x.client && Standing(a, p, x) && Exits(a, p, x)
  {
    var x :| x in intents && IntentProtects(s.algos, p, x) && Named(s.algos, x.client) == [a];
    ProtectsExactly(s.algos, p, x, a);
    FilterIn(s.algos, (b: Algo) => b.client == x.client, a);
    assert a in Named(s.algos, x.client);
  }

  // ---------------------------------------------------------------- one to one

  predicate Injective(f: seq<nat>) { forall i, j :: 0 <= i < j < |f| ==> f[i] != f[j] }

  predicate Onto(f: seq<nat>, n: nat) { forall k: nat :: k < n ==> k in f }

  /** `f` sends every open position to an order that guards it, one to one and with no order left over. */
  ghost predicate OneToOne(s: Snapshot, intents: seq<Intent>, f: seq<nat>) {
    && |f| == |Open(s)| && Injective(f) && Onto(f, |s.algos|)
    && (forall i :: 0 <= i < |f| ==> f[i] < |s.algos| && Guards(s, s.algos[f[i]], Open(s)[i], intents))
  }

  /** Two open positions that one protection order could serve both. */
  predicate Twins(p: Position, q: Position) {
    p.instrument == q.instrument && p.side == q.side && p.margin == q.margin && IsLong(p) == IsLong(q)
  }

  predicate NoTwins(ps: seq<Position>) { forall i, j :: 0 <= i < j < |ps| ==> !Twins(ps[i], ps[j]) }

  function Elements(f: seq<nat>): set<nat> { set i | 0 <= i < |f| :: f[i] }

  lemma ElementsNext(f: seq<nat>)
    requires f != []
    ensures Elements(f) == Elements(f[..|f| - 1]) + {f[|f| - 1]}
  {
    assert f == f[..|f| - 1] + [f[|f| - 1]];
  }

  lemma {:induction false} InjectiveSize(f: seq<nat>)
    requires Injective(f)
    ensures |Elements(f)| == |f|
  {
    if f != [] {
      InjectiveSize(f[..|f| - 1]);
      ElementsNext(f);
    }
  }

  function Below(n: nat): (r: set<nat>)
    ensures |r| == n && forall k: nat :: k in r <==> k < n
  {
    if n == 0 then {} else Below(n - 1) + {n - 1}
  }

  lemma Pigeonhole(f: seq<nat>, n: nat)
    requires Injective(f) && |f| == n && forall i :: 0 <= i < |f| ==> f[i] < n
    ensures Onto(f, n)
  {
    InjectiveSize(f);
    forall k: nat | k < n ensures k in f {
      if k !in f { SubsetSize(Elements(f), Below(n) - {k}); }
    }
  }

  lemma {:induction false} SubsetSize(a: set<nat>, b: set<nat>)
    requires a <= b
    ensures |a| <= |b|
  {
    if a != {} {
      var x :| x in a;
      SubsetSize(a - {x}, b - {x});
    }
  }

  lemma {:induction false} ChooseGuards(s: Snapshot, intents: seq<Intent>, n: nat) returns (f: seq<nat>)
    requires n <= |Open(s)| && forall p :: p in Open(s) ==> Accounted(s, p, intents)
    ensures |f| == n && forall i :: 0 <= i < n ==> f[i] < |s.algos| && Guards(s, s.algos[f[i]], Open(s)[i], intents)
  {
    if n == 0 { f := []; }
    else {
      f := ChooseGuards(s, intents, n - 1);
      var k := GuardExists(s, Open(s)[n - 1], intents);
      f := f + [k];
    }
  }

  /** An order that guards two positions guards twins. */
  lemma GuardsTwins(s: Snapshot, a: Algo, p: Position, q: Position, intents: seq<Intent>)
    requires Guards(s, a, p, intents)
    ensures Guards(s, a, q, intents) ==> Twins(p, q)
  {
    GuardMeans(s, a, p, intents);
    if Guards(s, a, q, intents) { GuardMeans(s, a, q, intents); }
  }

  /** A protection order is left over although nothing is open. */
  predicate Leftover(s: Snapshot) { Open(s) == [] && s.algos != [] }

  /**
   If reconciliation reports the positions protected, no two open positions are twins and nothing is left over,
   open positions and pending protection orders correspond one to one and no protection order is orphaned.
   */
  lemma ProtectedMeansOneToOne(s: Snapshot, intents: seq<Intent>) returns (f: seq<nat>)
    requires Reported(s, intents) && NoTwins(Open(s)) && !Leftover(s)
    ensures OneToOne(s, intents, f)
  {
    f := ChooseGuards(s, intents, |Open(s)|);
    forall i, j | 0 <= i < j < |f| ensures f[i] != f[j] {
      GuardsTwins(s, s.algos[f[i]], Open(s)[i], Open(s)[j], intents);
    }
    Pigeonhole(f, |s.algos|);
  }

  /** Of two twins, every order that may guard the larger may guard the smaller. */
  lemma TwinsShareIntents(s: Snapshot, p: Position, q: Position, x: Intent)
    requires Twins(p, q) && 0.0 < Abs(p.size) <= Abs(q.size) && IntentProtects(s.algos, q, x)
    ensures IntentProtects(s.algos, p, x)
  { }

  lemma TwinsShareGuard(s: Snapshot, intents: seq<Intent>, p: Position, q: Position, a: Algo, b: Algo)
    requires Twins(p, q) && 0.0 < Abs(p.size) <= Abs(q.size)
    requires |Matching(s.algos, p, intents)| == 1
    requires Guards(s, a, p, intents) && Guards(s, b, q, intents)
    ensures a == b
  {
    var x :| x in intents && IntentProtects(s.algos, p, x) && Named(s.algos, x.client) == [a];
    var y :| y in intents && IntentProtects(s.algos, q, y) && Named(s.algos, y.client) == [b];
    TwinsShareIntents(s, p, q, y);
    OneMatch(s, p, intents, x, y);
  }

  lemma LeftoverBreaks(s: Snapshot, intents: seq<Intent>, f: seq<nat>)
    requires Leftover(s)
    ensures !OneToOne(s, intents, f)
  {
    if |f| == 0 { assert 0 !in f; }
  }

  /**
   The exact condition: given a positive report, a one-to-one correspondence exists if and only if no two open
   positions share instrument, side, margin mode and direction, and no order is left over with nothing open.
   */
  lemma OneToOneExactly(s: Snapshot, intents: seq<Intent>)
    requires Reported(s, intents)
    ensures (exists f :: OneToOne(s, intents, f)) <==> NoTwins(Open(s)) && !Leftover(s)
  {
    if NoTwins(Open(s)) && !Leftover(s) {
      var f := ProtectedMeansOneToOne(s, intents);
    } else {
      forall f ensures !OneToOne(s, intents, f) {
        if Leftover(s) { LeftoverBreaks(s, intents, f); }
        else if OneToOne(s, intents, f) { TwinsBreakOneToOne(s, intents, f); }
      }
    }
  }

  lemma TwinsBreakOneToOne(s: Snapshot, intents: seq<Intent>, f: seq<nat>)
    requires DistinctIds(s.algos) && OneToOne(s, intents, f) && forall p :: p in Open(s) ==> Accounted(s, p, intents)
    ensures NoTwins(Open(s))
  {
    forall i, j | 0 <= i < j < |Open(s)| ensures !Twins(Open(s)[i], Open(s)[j]) {
      var p, q := Open(s)[i], Open(s)[j];
      if Twins(p, q) {
        FilterIn(s.positions, (r: Position) => r.size != 0.0, p);
        FilterIn(s.positions, (r: Position) => r.size != 0.0, q);
        if Abs(p.size) <= Abs(q.size) { TwinsShareGuard(s, intents, p, q, s.algos[f[i]], s.algos[f[j]]); }
        else { TwinsShareGuard(s, intents, q, p, s.algos[f[j]], s.algos[f[i]]); }
      }
    }
  }

  // ---------------------------------------------------------------- a report that is not one to one

  function Stock(id: string, client: string): Algo {
    Algo(id, Some(client), true, "BTC-USDT-SWAP", true, true, Some(Sell), Some(LongSide), Some("isolated"), None,
         None, 1.0, 0.0, Some(120.0), Some("mark"), Some(-1.0), Some(80.0), Some("mark"), Some(-1.0), None, None, None)
  }

  const TWIN: Position := Position("BTC-USDT-SWAP", LongSide, 1.0, Some("isolated"))
  const PROMISE: Intent := Intent("BTC-USDT-SWAP", Some("c1"), Some(1.0), Some(80.0), Some(120.0), Some("mark"))

  /** Two equal long positions, the order that one intent promised, and one that no intent did. */
  function TwinSnapshot(): Snapshot { Snapshot([TWIN, TWIN], 0, [Stock("a1", "c1"), Stock("a2", "c2")]) }

  lemma FilterTwo<T>(x: T, y: T, f: T -> bool)
    ensures Filter([x, y], f) == (if f(x) then [x] else []) + (if f(y) then [y] else [])
  {
    assert [x, y][1..] == [y] && [y][1..] == [];
    assert Filter([y], f) == (if f(y) then [y] else []) + Filter([], f);
  }

  lemma FilterOne<T>(x: T, f: T -> bool)
    ensures Filter([x], f) == if f(x) then [x] else []
  {
    assert [x][1..] == [];
  }

  lemma TwinMatched()
    ensures var s := TwinSnapshot(); IntentProtects(s.algos, TWIN, PROMISE)
  {
    var a, b := Stock("a1", "c1"), Stock("a2", "c2");
    assert "c1" != "c2" by { assert "c1"[1] != "c2"[1]; }
    FilterTwo(a, b, (z: Algo) => z.client == PROMISE.client);
    assert Named(TwinSnapshot().algos, PROMISE.client) == [a];
  }

  /** Reconciliation reports twin positions protected although one order is an orphan: nothing is one to one. */
  lemma TwinsReported()
    ensures var s := TwinSnapshot(); Reported(s, [PROMISE]) && !(exists f :: OneToOne(s, [PROMISE], f))
  {
    var s := TwinSnapshot();
    assert "a1" != "a2" by { assert "a1"[1] != "a2"[1]; }
    FilterTwo(TWIN, TWIN, (p: Position) => p.size != 0.0);
    assert Open(s) == [TWIN, TWIN];
    TwinMatched();
    FilterOne(PROMISE, (x: Intent) => IntentProtects(s.algos, TWIN, x));
    assert Accounted(s, TWIN, [PROMISE]);
    assert Twins(Open(s)[0], Open(s)[1]);
    OneToOneExactly(s, [PROMISE]);
  }

  /** With nothing open, one protection order left over: reported protected, and the order guards nothing. */
  lemma LeftoverReported(intents: seq<Intent>)
    ensures var s := Snapshot([], 0, [Stock("a1", "c1")]);
      Reported(s, intents) && NoTwins(Open(s)) && !(exists f :: OneToOne(s, intents, f))
  {
    OneToOneExactly(Snapshot([], 0, [Stock("a1", "c1")]), intents);
  }
}
