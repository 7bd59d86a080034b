/**
 What a demo trade realised, read from the exchange's order reports: the latest report per closing order.
 */
module TradeOutcome {
  import opened Options
  import opened Ordering

  datatype Trade = Trade(instrument: nat, started: int, details: nat)

  function TradeKey(t: Trade): Key { (t.started, t.instrument) }
  function TradeId(t: Trade): int { t.instrument }

  /** One order as the exchange reports it; `realized` is the first of its profit fields that is present. */
  datatype Report = Report(
    instrument: nat, orderId: nat, filled: bool, closing: bool, at: Option<int>,
    realized: Option<real>, fee: Option<real>, fillFee: Option<real>, rebate: Option<real>, funding: Option<real>)

  // ---------------------------------------------------------------- the outcome of one trade

  datatype Match = Match(id: nat, closed: int, net: real)

  function MatchId(m: Match): int { m.id }

  predicate Eligible(t: Trade, o: Report) {
    && o.instrument == t.instrument && o.filled && o.closing
    && o.at.Some? && o.at.value >= t.started && o.realized.Some?
  }

  function OrZero(a: Option<real>, b: Option<real>): real {
    if a.Some? then a.value else if b.Some? then b.value else 0.0
  }

  function NetOf(o: Report): real
    requires o.realized.Some?
  {
    var fee, rebate := OrZero(o.fee, o.fillFee), OrZero(o.rebate, o.fillFee);
    o.realized.value - (if fee < 0.0 then -fee else 0.0) + (if rebate < 0.0 then 0.0 else rebate)
      + OrZero(o.funding, None)
  }

  function MatchOf(t: Trade, o: Report): Match
    requires Eligible(t, o)
  {
    Match(o.orderId, o.at.value, NetOf(o))
  }

  /** Keep the latest report per order id; of equally late ones, the last. */
  function Note(ms: seq<Match>, m: Match): seq<Match> {
    if ms == [] then [m]
    else if ms[0].id == m.id then (if m.closed >= ms[0].closed then [m] + ms[1..] else ms)
    else [ms[0]] + Note(ms[1..], m)
  }

  function Matches(t: Trade, orders: seq<Report>): seq<Match> {
    if orders == [] then []
    else
      var front, o := Matches(t, orders[..|orders| - 1]), orders[|orders| - 1];
      if Eligible(t, o) then Note(front, MatchOf(t, o)) else front
  }

  function Latest(ms: seq<Match>): (t: int)
    requires ms != []
    ensures (forall i :: 0 <= i < |ms| ==> ms[i].closed <= t) && exists i :: 0 <= i < |ms| && ms[i].closed == t
  {
    if |ms| == 1 then ms[0].closed
    else
      var rest := Latest(ms[1..]);
      assert exists i :: 0 <= i < |ms[1..]| && ms[1..][i].closed == rest;
      assert forall i :: 1 <= i < |ms| ==> ms[i] == ms[1..][i - 1];
      if ms[0].closed >= rest then ms[0].closed else rest
  }

  function NetSum(ms: seq<Match>): real { if ms == [] then 0.0 else NetSum(ms[..|ms| - 1]) + ms[|ms| - 1].net }

  datatype Outcome = Outcome(closed: int, trade: Trade, net: real, orders: set<nat>)

  function OutcomeKey(o: Outcome): Key { (o.closed, 0) }
  function OutcomeId(o: Outcome): int { o.trade.instrument }

  function OutcomeOf(t: Trade, orders: seq<Report>): Option<Outcome> {
    var ms := Matches(t, orders);
    if ms == [] then None else Some(Outcome(Latest(ms), t, NetSum(ms), set m <- ms :: m.id))
  }

  /**
   Report `i` is the one that decides its order: no eligible report of that order is later, or as late and after
   it.
   */
  predicate Decides(t: Trade, orders: seq<Report>, i: nat) {
    && i < |orders| && Eligible(t, orders[i])
    && forall j :: 0 <= j < |orders| && Eligible(t, orders[j]) && orders[j].orderId == orders[i].orderId ==>
         orders[j].at.value <= orders[i].at.value && (j > i ==> orders[j].at.value < orders[i].at.value)
  }

  lemma {:induction false} NoteMembers(ms: seq<Match>, m: Match, x: Match)
    requires DistinctBy(ms, MatchId)
    ensures DistinctBy(Note(ms, m), MatchId)
    ensures x in Note(ms, m) <==>
      (x == m && forall y :: y in ms && y.id == m.id ==> m.closed >= y.closed)
      || (x in ms && (x.id == m.id ==> m.closed < x.closed))
  {
    if ms != [] {
      var rest := ms[1..];
      assert forall i :: 0 <= i < |rest| ==> rest[i] == ms[i + 1];
      assert forall y :: y in rest ==> y.id != ms[0].id;
      assert forall y :: y in ms <==> y == ms[0] || y in rest;
      if ms[0].id != m.id {
        NoteMembers(rest, m, x);
        var t := Note(rest, m);
        forall i | 0 <= i < |t| ensures t[i].id != ms[0].id { NoteMembers(rest, m, t[i]); }
      }
    }
  }

  lemma DecidesEarlier(t: Trade, front: seq<Report>, o: Report, i: nat)
    requires i < |front|
    ensures Decides(t, front + [o], i) <==>
      Decides(t, front, i) && (Eligible(t, o) && o.orderId == front[i].orderId ==> o.at.value < front[i].at.value)
  {
    var orders := front + [o];
    assert forall j :: 0 <= j < |front| ==> orders[j] == front[j];
    assert orders[|front|] == o;
    if Decides(t, orders, i) {
      forall j | 0 <= j < |front| && Eligible(t, front[j]) && front[j].orderId == front[i].orderId
        ensures front[j].at.value <= front[i].at.value && (j > i ==> front[j].at.value < front[i].at.value)
      {
        assert Eligible(t, orders[j]) && orders[j].orderId == orders[i].orderId;
      }
    }
  }

  /** Every eligible order has a deciding report at least as late. */
  lemma {:induction false} DeciderExists(t: Trade, orders: seq<Report>, j: nat) returns (i: nat)
    requires j < |orders| && Eligible(t, orders[j])
    ensures Decides(t, orders, i) && orders[i].orderId == orders[j].orderId && orders[i].at.value >= orders[j].at.value
    decreases |orders|, 0
  {
    var front, o := orders[..|orders| - 1], orders[|orders| - 1];
    assert orders == front + [o];
    if j == |front| {
      i := LatestOf(t, front, o, j);
    } else {
      i := DeciderExists(t, front, j);
      DecidesEarlier(t, front, o, i);
      if Eligible(t, o) && o.orderId == orders[j].orderId && o.at.value >= front[i].at.value {
        i := |front|;
      }
    }
  }

  lemma LatestOf(t: Trade, front: seq<Report>, o: Report, j: nat) returns (i: nat)
    requires j == |front| && Eligible(t, o)
    ensures Decides(t, front + [o], i) && (front + [o])[i].orderId == o.orderId
    ensures (front + [o])[i].at.value >= o.at.value
    decreases |front|, 1
  {
    var orders := front + [o];
    if k :| && 0 <= k < |front| && Eligible(t, front[k])
            && front[k].orderId == o.orderId && front[k].at.value > o.at.value {
      i := DeciderExists(t, front, k);
      DecidesEarlier(t, front, o, i);
    } else {
      i := j;
    }
  }

  lemma DecidesLast(t: Trade, front: seq<Report>, o: Report)
    requires Eligible(t, o)
    ensures Decides(t, front + [o], |front|) <==>
      forall j :: 0 <= j < |front| && Eligible(t, front[j]) && front[j].orderId == o.orderId ==>
        front[j].at.value <= o.at.value
  {
    var orders := front + [o];
    assert forall j :: 0 <= j < |front| ==> orders[j] == front[j];
    if Decides(t, orders, |front|) {
      forall j | 0 <= j < |front| && Eligible(t, front[j]) && front[j].orderId == o.orderId
        ensures front[j].at.value <= o.at.value
      {
        assert Eligible(t, orders[j]) && orders[j].orderId == orders[|front|].orderId;
      }
    }
  }

  ghost predicate Decided(t: Trade, orders: seq<Report>, x: Match) {
    exists i: nat :: Decides(t, orders, i) && MatchOf(t, orders[i]) == x
  }

  /** One more eligible report leaves an earlier decision in place unless it overtakes it. */
  lemma DecidedEarlier(t: Trade, front: seq<Report>, o: Report, x: Match)
    requires Eligible(t, o)
    ensures (exists i: nat :: i < |front| && Decides(t, front + [o], i) && MatchOf(t, (front + [o])[i]) == x)
       <==> Decided(t, front, x) && (x.id == o.orderId ==> o.at.value < x.closed)
  {
    var orders := front + [o];
    if i: nat :| i < |front| && Decides(t, orders, i) && MatchOf(t, orders[i]) == x {
      DecidesEarlier(t, front, o, i);
      assert MatchOf(t, front[i]) == x;
    }
    if Decided(t, front, x) && (x.id == o.orderId ==> o.at.value < x.closed) {
      var i: nat :| Decides(t, front, i) && MatchOf(t, front[i]) == x;
      DecidesEarlier(t, front, o, i);
      assert MatchOf(t, orders[i]) == x;
    }
  }

  /** The new report decides exactly when nothing decided before is later. */
  lemma DecidedLast(t: Trade, front: seq<Report>, o: Report)
    requires Eligible(t, o)
    ensures Decides(t, front + [o], |front|)
       <==> forall y :: Decided(t, front, y) && y.id == o.orderId ==> o.at.value >= y.closed
  {
    DecidesLast(t, front, o);
    if forall y :: Decided(t, front, y) && y.id == o.orderId ==> o.at.value >= y.closed {
      forall j | 0 <= j < |front| && Eligible(t, front[j]) && front[j].orderId == o.orderId
        ensures front[j].at.value <= o.at.value
      {
        var i := DeciderExists(t, front, j);
        assert Decided(t, front, MatchOf(t, front[i]));
      }
    }
  }

  lemma DecidedAppend(t: Trade, front: seq<Report>, o: Report, x: Match)
    requires Eligible(t, o)
    ensures Decided(t, front + [o], x) <==>
      (x == MatchOf(t, o) && Decides(t, front + [o], |front|))
      || (exists i: nat :: i < |front| && Decides(t, front + [o], i) && MatchOf(t, (front + [o])[i]) == x)
  {
    var orders := front + [o];
    assert orders[|front|] == o;
    if Decided(t, orders, x) {
      var i: nat :| Decides(t, orders, i) && MatchOf(t, orders[i]) == x;
      assert i <= |front|;
    }
  }

  /** Each order id is counted once, with the report that decides it, and every eligible order is counted. */
  lemma {:induction false} LatestReportDecides(t: Trade, orders: seq<Report>, x: Match)
    ensures DistinctBy(Matches(t, orders), MatchId)
    ensures x in Matches(t, orders) <==> Decided(t, orders, x)
    decreases |orders|
  {
    if orders != [] {
      var front, o := orders[..|orders| - 1], orders[|orders| - 1];
      assert orders == front + [o];
      LatestReportDecides(t, front, x);
      if Eligible(t, o) {
        forall y ensures y in Matches(t, front) <==> Decided(t, front, y) { LatestReportDecides(t, front, y); }
        NoteMembers(Matches(t, front), MatchOf(t, o), x);
        DecidedEarlier(t, front, o, x);
        DecidedLast(t, front, o);
        DecidedAppend(t, front, o, x);
      } else {
        IneligibleIgnored(t, front, o, x);
      }
    }
  }

  lemma IneligibleIgnored(t: Trade, front: seq<Report>, o: Report, x: Match)
    requires !Eligible(t, o)
    ensures Decided(t, front, x) <==> Decided(t, front + [o], x)
  {
    var orders := front + [o];
    forall i: nat | i < |front| ensures Decides(t, front, i) <==> Decides(t, orders, i) {
      DecidesEarlier(t, front, o, i);
    }
    if Decided(t, front, x) {
      var i: nat :| Decides(t, front, i) && MatchOf(t, front[i]) == x;
      assert Decides(t, orders, i) && MatchOf(t, orders[i]) == x;
    }
    if Decided(t, orders, x) {
      var i: nat :| Decides(t, orders, i) && MatchOf(t, orders[i]) == x;
      assert Decides(t, front, i) && MatchOf(t, front[i]) == x;
    }
  }

  /** `_closing_trade_outcome`. */
  method ClosingOutcome(t: Trade, orders: seq<Report>) returns (r: Option<Outcome>)
    ensures r == OutcomeOf(t, orders)
  {
    var matches: seq<Match> := [];
    for i := 0 to |orders|
      invariant matches == Matches(t, orders[..i])
    {
      assert orders[..i + 1][..i] == orders[..i];
      var o := orders[i];
      if Eligible(t, o) { matches := Note(matches, MatchOf(t, o)); }
    }
    assert orders[..|orders|] == orders;
    if matches == [] { return None; }
    r := Some(Outcome(Latest(matches), t, NetSum(matches), set m <- matches :: m.id));
  }
}
