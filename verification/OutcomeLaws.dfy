/**
 What a settled trade leaves behind, in the numbers of the exchange's reports: what a report nets, what an outcome
 adds up, and which event, cooldown and closing time the settlement of a trade records.
 */
module OutcomeLaws {
  import opened Options
  import opened Ordering
  import opened PnlEvents
  import opened TradeOutcome
  import opened DemoFinalisation

  // ---------------------------------------------------------------- one report

  /** A charge lowers the net by its size, and a fee that is not negative changes nothing. */
  lemma ChargeLowers(o: Report, x: real)
    requires o.realized.Some? && x >= 0.0
    ensures NetOf(o.(fee := Some(-x))) == NetOf(o.(fee := Some(0.0))) - x
    ensures NetOf(o.(fee := Some(x))) == NetOf(o.(fee := Some(0.0)))
  { }

  /** A rebate raises it by its size, and a rebate that is not positive changes nothing. */
  lemma RebateRaises(o: Report, x: real)
    requires o.realized.Some? && x >= 0.0
    ensures NetOf(o.(rebate := Some(x))) == NetOf(o.(rebate := Some(0.0))) + x
    ensures NetOf(o.(rebate := Some(-x))) == NetOf(o.(rebate := Some(0.0)))
  { }

  /** Funding and realised profit add with their sign. */
  lemma FundingAdds(o: Report, x: real, y: real)
    requires o.realized.Some?
    ensures NetOf(o.(funding := Some(x))) == NetOf(o.(funding := None)) + x
    ensures NetOf(o.(realized := Some(y))) == NetOf(o.(realized := Some(0.0))) + y
    ensures o.fee.None? && o.fillFee.None? && o.rebate.None? && o.funding.None? ==> NetOf(o) == o.realized.value
  { }

  /** A fee on the fill stands in for whatever of fee and rebate is missing: its sign says which it is. */
  lemma FillFeeStandsIn(o: Report, x: real)
    requires o.realized.Some?
    ensures NetOf(o.(fee := None, fillFee := Some(x), rebate := None))
         == NetOf(o.(fee := None, fillFee := None, rebate := None)) + x
    ensures NetOf(o.(fee := None, fillFee := Some(x), rebate := Some(0.0)))
         == NetOf(o.(fee := Some(x), fillFee := None, rebate := Some(0.0)))
    ensures o.fee.Some? && o.rebate.Some? ==> NetOf(o.(fillFee := Some(x))) == NetOf(o.(fillFee := None))
  { }

  // ---------------------------------------------------------------- one outcome

  /** A report that counts for a trade, in its own fields. */
  predicate CountsFor(t: Trade, o: Report) {
    && o.instrument == t.instrument && o.filled && o.closing
    && o.at.Some? && t.started <= o.at.value && o.realized.Some?
  }

  /** The counting reports among the first `n` that decide their order. */
  function Deciding(t: Trade, orders: seq<Report>): set<nat> { set i | 0 <= i < |orders| && Decides(t, orders, i) :: i }

  /** The sum of the nets of the reports with an index in `s`, below `n`. */
  function NetAt(orders: seq<Report>, s: set<nat>, n: nat): real
    requires n <= |orders| && forall i :: i in s ==> i < |orders| && orders[i].realized.Some?
  {
    if n == 0 then 0.0 else NetAt(orders, s, n - 1) + (if n - 1 in s then NetOf(orders[n - 1]) else 0.0)
  }

  lemma {:induction false} NetAtLess(orders: seq<Report>, s: set<nat>, n: nat, i: nat)
    requires n <= |orders| && forall j :: j in s ==> j < |orders| && orders[j].realized.Some?
    requires i in s
    ensures NetAt(orders, s - {i}, n) == NetAt(orders, s, n) - (if i < n then NetOf(orders[i]) else 0.0)
  {
    if n > 0 { NetAtLess(orders, s, n - 1, i); }
  }

  lemma {:induction false} NetAtNone(orders: seq<Report>, n: nat)
    requires n <= |orders|
    ensures NetAt(orders, {}, n) == 0.0
  {
    if n > 0 { NetAtNone(orders, n - 1); }
  }

  /** The matches `ms` are those of the reports at the indices `s`, each order once. */
  ghost predicate Stands(t: Trade, orders: seq<Report>, ms: seq<Match>, s: set<nat>) {
    && DistinctBy(ms, MatchId)
    && (forall i :: i in s ==> i < |orders| && Eligible(t, orders[i]) && MatchOf(t, orders[i]) in ms)
    && (forall i, j :: i in s && j in s && orders[i].orderId == orders[j].orderId ==> i == j)
    && (forall x :: x in ms ==> Backed(t, orders, s, x))
  }

  ghost predicate Backed(t: Trade, orders: seq<Report>, s: set<nat>, x: Match) {
    exists i: nat :: i in s && i < |orders| && Eligible(t, orders[i]) && MatchOf(t, orders[i]) == x
  }

  lemma StandsLess(t: Trade, orders: seq<Report>, ms: seq<Match>, s: set<nat>, i: nat)
    requires Stands(t, orders, ms, s) && ms != [] && i in s && MatchOf(t, orders[i]) == ms[|ms| - 1]
    ensures Stands(t, orders, ms[..|ms| - 1], s - {i})
  {
    var front, m := ms[..|ms| - 1], ms[|ms| - 1];
    assert ms == front + [m];
    forall j | j in s - {i} ensures MatchOf(t, orders[j]) in front {
      assert MatchOf(t, orders[j]).id != m.id;
    }
    forall x | x in front ensures Backed(t, orders, s - {i}, x) {
      assert x in ms;
      var j: nat :| j in s && j < |orders| && Eligible(t, orders[j]) && MatchOf(t, orders[j]) == x;
      var k :| 0 <= k < |front| && front[k] == x;
      assert MatchId(ms[k]) != MatchId(ms[|ms| - 1]);
      assert j in s - {i};
    }
    assert DistinctBy(front, MatchId);
  }

  lemma {:induction false} SumStands(t: Trade, orders: seq<Report>, ms: seq<Match>, s: set<nat>)
    requires Stands(t, orders, ms, s)
    ensures NetSum(ms) == NetAt(orders, s, |orders|)
    decreases |ms|
  {
    if ms == [] {
      assert s == {};
      NetAtNone(orders, |orders|);
    } else {
      var m := ms[|ms| - 1];
      assert m in ms;
      var i: nat :| i in s && i < |orders| && Eligible(t, orders[i]) && MatchOf(t, orders[i]) == m;
      StandsLess(t, orders, ms, s, i);
      SumStands(t, orders, ms[..|ms| - 1], s - {i});
      NetAtLess(orders, s, |orders|, i);
    }
  }

  lemma MatchesStand(t: Trade, orders: seq<Report>)
    ensures Stands(t, orders, Matches(t, orders), Deciding(t, orders))
  {
    var ms, s := Matches(t, orders), Deciding(t, orders);
    forall x ensures x in ms <==> Decided(t, orders, x) { LatestReportDecides(t, orders, x); }
    LatestReportDecides(t, orders, Match(0, 0, 0.0));
    forall i | i in s ensures MatchOf(t, orders[i]) in ms { assert Decided(t, orders, MatchOf(t, orders[i])); }
    forall x | x in ms ensures Backed(t, orders, s, x) {
      var i: nat :| Decides(t, orders, i) && MatchOf(t, orders[i]) == x;
      assert i in s;
    }
  }

  /** The outcome's net is the sum of the nets of the deciding reports, each order counted once. */
  lemma OutcomeIsTheSum(t: Trade, orders: seq<Report>)
    requires OutcomeOf(t, orders).Some?
    ensures OutcomeOf(t, orders).value.net == NetAt(orders, Deciding(t, orders), |orders|)
    ensures OutcomeOf(t, orders).value.trade == t
  {
    MatchesStand(t, orders);
    SumStands(t, orders, Matches(t, orders), Deciding(t, orders));
  }

  /** There is an outcome exactly when a report counts; it closes with the latest of them and names their orders. */
  lemma OutcomeExactly(t: Trade, orders: seq<Report>, i: nat)
    requires i < |orders|
    ensures CountsFor(t, orders[i]) ==>
      && OutcomeOf(t, orders).Some? && orders[i].at.value <= OutcomeOf(t, orders).value.closed
      && orders[i].orderId in OutcomeOf(t, orders).value.orders
    ensures OutcomeOf(t, orders).Some? ==>
      exists j :: 0 <= j < |orders| && CountsFor(t, orders[j])
                  && orders[j].at == Some(OutcomeOf(t, orders).value.closed)
  {
    var ms := Matches(t, orders);
    MatchesStand(t, orders);
    if CountsFor(t, orders[i]) {
      var k := DeciderExists(t, orders, i);
      assert k in Deciding(t, orders);
      assert MatchOf(t, orders[k]) in ms;
    }
    if ms != [] {
      var k :| 0 <= k < |ms| && ms[k].closed == Latest(ms);
      assert ms[k] in ms;
      var j: nat :|
        j in Deciding(t, orders) && j < |orders| && Eligible(t, orders[j]) && MatchOf(t, orders[j]) == ms[k];
      assert CountsFor(t, orders[j]);
    }
  }

  // ---------------------------------------------------------------- the settlement

  /** The closed trades: without exposure, and started at least the grace period before the snapshot. */
  lemma ClosedExactly(st: State, snap: Snapshot, grace: int, x: Trade)
    ensures x in Closed(st, snap, grace)
       <==> x in st.active && x.instrument !in snap.exposed && x.started + grace <= snap.at
  {
    ClosedMembers(st, snap, grace, x);
  }

  /** Events of other ids stay exactly from one retention period back to five minutes ahead. */
  lemma WindowExactly(events: seq<Event>, now: int, retention: int, e: Event, x: Event)
    requires DistinctBy(events, EventId) && x.id != e.id
    ensures x in Record(events, now, retention, e)
       <==> x in events && now - retention <= x.closed && x.closed <= now + 5 * 60 * 1_000_000
  {
    OtherEventKept(events, now, retention, e, x);
  }

  /** The event of a settled trade tells instrument, times, net and orders of its outcome. */
  lemma EventTells(env: Env, o: Outcome)
    ensures var e := EventOf(env, o);
      && e.instrument == o.trade.instrument && e.started == o.trade.started && e.closed == o.closed && e.net == o.net
      && e.orders == o.orders && e.id == env.digest(o.trade.instrument, o.trade.started, o.closed)
  { }

  /** Days of the session, in microseconds. */
  lemma DayExactly(t: int, day: int)
    ensures DayOf(t) == day <==> day * (24 * 3600 * 1_000_000) <= t < (day + 1) * (24 * 3600 * 1_000_000)
  { }

  /** The cooldown of a settled instrument is its closing time, and no other cooldown changes. */
  lemma {:induction false} CooldownsAre(before: map<nat, int>, outs: seq<Outcome>, k: nat, n: nat)
    requires DistinctBy(outs, OutcomeId) && k <= |outs|
    ensures var r := Cooldowns(before, outs, k);
      && (forall j :: 0 <= j < k && outs[j].trade.instrument == n ==> n in r && r[n] == outs[j].closed)
      && (Settles(outs, k, n) || ((n in r <==> n in before) && (n in r ==> r[n] == before[n])))
  {
    if k > 0 {
      CooldownsAre(before, outs, k - 1, n);
      SettlesNext(outs, k, n);
      forall j | 0 <= j < k - 1 && outs[j].trade.instrument == n ensures outs[k - 1].trade.instrument != n {
        assert OutcomeId(outs[j]) != OutcomeId(outs[k - 1]);
      }
    }
  }

  /** The last closing time is the greatest of the one before and those of the outcomes. */
  lemma {:induction false} LastClosedIs(before: Option<int>, outs: seq<Outcome>, k: nat)
    requires k <= |outs|
    ensures var c := LastClosed(before, outs, k);
      && (forall j :: 0 <= j < k ==> c.Some? && outs[j].closed <= c.value)
      && (before.Some? ==> c.Some? && before.value <= c.value)
      && (c == before || exists j :: 0 <= j < k && c == Some(outs[j].closed))
  {
    if k > 0 { LastClosedIs(before, outs, k - 1); }
  }

  /**
   One finalisation, trade by trade: a gone trade leaves an event with the sum of its deciding reports, unless a
   later recording of the same pass expired it, and its closing time as the cooldown of its instrument.
   */
  lemma SettledTrade(env: Env, st: State, snap: Snapshot, clock: nat -> int, t: Trade) returns (j: nat, e: Event)
    requires Injective(env.digest) && DistinctBy(st.active, TradeId)
    requires AllKnown(Closed(st, snap, env.grace), FromReports(snap.orders))
    requires t in st.active && t.instrument !in snap.exposed && t.started + env.grace <= snap.at
    ensures var r := Finalise(env, st, snap, clock); var k := |Settlement(st, snap, env.grace)|;
      && e.instrument == t.instrument && e.started == t.started
      && e.net == NetAt(snap.orders, Deciding(t, snap.orders), |snap.orders|)
      && t.instrument in r.cooldowns && r.cooldowns[t.instrument] == e.closed
      && r.lastClosed.Some? && e.closed <= r.lastClosed.value
      && (e in r.events <==> Survives(env, clock, e, j, k))
  {
    ClosedExactly(st, snap, env.grace, t);
    var closed := Closed(st, snap, env.grace);
    var i :| 0 <= i < |closed| && closed[i] == t;
    assert FromReports(snap.orders)(closed[i]).Some?;
    OutcomeIsTheSum(t, snap.orders);
    var o := OutcomeOf(t, snap.orders).value;
    var outs := Settlement(st, snap, env.grace);
    SettlementExactly(st, snap, env.grace, o);
    ClosedMembers(st, snap, env.grace, t);
    j :| 0 <= j < |outs| && outs[j] == o;
    e := EventOf(env, o);
    OneEventPerTrade(env, st, snap, clock, j, e);
    CooldownsAre(st.cooldowns, outs, |outs|, t.instrument);
    LastClosedIs(st.lastClosed, outs, |outs|);
  }
}
