/**
 Finalisation of demo trades that have left the exchange: every closed trade is settled, or none is and
 the automation stops.
 */
module DemoFinalisation {
  import opened Options
  import opened Ordering
  import opened PnlEvents
  import opened TradeOutcome

  const DAY: int := 86_400_000_000

  function DayOf(t: int): int { t / DAY }

  /** `exposed`: instruments with a position, an order or an algo order. */
  datatype Snapshot = Snapshot(at: int, exposed: set<nat>, orders: seq<Report>)

  /** Settings, and the digest that names an event by instrument, start and close. */
  datatype Env = Env(grace: int, retention: int, digest: (nat, int, int) -> nat)

  ghost predicate Injective(digest: (nat, int, int) -> nat) {
    forall a, b, c, d, e, f :: digest(a, b, c) == digest(d, e, f) ==> a == d && b == e && c == f
  }

  datatype State = State(
    active: seq<Trade>, events: seq<Event>, armed: bool, stopped: bool, locked: bool, reasons: set<string>,
    losses: nat, session: int, cooldowns: map<nat, int>, lastClosed: Option<int>)

  // ---------------------------------------------------------------- which trades are gone

  predicate Gone(t: Trade, snap: Snapshot, grace: int) { t.instrument !in snap.exposed && snap.at - t.started >= grace }

  function GoneTrades(ts: seq<Trade>, snap: Snapshot, grace: int): seq<Trade> {
    if ts == [] then []
    else
      var front := GoneTrades(ts[..|ts| - 1], snap, grace);
      if Gone(ts[|ts| - 1], snap, grace) then front + [ts[|ts| - 1]] else front
  }

  /** Closed trades in order of their start. */
  function Closed(st: State, snap: Snapshot, grace: int): seq<Trade> {
    GoneTrades(Sort(st.active, TradeKey), snap, grace)
  }

  /** How a trade's outcome is looked up in the exchange's reports. */
  type Lookup = Trade -> Option<Outcome>

  function FromReports(orders: seq<Report>): Lookup { (t: Trade) => OutcomeOf(t, orders) }

  /** The outcomes that can be confirmed, in the order of the trades. */
  function Outcomes(ts: seq<Trade>, look: Lookup): seq<Outcome> {
    if ts == [] then []
    else
      var front, o := Outcomes(ts[..|ts| - 1], look), look(ts[|ts| - 1]);
      if o.None? then front else front + [o.value]
  }

  predicate AllKnown(ts: seq<Trade>, look: Lookup) { forall i :: 0 <= i < |ts| ==> look(ts[i]).Some? }

  // ---------------------------------------------------------------- settling one trade

  function EventOf(env: Env, o: Outcome): Event {
    Event(env.digest(o.trade.instrument, o.trade.started, o.closed), o.trade.instrument, o.trade.started, o.closed,
          o.net, o.orders)
  }

  function CountLoss(losses: nat, session: int, o: Outcome): nat {
    if DayOf(o.closed) != session then losses else if o.net < 0.0 then losses + 1 else 0
  }

  function Removed(ts: seq<Trade>, instrument: nat): seq<Trade> {
    if ts == [] then []
    else if ts[0].instrument == instrument then Removed(ts[1..], instrument)
    else [ts[0]] + Removed(ts[1..], instrument)
  }

  function Later(a: Option<int>, b: int): Option<int> { if a.None? || a.value <= b then Some(b) else a }

  function SettleOne(env: Env, st: State, o: Outcome, now: int): State {
    st.(events := Record(st.events, now, env.retention, EventOf(env, o)),
        losses := CountLoss(st.losses, st.session, o),
        cooldowns := st.cooldowns[o.trade.instrument := o.closed],
        active := Removed(st.active, o.trade.instrument),
        lastClosed := Later(st.lastClosed, o.closed))
  }

  /** The event list alone, over the first `k` outcomes. */
  function Recorded(env: Env, events: seq<Event>, outs: seq<Outcome>, clock: nat -> int, k: nat): seq<Event>
    requires k <= |outs|
  {
    if k == 0 then events
    else Record(Recorded(env, events, outs, clock, k - 1), clock(k - 1), env.retention, EventOf(env, outs[k - 1]))
  }

  /** The active trades alone, over the first `k` outcomes. */
  function Remaining(ts: seq<Trade>, outs: seq<Outcome>, k: nat): seq<Trade>
    requires k <= |outs|
  {
    if k == 0 then ts else Removed(Remaining(ts, outs, k - 1), outs[k - 1].trade.instrument)
  }

  /** The counter alone, over the first `k` outcomes. */
  function Losses(before: nat, session: int, outs: seq<Outcome>, k: nat): nat
    requires k <= |outs|
  {
    if k == 0 then before else CountLoss(Losses(before, session, outs, k - 1), session, outs[k - 1])
  }

  /** The cooldowns alone, over the first `k` outcomes. */
  function Cooldowns(before: map<nat, int>, outs: seq<Outcome>, k: nat): map<nat, int>
    requires k <= |outs|
  {
    if k == 0 then before else Cooldowns(before, outs, k - 1)[outs[k - 1].trade.instrument := outs[k - 1].closed]
  }

  /** The last closing time alone, over the first `k` outcomes. */
  function LastClosed(before: Option<int>, outs: seq<Outcome>, k: nat): Option<int>
    requires k <= |outs|
  {
    if k == 0 then before else Later(LastClosed(before, outs, k - 1), outs[k - 1].closed)
  }

  /** The state after the first `k` outcomes; `clock` gives the time read at each recording. */
  function Settled(env: Env, st: State, outs: seq<Outcome>, clock: nat -> int, k: nat): (r: State)
    requires k <= |outs|
    ensures r.events == Recorded(env, st.events, outs, clock, k) && r.active == Remaining(st.active, outs, k)
    ensures r.losses == Losses(st.losses, st.session, outs, k) && r.session == st.session
    ensures r.cooldowns == Cooldowns(st.cooldowns, outs, k) && r.lastClosed == LastClosed(st.lastClosed, outs, k)
    ensures r.armed == st.armed && r.stopped == st.stopped && r.locked == st.locked && r.reasons == st.reasons
  {
    if k == 0 then st else SettleOne(env, Settled(env, st, outs, clock, k - 1), outs[k - 1], clock(k - 1))
  }

  function Halted(st: State): State {
    st.(armed := false, stopped := true, locked := true, reasons := st.reasons + {"trade_outcome_unconfirmed"})
  }

  function Settlement(st: State, snap: Snapshot, grace: int): seq<Outcome> {
    Sort(Outcomes(Closed(st, snap, grace), FromReports(snap.orders)), OutcomeKey)
  }

  function Finalise(env: Env, st: State, snap: Snapshot, clock: nat -> int): State {
    var closed := Closed(st, snap, env.grace);
    if closed == [] then st
    else if !AllKnown(closed, FromReports(snap.orders)) then Halted(st)
    else var outs := Settlement(st, snap, env.grace); Settled(env, st, outs, clock, |outs|)
  }

  // ---------------------------------------------------------------- lists

  lemma {:induction false} GoneMembers(ts: seq<Trade>, snap: Snapshot, grace: int, x: Trade)
    ensures x in GoneTrades(ts, snap, grace) <==> x in ts && Gone(x, snap, grace)
  {
    if ts != [] {
      GoneMembers(ts[..|ts| - 1], snap, grace, x);
      SplitLast(ts, x);
    }
  }

  lemma {:induction false} GoneDistinct(ts: seq<Trade>, snap: Snapshot, grace: int)
    requires DistinctBy(ts, TradeId)
    ensures DistinctBy(GoneTrades(ts, snap, grace), TradeId)
  {
    if ts != [] {
      var front, last := ts[..|ts| - 1], ts[|ts| - 1];
      GoneDistinct(front, snap, grace);
      var g := GoneTrades(front, snap, grace);
      forall i | 0 <= i < |g| ensures TradeId(g[i]) != TradeId(last) {
        GoneMembers(front, snap, grace, g[i]);
        var j :| 0 <= j < |front| && front[j] == g[i];
        assert TradeId(ts[j]) != TradeId(ts[|ts| - 1]);
      }
    }
  }

  lemma ClosedMembers(st: State, snap: Snapshot, grace: int, x: Trade)
    ensures x in Closed(st, snap, grace) <==> x in st.active && Gone(x, snap, grace)
  {
    SortMembers(st.active, TradeKey, x);
    GoneMembers(Sort(st.active, TradeKey), snap, grace, x);
  }

  lemma ClosedDistinct(st: State, snap: Snapshot, grace: int)
    requires DistinctBy(st.active, TradeId)
    ensures DistinctBy(Closed(st, snap, grace), TradeId)
  {
    SortDistinct(st.active, TradeKey, TradeId);
    GoneDistinct(Sort(st.active, TradeKey), snap, grace);
  }

  /** With every outcome known, outcomes and trades correspond one to one, in order. */
  lemma {:induction false} OutcomesMatch(ts: seq<Trade>, look: Lookup)
    requires AllKnown(ts, look)
    ensures |Outcomes(ts, look)| == |ts|
    ensures forall i :: 0 <= i < |ts| ==> look(ts[i]) == Some(Outcomes(ts, look)[i])
  {
    if ts != [] {
      var front := ts[..|ts| - 1];
      assert forall i :: 0 <= i < |front| ==> front[i] == ts[i];
      OutcomesMatch(front, look);
    }
  }

  /** The settled outcomes: one per closed trade, each its own, in order of closing. */
  lemma SettlementExactly(st: State, snap: Snapshot, grace: int, x: Outcome)
    requires DistinctBy(st.active, TradeId) && AllKnown(Closed(st, snap, grace), FromReports(snap.orders))
    ensures var outs := Settlement(st, snap, grace);
      && InOrder(outs, OutcomeKey) && DistinctBy(outs, OutcomeId)
      && (x in outs
          <==> x.trade in st.active && Gone(x.trade, snap, grace) && OutcomeOf(x.trade, snap.orders) == Some(x))
  {
    var closed := Closed(st, snap, grace);
    var raw := Outcomes(closed, FromReports(snap.orders));
    ClosedDistinct(st, snap, grace);
    OutcomesMatch(closed, FromReports(snap.orders));
    assert DistinctBy(raw, OutcomeId) by {
      forall i, j | 0 <= i < j < |raw| ensures OutcomeId(raw[i]) != OutcomeId(raw[j]) {
        assert TradeId(closed[i]) != TradeId(closed[j]);
      }
    }
    SortOrdered(raw, OutcomeKey);
    SortDistinct(raw, OutcomeKey, OutcomeId);
    SortMembers(raw, OutcomeKey, x);
    ClosedMembers(st, snap, grace, x.trade);
    if x in raw {
      var i :| 0 <= i < |raw| && raw[i] == x;
      assert closed[i] == x.trade;
    }
    if x.trade in closed && OutcomeOf(x.trade, snap.orders) == Some(x) {
      var i :| 0 <= i < |closed| && closed[i] == x.trade;
      assert raw[i] == x;
    }
  }

  // ---------------------------------------------------------------- what settling does to the trades

  lemma {:induction false} RemovedMembers(ts: seq<Trade>, instrument: nat, x: Trade)
    ensures x in Removed(ts, instrument) <==> x in ts && x.instrument != instrument
  {
    if ts != [] { RemovedMembers(ts[1..], instrument, x); }
  }

  predicate Settles(outs: seq<Outcome>, k: nat, instrument: nat) {
    exists i :: 0 <= i < k && i < |outs| && outs[i].trade.instrument == instrument
  }

  /** After `k` outcomes exactly the trades on their instruments are gone. */
  lemma {:induction false} RemainingMembers(ts: seq<Trade>, outs: seq<Outcome>, k: nat, x: Trade)
    requires k <= |outs|
    ensures x in Remaining(ts, outs, k) <==> x in ts && !Settles(outs, k, x.instrument)
  {
    if k > 0 {
      RemainingMembers(ts, outs, k - 1, x);
      RemovedMembers(Remaining(ts, outs, k - 1), outs[k - 1].trade.instrument, x);
      SettlesNext(outs, k, x.instrument);
    }
  }

  lemma SettlesNext(outs: seq<Outcome>, k: nat, instrument: nat)
    requires 0 < k <= |outs|
    ensures Settles(outs, k, instrument)
       <==> Settles(outs, k - 1, instrument) || outs[k - 1].trade.instrument == instrument
  {
    if Settles(outs, k - 1, instrument) {
      var i :| 0 <= i < k - 1 && outs[i].trade.instrument == instrument;
      assert Settles(outs, k, instrument);
    }
  }

  /**
   All or nothing. With an unconfirmed outcome among the closed trades nothing is removed or recorded and
   the automation ends disarmed, stopped and locked; otherwise exactly the closed trades are removed and
   no safety flag changes.
   */
  lemma AllOrNothing(env: Env, st: State, snap: Snapshot, clock: nat -> int, x: Trade)
    requires DistinctBy(st.active, TradeId)
    ensures var r := Finalise(env, st, snap, clock);
      if AllKnown(Closed(st, snap, env.grace), FromReports(snap.orders)) then
        && (x in r.active <==> x in st.active && !Gone(x, snap, env.grace))
        && r.armed == st.armed && r.stopped == st.stopped && r.locked == st.locked && r.reasons == st.reasons
      else
        && r.active == st.active && r.events == st.events && r.losses == st.losses && r.cooldowns == st.cooldowns
        && !r.armed && r.stopped && r.locked && "trade_outcome_unconfirmed" in r.reasons
  {
    var closed := Closed(st, snap, env.grace);
    ClosedMembers(st, snap, env.grace, x);
    if closed != [] && AllKnown(closed, FromReports(snap.orders)) {
      var outs := Settlement(st, snap, env.grace);
      RemainingMembers(st.active, outs, |outs|, x);
      if x in st.active && Gone(x, snap, env.grace) { GoneIsSettled(st, snap, env.grace, x, outs); }
      if x in st.active && Settles(outs, |outs|, x.instrument) { SettledIsGone(st, snap, env.grace, x, outs); }
    }
  }

  lemma SameTrade(ts: seq<Trade>, a: Trade, b: Trade)
    requires DistinctBy(ts, TradeId) && a in ts && b in ts && a.instrument == b.instrument
    ensures a == b
  {
    var i :| 0 <= i < |ts| && ts[i] == a;
    var j :| 0 <= j < |ts| && ts[j] == b;
    assert TradeId(ts[i]) == TradeId(ts[j]);
  }

  lemma GoneIsSettled(st: State, snap: Snapshot, grace: int, x: Trade, outs: seq<Outcome>)
    requires DistinctBy(st.active, TradeId) && AllKnown(Closed(st, snap, grace), FromReports(snap.orders))
    requires x in st.active
    requires outs == Settlement(st, snap, grace) && Gone(x, snap, grace)
    ensures Settles(outs, |outs|, x.instrument)
  {
    ClosedMembers(st, snap, grace, x);
    var o := OutcomeOf(x, snap.orders).value;
    SettlementExactly(st, snap, grace, o);
    var i :| 0 <= i < |outs| && outs[i] == o;
  }

  lemma SettledIsGone(st: State, snap: Snapshot, grace: int, x: Trade, outs: seq<Outcome>)
    requires DistinctBy(st.active, TradeId) && AllKnown(Closed(st, snap, grace), FromReports(snap.orders))
    requires x in st.active
    requires outs == Settlement(st, snap, grace) && Settles(outs, |outs|, x.instrument)
    ensures Gone(x, snap, grace)
  {
    var i :| 0 <= i < |outs| && outs[i].trade.instrument == x.instrument;
    SettlementExactly(st, snap, grace, outs[i]);
    SameTrade(st.active, outs[i].trade, x);
  }

  // ---------------------------------------------------------------- events

  /** An event recorded at step j is still inside the window of every later recording before step k. */
  predicate Survives(env: Env, clock: nat -> int, e: Event, j: nat, k: nat) {
    forall m: nat :: j < m < k ==> Kept(e, clock(m), env.retention)
  }

  lemma RecordedDistinct(env: Env, events: seq<Event>, outs: seq<Outcome>, clock: nat -> int, k: nat)
    requires 0 < k <= |outs|
    ensures DistinctBy(Recorded(env, events, outs, clock, k), EventId)
  {
    var e := EventOf(env, outs[k - 1]);
    RecordExactly(Recorded(env, events, outs, clock, k - 1), clock(k - 1), env.retention, e, e);
  }

  /** One more recording keeps an event of another trade exactly when it is inside the window. */
  lemma OtherEventKept(events: seq<Event>, now: int, retention: int, e: Event, x: Event)
    requires DistinctBy(events, EventId) && x.id != e.id
    ensures x in Record(events, now, retention, e) <==> x in events && Kept(x, now, retention)
  {
    RecordExactly(events, now, retention, e, x);
    NormaliseKeeps(events, now, retention, x);
  }

  lemma OwnEventOnly(events: seq<Event>, now: int, retention: int, e: Event, x: Event)
    requires x.id == e.id
    ensures x in Record(events, now, retention, e) <==> x == e
  {
    RecordExactly(events, now, retention, e, x);
  }

  lemma DistinctEvents(env: Env, outs: seq<Outcome>, i: nat, j: nat)
    requires Injective(env.digest) && DistinctBy(outs, OutcomeId) && i < j < |outs|
    ensures EventOf(env, outs[i]).id != EventOf(env, outs[j]).id
  {
    assert OutcomeId(outs[i]) != OutcomeId(outs[j]);
  }

  lemma LastRecorded(env: Env, events: seq<Event>, outs: seq<Outcome>, clock: nat -> int, k: nat, x: Event)
    requires 0 < k <= |outs| && x.id == EventOf(env, outs[k - 1]).id
    ensures x in Recorded(env, events, outs, clock, k) <==> x == EventOf(env, outs[k - 1])
  {
    OwnEventOnly(Recorded(env, events, outs, clock, k - 1), clock(k - 1), env.retention, EventOf(env, outs[k - 1]), x);
  }

  lemma EarlierRecorded(env: Env, events: seq<Event>, outs: seq<Outcome>, clock: nat -> int, k: nat, x: Event)
    requires 1 < k <= |outs| && x.id != EventOf(env, outs[k - 1]).id
    ensures x in Recorded(env, events, outs, clock, k)
       <==> x in Recorded(env, events, outs, clock, k - 1) && Kept(x, clock(k - 1), env.retention)
  {
    var list := Recorded(env, events, outs, clock, k - 1);
    RecordedDistinct(env, events, outs, clock, k - 1);
    OtherEventKept(list, clock(k - 1), env.retention, EventOf(env, outs[k - 1]), x);
  }

  /** No later outcome has the id of this event. */
  predicate OwnId(env: Env, outs: seq<Outcome>, j: nat, x: Event) {
    forall m :: j < m < |outs| ==> EventOf(env, outs[m]).id != x.id
  }

  lemma SurvivesStep(env: Env, clock: nat -> int, x: Event, j: nat, k: nat, own: bool, before: bool, after: bool)
    requires j < k - 1 && (before <==> own && Survives(env, clock, x, j, k - 1))
    requires after <==> before && Kept(x, clock(k - 1), env.retention)
    ensures after <==> own && Survives(env, clock, x, j, k)
  { }

  lemma {:induction false} RecordedSurvives(env: Env, events: seq<Event>, outs: seq<Outcome>, clock: nat -> int,
                                            j: nat, k: nat, x: Event)
    requires j < k <= |outs| && OwnId(env, outs, j, x) && x.id == EventOf(env, outs[j]).id
    ensures x in Recorded(env, events, outs, clock, k)
       <==> x == EventOf(env, outs[j]) && Survives(env, clock, x, j, k)
  {
    if j == k - 1 {
      LastRecorded(env, events, outs, clock, k, x);
    } else {
      RecordedSurvives(env, events, outs, clock, j, k - 1, x);
      EarlierRecorded(env, events, outs, clock, k, x);
      SurvivesStep(env, clock, x, j, k, x == EventOf(env, outs[j]), x in Recorded(env, events, outs, clock, k - 1),
                   x in Recorded(env, events, outs, clock, k));
    }
  }

  /**
   After k recordings, whatever event carries the id of outcome j is that outcome's event, and it is there
   exactly when every later recording found it inside its window.
   */
  lemma EventSurvives(env: Env, st: State, outs: seq<Outcome>, clock: nat -> int, j: nat, k: nat, x: Event)
    requires Injective(env.digest) && DistinctBy(outs, OutcomeId) && j < k <= |outs|
    requires x.id == EventOf(env, outs[j]).id
    ensures x in Settled(env, st, outs, clock, k).events
       <==> x == EventOf(env, outs[j]) && Survives(env, clock, x, j, k)
  {
    forall m | j < m < |outs| ensures EventOf(env, outs[m]).id != x.id { DistinctEvents(env, outs, j, m); }
    RecordedSurvives(env, st.events, outs, clock, j, k, x);
  }

  /**
   Exactly one event per settled trade, carrying its profit and its order ids, unless a later recording expired
   it.
   */
  lemma OneEventPerTrade(env: Env, st: State, snap: Snapshot, clock: nat -> int, j: nat, x: Event)
    requires Injective(env.digest) && DistinctBy(st.active, TradeId)
    requires AllKnown(Closed(st, snap, env.grace), FromReports(snap.orders)) && j < |Settlement(st, snap, env.grace)|
    ensures var outs := Settlement(st, snap, env.grace);
      var e := EventOf(env, outs[j]);
      var events := Finalise(env, st, snap, clock).events;
      && DistinctBy(events, EventId)
      && (x.id == e.id && x in events <==> x == e && Survives(env, clock, e, j, |outs|))
  {
    var outs := Settlement(st, snap, env.grace);
    SettlementExactly(st, snap, env.grace, outs[j]);
    ClosedMembers(st, snap, env.grace, outs[j].trade);
    RecordedDistinct(env, st.events, outs, clock, |outs|);
    if x.id == EventOf(env, outs[j]).id {
      EventSurvives(env, st, outs, clock, j, |outs|, x);
    }
  }

  /** An event older than the retention window is lost as soon as a later outcome of the same pass is recorded. */
  lemma StaleEventLost(env: Env, st: State, snap: Snapshot, now: int, j: nat, x: Event)
    requires Injective(env.digest) && DistinctBy(st.active, TradeId)
    requires AllKnown(Closed(st, snap, env.grace), FromReports(snap.orders))
    requires j + 1 < |Settlement(st, snap, env.grace)|
    requires Settlement(st, snap, env.grace)[j].closed < now - env.retention
    requires x in Finalise(env, st, snap, n => now).events
    ensures x.id != EventOf(env, Settlement(st, snap, env.grace)[j]).id
  {
    OneEventPerTrade(env, st, snap, n => now, j, x);
  }

  /** Two trades that left the exchange, the first of which closed ten days ago. */
  function OldTrade(i: nat): Trade { Trade(i, 0, 0) }

  function OldReport(i: nat, at: int): Report { Report(i, i, true, true, Some(at), Some(1.0), None, None, None, None) }

  function StaleState(): State {
    State([OldTrade(1), OldTrade(2)], [], true, false, false, {}, 0, 10, map[], None)
  }

  function StaleSnapshot(): Snapshot { Snapshot(10 * DAY, {}, [OldReport(1, 0), OldReport(2, 10 * DAY)]) }

  function OldOutcome(i: nat, at: int): Outcome { Outcome(at, OldTrade(i), 1.0, {i}) }

  lemma OldOutcomes()
    ensures var orders := StaleSnapshot().orders;
      && OutcomeOf(OldTrade(1), orders) == Some(OldOutcome(1, 0))
      && OutcomeOf(OldTrade(2), orders) == Some(OldOutcome(2, 10 * DAY))
  {
    var a, b := OldReport(1, 0), OldReport(2, 10 * DAY);
    var orders := StaleSnapshot().orders;
    assert orders[..1] == [a] && [a][..0] == [];
    assert NetOf(a) == 1.0 && NetOf(b) == 1.0;
    assert Matches(OldTrade(1), [a]) == [Match(1, 0, 1.0)];
    assert Matches(OldTrade(1), orders) == [Match(1, 0, 1.0)];
    assert Matches(OldTrade(2), [a]) == [];
    assert Matches(OldTrade(2), orders) == [Match(2, 10 * DAY, 1.0)];
    OneMatchOutcome(OldTrade(1), orders, Match(1, 0, 1.0));
    OneMatchOutcome(OldTrade(2), orders, Match(2, 10 * DAY, 1.0));
  }

  lemma OneMatchOutcome(t: Trade, orders: seq<Report>, m: Match)
    requires Matches(t, orders) == [m]
    ensures OutcomeOf(t, orders) == Some(Outcome(m.closed, t, m.net, {m.id}))
  {
    assert [m][..0] == [];
    assert NetSum([m]) == m.net;
    assert (set x <- [m] :: x.id) == {m.id};
  }

  lemma SortTwo<T>(x: T, y: T, key: T -> Key)
    requires NotAfter(key(x), key(y))
    ensures Sort([x, y], key) == [x, y]
  {
    assert [x, y][..1] == [x] && [x][..0] == [];
    assert Sort([x], key) == Place(x, [], key);
  }

  lemma StaleClosed(grace: int)
    requires 0 <= grace <= 10 * DAY
    ensures Closed(StaleState(), StaleSnapshot(), grace) == [OldTrade(1), OldTrade(2)]
  {
    var a, b, snap := OldTrade(1), OldTrade(2), StaleSnapshot();
    SortTwo(a, b, TradeKey);
    assert [a, b][..1] == [a] && [a][..0] == [];
    assert GoneTrades([a], snap, grace) == [a];
    assert GoneTrades([a, b], snap, grace) == [a, b];
  }

  lemma TwoOutcomes(a: Trade, b: Trade, look: Lookup, x: Outcome, y: Outcome)
    requires look(a) == Some(x) && look(b) == Some(y)
    ensures AllKnown([a, b], look) && Outcomes([a, b], look) == [x, y]
  {
    assert [a, b][..1] == [a] && [a][..0] == [];
    assert Outcomes([a], look) == [x];
  }

  lemma StaleSettlement(grace: int)
    requires 0 <= grace <= 10 * DAY
    ensures AllKnown(Closed(StaleState(), StaleSnapshot(), grace), FromReports(StaleSnapshot().orders))
    ensures Settlement(StaleState(), StaleSnapshot(), grace) == [OldOutcome(1, 0), OldOutcome(2, 10 * DAY)]
  {
    StaleClosed(grace);
    OldOutcomes();
    TwoOutcomes(OldTrade(1), OldTrade(2), FromReports(StaleSnapshot().orders), OldOutcome(1, 0),
                OldOutcome(2, 10 * DAY));
    SortTwo(OldOutcome(1, 0), OldOutcome(2, 10 * DAY), OutcomeKey);
  }

  /** In that state, finalisation at the time of the snapshot leaves no event for the first trade. */
  lemma FirstEventLost(env: Env, x: Event)
    requires Injective(env.digest) && 0 <= env.grace <= 10 * DAY && 0 <= env.retention < 10 * DAY
    requires x in Finalise(env, StaleState(), StaleSnapshot(), n => 10 * DAY).events
    ensures x.id != EventOf(env, OldOutcome(1, 0)).id
  {
    StaleSettlement(env.grace);
    assert DistinctBy(StaleState().active, TradeId);
    StaleEventLost(env, StaleState(), StaleSnapshot(), 10 * DAY, 0, x);
  }

  // ---------------------------------------------------------------- the loss counter

  /** The results that count for the session, in processing order. */
  function SessionNets(outs: seq<Outcome>, session: int, k: nat): seq<real>
    requires k <= |outs|
  {
    if k == 0 then []
    else if DayOf(outs[k - 1].closed) == session then SessionNets(outs, session, k - 1) + [outs[k - 1].net]
    else SessionNets(outs, session, k - 1)
  }

  /** `n` is the length of the trailing run of losses in `nets`, continued into `before` when all lose. */
  predicate TrailingRun(nets: seq<real>, before: nat, n: nat) {
    || (n == before + |nets| && forall i :: 0 <= i < |nets| ==> nets[i] < 0.0)
    || (n < |nets| && nets[|nets| - 1 - n] >= 0.0 && forall i :: |nets| - n <= i < |nets| ==> nets[i] < 0.0)
  }

  lemma {:induction false} LossCounter(before: nat, session: int, outs: seq<Outcome>, k: nat)
    requires k <= |outs|
    ensures TrailingRun(SessionNets(outs, session, k), before, Losses(before, session, outs, k))
  {
    if k > 0 {
      LossCounter(before, session, outs, k - 1);
      if DayOf(outs[k - 1].closed) == session {
        RunStep(SessionNets(outs, session, k - 1), before, Losses(before, session, outs, k - 1), outs[k - 1].net);
      }
    }
  }

  lemma RunStep(nets: seq<real>, before: nat, n: nat, net: real)
    requires TrailingRun(nets, before, n)
    ensures TrailingRun(nets + [net], before, if net < 0.0 then n + 1 else 0)
  {
    var t := nets + [net];
    assert t[|nets|] == net && forall i :: 0 <= i < |nets| ==> t[i] == nets[i];
  }

  /** The trailing run is unique, so the counter is determined by the results alone. */
  lemma TrailingRunUnique(nets: seq<real>, before: nat, n: nat, m: nat)
    requires TrailingRun(nets, before, n) && TrailingRun(nets, before, m)
    ensures n == m
  { }

  /** The loss counter after finalisation is the trailing run of losing same-session closes in closing order. */
  lemma LossesAreTrailingRun(env: Env, st: State, snap: Snapshot, clock: nat -> int)
    requires AllKnown(Closed(st, snap, env.grace), FromReports(snap.orders))
    ensures var outs := Settlement(st, snap, env.grace);
      TrailingRun(SessionNets(outs, st.session, |outs|), st.losses, Finalise(env, st, snap, clock).losses)
  {
    var outs := Settlement(st, snap, env.grace);
    LossCounter(st.losses, st.session, outs, |outs|);
    OutcomesMatch(Closed(st, snap, env.grace), FromReports(snap.orders));
  }

  lemma KnownNext(ts: seq<Trade>, look: Lookup, i: nat)
    requires i < |ts|
    ensures AllKnown(ts[..i + 1], look) <==> AllKnown(ts[..i], look) && look(ts[i]).Some?
  {
    var shorter, longer := ts[..i], ts[..i + 1];
    assert forall j :: 0 <= j < i ==> longer[j] == shorter[j];
    assert longer[i] == ts[i];
    if AllKnown(longer, look) {
      forall j | 0 <= j < i ensures look(shorter[j]).Some? { assert look(longer[j]).Some?; }
    }
  }

  // ---------------------------------------------------------------- the service

  /** The automation state that finalisation updates field by field. */
  class Automation {
    var active: seq<Trade>
    var events: seq<Event>
    var armed: bool
    var stopped: bool
    var locked: bool
    var reasons: set<string>
    var losses: nat
    var session: int
    var cooldowns: map<nat, int>
    var lastClosed: Option<int>

    function View(): State
      reads this
    {
      State(active, events, armed, stopped, locked, reasons, losses, session, cooldowns, lastClosed)
    }

    /** `_normalize_realized_pnl_events`: the loop that keeps one event per id inside the window. */
    method NormaliseEvents(now: int, retention: int)
      modifies this`events
      ensures events == Normalise(old(events), now, retention)
    {
      var raw, kept := events, [];
      for i := 0 to |raw|
        invariant kept == Collect(raw[..i], now, retention)
      {
        assert raw[..i + 1][..i] == raw[..i];
        if Kept(raw[i], now, retention) { kept := Upsert(kept, raw[i]); }
      }
      assert raw[..|raw|] == raw;
      events := Sort(kept, EventKey);
    }

    method RecordEvent(e: Event, now: int, retention: int)
      modifies this`events
      ensures events == Record(old(events), now, retention, e)
    {
      NormaliseEvents(now, retention);
      events := Sort(Without(events, e.id) + [e], EventKey);
    }

    method Settle(env: Env, o: Outcome, now: int)
      modifies this
      ensures View() == SettleOne(env, old(View()), o, now)
    {
      RecordEvent(EventOf(env, o), now, env.retention);
      if DayOf(o.closed) == session {
        if o.net < 0.0 { losses := losses + 1; } else { losses := 0; }
      }
      cooldowns := cooldowns[o.trade.instrument := o.closed];
      active := Removed(active, o.trade.instrument);
      lastClosed := Later(lastClosed, o.closed);
    }

    /** Classify the closed trades into outcomes and unknowns. */
    method Classify(closed: seq<Trade>, orders: seq<Report>) returns (outs: seq<Outcome>, unknown: seq<Trade>)
      ensures outs == Outcomes(closed, FromReports(orders))
      ensures unknown == [] <==> AllKnown(closed, FromReports(orders))
    {
      outs, unknown := [], [];
      ghost var look := FromReports(orders);
      for i := 0 to |closed|
        invariant outs == Outcomes(closed[..i], look)
        invariant unknown == [] <==> AllKnown(closed[..i], look)
      {
        assert closed[..i + 1][..i] == closed[..i];
        var outcome := ClosingOutcome(closed[i], orders);
        KnownNext(closed, look, i);
        if outcome.None? { unknown := unknown + [closed[i]]; } else { outs := outs + [outcome.value]; }
      }
      assert closed[..|closed|] == closed;
    }

    method SettleAll(env: Env, outs: seq<Outcome>, clock: nat -> int)
      modifies this
      ensures View() == Settled(env, old(View()), outs, clock, |outs|)
    {
      for k := 0 to |outs|
        invariant View() == Settled(env, old(View()), outs, clock, k)
      {
        Settle(env, outs[k], clock(k));
      }
    }

    /** `_finalize_active_trades`. */
    method FinalizeActiveTrades(env: Env, snap: Snapshot, clock: nat -> int)
      modifies this
      ensures View() == Finalise(env, old(View()), snap, clock)
    {
      var closed := GoneTrades(Sort(active, TradeKey), snap, env.grace);
      if closed == [] { return; }
      var outcomes, unknown := Classify(closed, snap.orders);
      if unknown != [] {
        armed := false;
        stopped := true;
        locked := true;
        reasons := reasons + {"trade_outcome_unconfirmed"};
        return;
      }
      SettleAll(env, Sort(outcomes, OutcomeKey), clock);
    }
  }
}
