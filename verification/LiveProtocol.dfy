/**
 The production write protocol of `OkxLiveService` as a step system.

 Several service processes share one database and one exchange account. Each process keeps an
 arm, a submission counter and an emergency stop in memory, and runs at most one guarded operation
 at a time. Every `await` of a guarded operation is split in two steps: the remote call takes
 effect (`Effect`), and the operation later continues with the answer (`Resume`). Between any two
 steps the clock may advance, other tasks of the process may disarm, stop or latch, the operation
 may be cancelled, the process may restart, and other processes may run.

 `Hist` is not part of the service: it remembers what happened so that properties of whole runs
 can be stated about the last state.
 */
module LiveProtocol {
  import opened Options

  type Key = nat
  type Pid = nat

  // ---------------------------------------------------------------- durable state

  datatype Status = Reserved | Acknowledged | Confirmed | Ambiguous | Rejected

  /** One row of the execution-intent table; `stamp` is `updated_at`. */
  datatype Intent = Intent(status: Status, stamp: int, reconciled: bool)

  /** What an operator quotes about an unresolved intent when clearing the stop. */
  datatype Row = Row(status: Status, stamp: int)

  datatype Durable = Durable(lock: Option<Pid>, latched: bool, version: nat, intents: map<Key, Intent>)

  predicate IsUnresolved(i: Intent) {
    (i.status.Reserved? || i.status.Acknowledged? || i.status.Ambiguous?) && !i.reconciled
  }

  function Rows(m: map<Key, Intent>): map<Key, Row> {
    map k | k in m && IsUnresolved(m[k]) :: Row(m[k].status, m[k].stamp)
  }

  predicate TransitionAllowed(from: Status, to: Status) {
    || from == to
    || (from.Reserved? && (to.Acknowledged? || to.Ambiguous? || to.Rejected?))
    || (from.Acknowledged? && (to.Confirmed? || to.Ambiguous?))
  }

  // ---------------------------------------------------------------- the exchange, as it answers

  datatype Snapshot = Snapshot(
    capable: bool, positions: nat, orders: nat, algos: nat, exactlyProtected: bool,
    instrumentExposed: bool, equity: real, identity: int)
  {
    predicate Flat() { positions == 0 && orders == 0 && algos == 0 }
    predicate Unprotected() { positions > 0 && !exactlyProtected }
  }

  /** Answer to the operation's own exchange write. */
  datatype Answer = Accepted(usable: bool) | Refused | Unknown

  /** What the polls after an acknowledged write ended with. */
  datatype Observation = Observation(
    orderFinal: bool, snap: Option<Snapshot>, effectConfirmed: bool, unprotected: bool)

  /** One round of the stable-flat recovery check; `orders` is None when a detail read is unusable. */
  datatype Poll = Poll(snap: Snapshot, orders: Option<map<Key, int>>)

  datatype Fault = NoFault | Before(explicit: bool) | After

  /** Everything the environment decides about one remote call. */
  datatype World = World(fault: Fault, snap: Snapshot, answer: Answer, obs: Observation, poll: Poll)

  /** The post-order exchange state that `place_order` accepts as final. */
  predicate CleanFlat(o: Observation) { o.snap.Some? && o.snap.value.Flat() }

  predicate IsolatedProtected(o: Observation) {
    o.snap.Some? && o.snap.value.orders == 0 && o.snap.value.positions == 1
    && o.snap.value.algos == 1 && o.snap.value.exactlyProtected
  }

  predicate ConfirmsOrder(o: Observation) {
    o.orderFinal && (CleanFlat(o) || IsolatedProtected(o))
  }

  // ---------------------------------------------------------------- tasks and processes

  datatype Kind = Place | Cancel | Close | Leverage

  datatype Op = Arm(duration: nat) | Clear(expected: map<Key, Row>) | Writer(kind: Kind, key: Key)

  datatype Pc =
    | Acquire | LatchRead | IntentRead | Survey | SurveyLatch | Market
    | Reserve | ReserveCount | Preflight | FinalSurvey | FinalSurveyLatch | FinalMarket | FinalLatchRead
    | Write | FailUpdate(to: Status) | FailCount(to: Status) | BadAckUpdate | BadAckCount
    | AckUpdate | AckCount | Observe | ObserveLatch(ok: bool) | FinalUpdate(ok: bool) | FinalCount(ok: bool)
    | ClearLatchRead | ClearIntentRead | ClearPoll | ClearMark | ClearRemaining | ClearLatch

  datatype Reply =
    | Failed(explicit: bool) | Done | LockTaken | LockBusy
    | LatchIs(latched: bool, version: nat) | RowsAre(rows: map<Key, Row>)
    | Account(snap: Snapshot) | Answered(answer: Answer) | Observed(obs: Observation) | Polled(poll: Poll)

  datatype Task = Task(
    op: Op, pc: Pc, reply: Option<Reply>, snap: Option<Snapshot>, polls: seq<Poll>,
    firstLatched: bool, firstVersion: nat)

  datatype Proc = Proc(
    armedUntil: Option<int>, arm: nat, baseline: Option<real>, submissions: nat, stop: bool,
    task: Option<Task>)

  const FRESH_PROC := Proc(None, 0, None, 0, false, None)

  // ---------------------------------------------------------------- history

  /** One invocation of the exchange's order endpoint, with the intents unresolved at that moment. */
  datatype Call = Call(pid: Pid, arm: nat, key: Key, unresolved: set<Key>)

  datatype Evidence = Evidence(who: Pid, polls: seq<Poll>)

  datatype Hist = Hist(
    arms: nat, calls: seq<Call>, writes: seq<Key>, answers: map<Key, Answer>,
    observed: map<Key, Observation>, cleared: map<Key, Evidence>,
    rejectionCut: set<Key>, clearCut: set<Key>)

  datatype State = State(now: int, procs: map<Pid, Proc>, d: Durable, h: Hist)

  datatype Config = Config(flatPolls: nat, lossLimit: real)

  /** `okx_live_recovery_flat_poll_attempts` is validated to be at least two. */
  predicate ValidConfig(c: Config) { c.flatPolls >= 2 }

  // ---------------------------------------------------------------- local operations

  function Disarm(q: Proc, keep: bool): Proc {
    q.(armedUntil := None, baseline := None, submissions := if keep then q.submissions else 0)
  }

  function Engage(q: Proc): Proc { Disarm(q.(stop := true), true) }

  function Expire(q: Proc, now: int): Proc {
    if q.armedUntil.Some? && now >= q.armedUntil.value then Disarm(q, false) else q
  }

  predicate ArmedFor(q: Proc, now: int) {
    !q.stop && q.armedUntil.Some? && now < q.armedUntil.value && q.submissions < 1
  }

  /** `_require_armed`: what it leaves behind, whether or not it raises. */
  function RequireArmed(q: Proc, now: int): Proc {
    var e := Expire(q, now);
    if !e.stop && e.armedUntil.Some? && e.submissions >= 1 then Disarm(e, true) else e
  }

  function End(q: Proc): Proc { q.(task := None) }

  function Go(q: Proc, pc: Pc): Proc
    requires q.task.Some?
  {
    q.(task := Some(q.task.value.(pc := pc, reply := None)))
  }

  /** `_enforce_session_loss` finds the loss limit reached (a missing baseline raises as well). */
  predicate LossReached(c: Config, baseline: real, equity: real) {
    baseline > 0.0 && (if baseline > equity then baseline - equity else 0.0) >= c.lossLimit * baseline
  }

  // ---------------------------------------------------------------- remote effects

  function Update(d: Durable, k: Key, to: Status, now: int): Option<Durable> {
    if k in d.intents && TransitionAllowed(d.intents[k].status, to)
    then Some(d.(intents := d.intents[k := d.intents[k].(status := to, stamp := now)]))
    else None
  }

  /** A database write: all or nothing, and a failure after the commit loses only the answer. */
  function Committed(d: Durable, next: Option<Durable>, f: Fault): (Durable, Reply) {
    if f.Before? then (d, Failed(false))
    else if next.None? then (d, Failed(false))
    else if f.After? then (next.value, Failed(false))
    else (next.value, Done)
  }

  function LatchEngaged(d: Durable): Durable { d.(latched := true, version := d.version + 1) }

  function MarkReconciled(d: Durable, now: int): Durable {
    d.(intents := map k | k in d.intents ::
      if IsUnresolved(d.intents[k]) then d.intents[k].(reconciled := true, stamp := now) else d.intents[k])
  }

  function KeyOf(op: Op): Key { if op.Writer? then op.key else 0 }

  datatype Applied = Applied(d: Durable, h: Hist, reply: Reply)

  function StatusWrite(pc: Pc): Option<Status> {
    match pc
    case FailUpdate(to) => Some(to)
    case BadAckUpdate => Some(Ambiguous)
    case AckUpdate => Some(Acknowledged)
    case FinalUpdate(ok) => Some(if ok then Confirmed else Ambiguous)
    case _ => None
  }

  function DatabaseWrite(now: int, t: Task, d: Durable): Option<Durable> {
    var k := KeyOf(t.op);
    match t.pc
    case Reserve => if k in d.intents then None
                    else Some(d.(intents := d.intents[k := Intent(Reserved, now, false)]))
    case SurveyLatch => Some(LatchEngaged(d))
    case FinalSurveyLatch => Some(LatchEngaged(d))
    case ObserveLatch(_) => Some(LatchEngaged(d))
    case _ => var to := StatusWrite(t.pc); if to.Some? then Update(d, k, to.value, now) else Some(d)
  }

  function Marking(p: Pid, now: int, t: Task, d: Durable, h: Hist, f: Fault): Applied {
    if !t.op.Clear? || Rows(d.intents) != t.op.expected || f.Before? then Applied(d, h, Failed(false))
    else
      Applied(MarkReconciled(d, now),
              h.(cleared := map k | k in h.cleared.Keys + t.op.expected.Keys ::
                 if k in t.op.expected then Evidence(p, t.polls) else h.cleared[k]),
              if f.After? then Failed(false) else Done)
  }

  /** The compare-and-set of the latch, or the re-read when it was not latched at first. */
  function Unlatching(t: Task, d: Durable, h: Hist, f: Fault): Applied {
    if f.Before? then Applied(d, h, Failed(false))
    else if !t.firstLatched then
      Applied(d, h, if f.After? then Failed(false) else LatchIs(d.latched, d.version))
    else if d.latched && d.version == t.firstVersion then
      Applied(d.(latched := false, version := d.version + 1), h,
              if f.After? then Failed(false) else LatchIs(false, d.version + 1))
    else Applied(d, h, Failed(false))
  }

  /** The awaited call of task `t` takes effect. */
  function Remote(p: Pid, now: int, t: Task, d: Durable, h: Hist, w: World): Applied {
    var lost := !w.fault.NoFault?;
    match t.pc
    case Acquire =>
      if lost then Applied(d, h, Failed(false))
      else if d.lock.None? then Applied(d.(lock := Some(p)), h, LockTaken) else Applied(d, h, LockBusy)
    case LatchRead => Applied(d, h, if lost then Failed(false) else LatchIs(d.latched, d.version))
    case FinalLatchRead => Applied(d, h, if lost then Failed(false) else LatchIs(d.latched, d.version))
    case ClearLatchRead => Applied(d, h, if lost then Failed(false) else LatchIs(d.latched, d.version))
    case IntentRead => Applied(d, h, if lost then Failed(false) else RowsAre(Rows(d.intents)))
    case ClearIntentRead => Applied(d, h, if lost then Failed(false) else RowsAre(Rows(d.intents)))
    case ClearRemaining => Applied(d, h, if lost then Failed(false) else RowsAre(Rows(d.intents)))
    case Survey => Applied(d, h, if lost then Failed(w.fault.Before? && w.fault.explicit) else Account(w.snap))
    case FinalSurvey => Applied(d, h, if lost then Failed(w.fault.Before? && w.fault.explicit) else Account(w.snap))
    case Market => Applied(d, h, if lost then Failed(false) else Done)
    case Preflight => Applied(d, h, if lost then Failed(w.fault.Before? && w.fault.explicit) else Done)
    case FinalMarket => Applied(d, h, if lost then Failed(false) else Done)
    case ReserveCount => Applied(d, h, if lost then Failed(false) else Done)
    case FailCount(_) => Applied(d, h, if lost then Failed(false) else Done)
    case BadAckCount => Applied(d, h, if lost then Failed(false) else Done)
    case AckCount => Applied(d, h, if lost then Failed(false) else Done)
    case FinalCount(_) => Applied(d, h, if lost then Failed(false) else Done)
    case Write => Applied(d, h.(answers := h.answers[KeyOf(t.op) := w.answer]), Answered(w.answer))
    case Observe => Applied(d, h.(observed := h.observed[KeyOf(t.op) := w.obs]), Observed(w.obs))
    case ClearPoll => Applied(d, h, if lost then Failed(false) else Polled(w.poll))
    case ClearMark => Marking(p, now, t, d, h, w.fault)
    case ClearLatch => Unlatching(t, d, h, w.fault)
    case _ => var (d', r) := Committed(d, DatabaseWrite(now, t, d), w.fault); Applied(d', h, r)
  }

  // ---------------------------------------------------------------- local continuations

  datatype Next = Next(q: Proc, h: Hist)

  /** Where an operation goes once it holds the write guard. */
  function Entered(q: Proc): Proc
    requires q.task.Some?
  {
    match q.task.value.op
    case Arm(_) => Go(q, Survey)
    case Clear(_) => Go(q, ClearLatchRead)
    case Writer(kind, _) => if kind.Place? || kind.Leverage? then Go(q, LatchRead) else Go(q, Survey)
  }

  /** After the first account read: the checks each operation makes, in order. */
  function Surveyed(c: Config, q: Proc, snap: Snapshot): Proc
    requires q.task.Some?
  {
    var keep := q.(task := Some(q.task.value.(snap := Some(snap))));
    match q.task.value.op
    case Arm(_) =>
      if snap.Unprotected() then Go(Engage(keep), SurveyLatch)
      else if !snap.capable || !snap.Flat() then End(q) else Go(keep, LatchRead)
    case Clear(_) => End(q)
    case Writer(kind, _) =>
      match kind
      case Cancel => if snap.capable then Go(keep, Reserve) else End(q)
      case Close =>
        if snap.Unprotected() then Go(Engage(keep), SurveyLatch)
        else if snap.capable && snap.instrumentExposed then Go(keep, Reserve) else End(q)
      case Leverage =>
        if snap.Unprotected() then Go(Engage(keep), SurveyLatch)
        else if snap.capable && snap.Flat() then Go(keep, Reserve) else End(q)
      case Place =>
        if snap.Unprotected() then Go(Engage(keep), SurveyLatch)
        else if !snap.capable || !snap.Flat() || q.baseline.None? || q.baseline.value <= 0.0 then End(q)
        else if LossReached(c, q.baseline.value, snap.equity) then Go(Engage(keep), SurveyLatch)
        else Go(keep, Market)
  }

  /** A latch written during the account read: only `close_position` goes on afterwards. */
  function SurveyLatched(q: Proc, r: Reply): Proc
    requires q.task.Some?
  {
    var t := q.task.value;
    if t.op.Writer? && t.op.kind.Close? && r.Done? && t.snap.Some?
       && t.snap.value.capable && t.snap.value.instrumentExposed
    then Go(q, Reserve) else End(q)
  }

  function LatchWasRead(q: Proc, r: Reply): Proc
    requires q.task.Some?
  {
    if !r.LatchIs? || r.latched then End(Engage(q)) else Go(q, IntentRead)
  }

  /** The second half of `_assert_execution_safe`, and what follows it without another await. */
  function IntentsWereRead(now: int, q: Proc, h: Hist, r: Reply): Next
    requires q.task.Some?
  {
    var t := q.task.value;
    if !r.RowsAre? || r.rows != map[] then Next(End(Engage(q)), h)
    else if q.stop then Next(End(q), h)
    else match t.op
      case Arm(duration) =>
        if t.snap.None? || t.snap.value.equity <= 0.0 then Next(End(q), h)
        else Next(End(q).(armedUntil := Some(now + duration), arm := h.arms, submissions := 0,
                          baseline := Some(t.snap.value.equity)), h.(arms := h.arms + 1))
      case Clear(_) => Next(End(q), h)
      case Writer(_, _) =>
        if ArmedFor(Expire(q, now), now) then Next(Go(q, Survey), h)
        else Next(End(RequireArmed(q, now)), h)
  }

  function FailPc(explicit: bool): Pc { FailUpdate(if explicit then Rejected else Ambiguous) }

  /** The account read just before the order is sent; every failure is recorded on the intent. */
  function FinallySurveyed(c: Config, q: Proc, r: Reply): Proc
    requires q.task.Some?
  {
    if !r.Account? then Go(q, FailPc(r.Failed? && r.explicit))
    else if r.snap.Unprotected() then Go(Engage(q), FinalSurveyLatch)
    else if !r.snap.capable || !r.snap.Flat() || q.baseline.None? || q.baseline.value <= 0.0 then
      Go(q, FailUpdate(Ambiguous))
    else if LossReached(c, q.baseline.value, r.snap.equity) then Go(Engage(q), FinalSurveyLatch)
    else Go(q, FinalMarket)
  }

  /** The exchange write is issued in this step. */
  function Issue(p: Pid, q: Proc, d: Durable, h: Hist): Next
    requires q.task.Some?
  {
    var op := q.task.value.op;
    var k := KeyOf(op);
    var h1 := h.(writes := h.writes + [k]);
    Next(Go(q, Write),
         if op.Writer? && op.kind.Place?
         then h1.(calls := h.calls + [Call(p, q.arm, k, Rows(d.intents).Keys)]) else h1)
  }

  function FinallyLatchRead(p: Pid, now: int, q: Proc, d: Durable, h: Hist, r: Reply): Next
    requires q.task.Some?
  {
    if !r.LatchIs? || r.latched then Next(Go(Engage(q), FailUpdate(Ambiguous)), h)
    else if ArmedFor(Expire(q, now), now) then Issue(p, q, d, h)
    else Next(Go(RequireArmed(q, now), FailUpdate(Ambiguous)), h)
  }

  function ReservationCounted(p: Pid, q: Proc, d: Durable, h: Hist, r: Reply): Next
    requires q.task.Some?
  {
    var op := q.task.value.op;
    if !r.Done? then Next(End(Engage(q)), h)
    else if !op.Writer? then Next(End(q), h)
    else match op.kind
      case Place => Next(Go(q, Preflight), h)
      case Leverage => Next(Go(q, FinalLatchRead), h)
      case Cancel => Issue(p, Disarm(q, false), d, h)
      case Close => Issue(p, Disarm(q, false), d, h)
  }

  function WriteAnswered(q: Proc, a: Answer): Proc
    requires q.task.Some?
  {
    var op := q.task.value.op;
    match a
    case Refused => Go(q, FailUpdate(Rejected))
    case Unknown => Go(q, FailUpdate(Ambiguous))
    case Accepted(usable) =>
      if !op.Writer? then End(q)
      else match op.kind
        case Place =>
          var sent := q.(submissions := q.submissions + 1);
          if usable then Go(sent, AckUpdate) else Go(Engage(sent), BadAckUpdate)
        case Cancel => if usable then Go(q, AckUpdate) else Go(Engage(q), BadAckUpdate)
        case Close => Go(q, AckUpdate)
        case Leverage => if usable then Go(q, AckUpdate) else Go(q, FailUpdate(Ambiguous))
  }

  predicate RejectionStored(d: Durable, k: Key) { k in d.intents && d.intents[k].status.Rejected? }

  /** A recorded rejection whose task ends before it reaches the local disarm. */
  function CutRejection(h: Hist, d: Durable, t: Task): Hist {
    if RejectionStored(d, KeyOf(t.op)) && t.op.Writer?
    then h.(rejectionCut := h.rejectionCut + {KeyOf(t.op)}) else h
  }

  function FailureUpdated(q: Proc, d: Durable, h: Hist, to: Status, r: Reply): Next
    requires q.task.Some?
  {
    if r.Done? then Next(Go(q, FailCount(to)), h)
    else Next(End(if to.Ambiguous? then Engage(q) else q), CutRejection(h, d, q.task.value))
  }

  function FailureCounted(q: Proc, to: Status, r: Reply): Proc
    requires q.task.Some?
  {
    var op := q.task.value.op;
    var stopped := if !r.Done? || to.Ambiguous? then Engage(q) else q;
    End(if r.Done? && op.Writer? && (op.kind.Place? || op.kind.Leverage?)
        then Disarm(stopped, false) else stopped)
  }

  function Acknowledging(q: Proc, r: Reply, next: Pc): Proc
    requires q.task.Some?
  {
    if r.Done? then Go(q, next) else End(Engage(q))
  }

  function AckCounted(q: Proc, r: Reply): Proc
    requires q.task.Some?
  {
    var op := q.task.value.op;
    if !r.Done? then End(Engage(q))
    else if op.Writer? && op.kind.Place? then Go(Disarm(q, true), Observe)
    else if op.Writer? && op.kind.Leverage? then Go(q, FinalUpdate(true))
    else Go(q, Observe)
  }

  function OrderObserved(q: Proc, o: Observation): Proc
    requires q.task.Some?
  {
    var ok := ConfirmsOrder(o);
    if o.snap.None? || (o.snap.value.instrumentExposed && !IsolatedProtected(o)) || (!ok && !q.stop)
    then Go(Engage(q), ObserveLatch(ok)) else Go(q, FinalUpdate(ok))
  }

  function WriteObserved(q: Proc, o: Observation): Proc
    requires q.task.Some?
  {
    var op := q.task.value.op;
    if op.Writer? && op.kind.Place? then OrderObserved(q, o)
    else
      var ok := o.effectConfirmed;
      var q1 := if ok then q else Engage(q);
      if o.unprotected then Go(Engage(q1), ObserveLatch(ok)) else Go(q1, FinalUpdate(ok))
  }

  function ObservationLatched(q: Proc, ok: bool, r: Reply): Proc
    requires q.task.Some?
  {
    var op := q.task.value.op;
    if op.Writer? && op.kind.Place? && !r.Done? then End(q) else Go(q, FinalUpdate(ok))
  }

  function Give(q: Proc): Proc { End(Engage(q)) }

  predicate SameAsFirst(polls: seq<Poll>, x: Poll) {
    |polls| > 0 ==> x.snap.identity == polls[0].snap.identity && x.orders == polls[0].orders
  }

  function PollSeen(c: Config, q: Proc, r: Reply): Proc
    requires q.task.Some?
  {
    var t := q.task.value;
    if !r.Polled? || !r.poll.snap.Flat() || r.poll.orders.None? || !SameAsFirst(t.polls, r.poll) then Give(q)
    else
      var q1 := q.(task := Some(t.(polls := t.polls + [r.poll])));
      if |t.polls| + 1 < c.flatPolls then Go(q1, ClearPoll) else Go(q1, ClearMark)
  }

  /** Everything a guarded operation does between two awaits. */
  function Continue(c: Config, p: Pid, now: int, q: Proc, d: Durable, h: Hist): Next
    requires q.task.Some? && q.task.value.reply.Some?
  {
    var t := q.task.value;
    var r := t.reply.value;
    match t.pc
    case Acquire => Next(if r.LockTaken? then Entered(q) else End(q), h)
    case LatchRead => Next(LatchWasRead(q, r), h)
    case IntentRead => IntentsWereRead(now, q, h, r)
    case Survey => Next(if r.Account? then Surveyed(c, q, r.snap) else End(q), h)
    case SurveyLatch => Next(SurveyLatched(q, r), h)
    case Market => Next(if r.Done? then Go(q, Reserve) else End(q), h)
    case Reserve => Next(if r.Done? then Go(q, ReserveCount) else End(q), h)
    case ReserveCount => ReservationCounted(p, q, d, h, r)
    case Preflight => Next(if r.Done? then Go(q, FinalSurvey) else Go(q, FailPc(r.Failed? && r.explicit)), h)
    case FinalSurvey => Next(FinallySurveyed(c, q, r), h)
    case FinalSurveyLatch => Next(Go(q, FailUpdate(Ambiguous)), h)
    case FinalMarket => Next(Go(q, if r.Done? then FinalLatchRead else FailUpdate(Ambiguous)), h)
    case FinalLatchRead => FinallyLatchRead(p, now, q, d, h, r)
    case Write => Next(if r.Answered? then WriteAnswered(q, r.answer) else End(q), h)
    case FailUpdate(to) => FailureUpdated(q, d, h, to, r)
    case FailCount(to) => Next(FailureCounted(q, to, r), h)
    case BadAckUpdate => Next(if r.Done? then Go(q, BadAckCount) else End(q), h)
    case BadAckCount => Next(if r.Done? then End(q) else End(Engage(q)), h)
    case AckUpdate => Next(Acknowledging(q, r, AckCount), h)
    case AckCount => Next(AckCounted(q, r), h)
    case Observe => Next(if r.Observed? then WriteObserved(q, r.obs) else End(q), h)
    case ObserveLatch(ok) => Next(ObservationLatched(q, ok, r), h)
    case FinalUpdate(ok) => Next(Acknowledging(q, r, FinalCount(ok)), h)
    case FinalCount(_) => Next(if r.Done? then End(q) else End(Engage(q)), h)
    case ClearLatchRead =>
      Next(if r.LatchIs? then Go(q.(task := Some(t.(firstLatched := r.latched, firstVersion := r.version))),
                                 ClearIntentRead)
           else Give(q), h)
    case ClearIntentRead =>
      Next(if r.RowsAre? && t.op.Clear? && r.rows == t.op.expected then Go(q, ClearPoll) else Give(q), h)
    case ClearPoll => Next(PollSeen(c, q, r), h)
    case ClearMark => Next(if r.Done? then Go(q, ClearRemaining) else Give(q), h)
    case ClearRemaining => Next(if r.RowsAre? && r.rows == map[] then Go(q, ClearLatch) else Give(q), h)
    case ClearLatch =>
      Next(if r.LatchIs? && (t.firstLatched || (!r.latched && r.version == t.firstVersion))
           then End(Disarm(q.(stop := false), false)) else Give(q), h)
  }

  /** Cancellation is not an `Exception`: only `finally` blocks run. */
  function Cancelled(q: Proc, d: Durable, h: Hist): Next
    requires q.task.Some?
  {
    var t := q.task.value;
    match t.pc
    case FailUpdate(to) => Next(End(if to.Ambiguous? then Engage(q) else q), CutRejection(h, d, t))
    case FailCount(to) => Next(End(if to.Ambiguous? then Engage(q) else q), CutRejection(h, d, t))
    case AckUpdate => Next(End(if t.op.Writer? && t.op.kind.Place? then Disarm(q, true) else q), h)
    case AckCount => Next(End(if t.op.Writer? && t.op.kind.Place? then Disarm(q, true) else q), h)
    case _ =>
      if t.op.Clear? && (t.pc.ClearMark? || t.pc.ClearRemaining? || t.pc.ClearLatch?)
      then Next(End(q), h.(clearCut := h.clearCut + t.op.expected.Keys)) else Next(End(q), h)
  }

  // ---------------------------------------------------------------- the step system

  datatype Event =
    | Begin(p: Pid, op: Op) | Effect(p: Pid, w: World) | Resume(p: Pid) | CancelTask(p: Pid)
    | Restart(p: Pid) | DisarmNow(p: Pid) | StopNow(p: Pid) | ExpireNow(p: Pid) | LatchNow | Tick(dt: nat)

  /** The advisory lock is given up when the operation that holds it is over. */
  function Unlock(d: Durable, p: Pid, q: Proc): Durable {
    if q.task.None? && d.lock == Some(p) then d.(lock := None) else d
  }

  function Put(s: State, p: Pid, n: Next): State {
    s.(procs := s.procs[p := n.q], d := Unlock(s.d, p, n.q), h := n.h)
  }

  function NewTask(op: Op): Task { Task(op, Acquire, None, None, [], false, 0) }

  /** Entry checks before the guard; an operation starts only when none is running. */
  function Started(q: Proc, now: int, op: Op): Proc {
    if op.Writer? && (op.kind.Place? || op.kind.Leverage?) && !ArmedFor(Expire(q, now), now)
    then RequireArmed(q, now)
    else if q.task.Some? then q
    else q.(task := Some(NewTask(op)))
  }

  function Step(c: Config, s: State, e: Event): State {
    match e
    case Tick(dt) => s.(now := s.now + dt)
    case LatchNow => s.(d := LatchEngaged(s.d))
    case Begin(p, op) => if p in s.procs then Put(s, p, Next(Started(s.procs[p], s.now, op), s.h)) else s
    case DisarmNow(p) => if p in s.procs then Put(s, p, Next(Disarm(s.procs[p], false), s.h)) else s
    case StopNow(p) => if p in s.procs then Put(s, p, Next(Engage(s.procs[p]), s.h)) else s
    case ExpireNow(p) => if p in s.procs then Put(s, p, Next(Expire(s.procs[p], s.now), s.h)) else s
    case Restart(p) => if p in s.procs then Put(s, p, Next(FRESH_PROC, s.h)) else s
    case CancelTask(p) =>
      if p in s.procs && s.procs[p].task.Some? then Put(s, p, Cancelled(s.procs[p], s.d, s.h)) else s
    case Resume(p) =>
      if p in s.procs && s.procs[p].task.Some? && s.procs[p].task.value.reply.Some?
      then Put(s, p, Continue(c, p, s.now, s.procs[p], s.d, s.h)) else s
    case Effect(p, w) =>
      if p in s.procs && s.procs[p].task.Some? && s.procs[p].task.value.reply.None? then
        var t := s.procs[p].task.value;
        var a := Remote(p, s.now, t, s.d, s.h, w);
        s.(procs := s.procs[p := s.procs[p].(task := Some(t.(reply := Some(a.reply))))], d := a.d, h := a.h)
      else s
  }

  function Run(c: Config, s: State, es: seq<Event>): State
    decreases |es|
  {
    if es == [] then s else Run(c, Step(c, s, es[0]), es[1..])
  }

  predicate Initial(s: State) {
    && (forall p <- s.procs :: s.procs[p] == FRESH_PROC)
    && s.d.lock.None? && s.d.intents == map[]
    && s.h == Hist(0, [], [], map[], map[], map[], {}, {})
  }
}
