/**
 On what evidence the live service arms itself and writes to the exchange.

 An observer stands beside the step system. It notes every answer that a running operation receives, and copies
 these notes whenever a process arms itself or an exchange write is issued. The theorems say what the notes
 contain in every run, in the fields of the answers themselves.
 */
module LiveAccounts {
  import opened Options
  import opened LiveProtocol

  // ---------------------------------------------------------------- the observer

  /** One answered await. */
  datatype Seen = Seen(pc: Pc, reply: Reply)

  /** A process arms itself: when, for how long, and after which answers. */
  datatype Arming = Arming(at: int, duration: nat, trail: seq<Seen>)

  /** An exchange write is issued: when, by whom, under which arm, and after which answers. */
  datatype Sending = Sending(at: int, pid: Pid, op: Op, arm: nat, trail: seq<Seen>)

  datatype Watch = Watch(trails: map<Pid, seq<Seen>>, armed: seq<Arming>, sent: seq<Sending>)

  const UNWATCHED := Watch(map[], [], [])

  function TrailOf(w: Watch, p: Pid): seq<Seen> { if p in w.trails then w.trails[p] else [] }

  predicate Answering(s: State, p: Pid) {
    p in s.procs && s.procs[p].task.Some? && s.procs[p].task.value.reply.None?
  }

  predicate Resuming(s: State, p: Pid) {
    p in s.procs && s.procs[p].task.Some? && s.procs[p].task.value.reply.Some?
  }

  function Noted(w: Watch, now: int, p: Pid, q: Proc, h: Hist, next: Hist): Watch
    requires q.task.Some?
  {
    var op := q.task.value.op;
    w.(armed := w.armed + (if next.arms > h.arms && op.Arm? then [Arming(now, op.duration, TrailOf(w, p))] else []),
       sent := w.sent + (if |next.writes| > |h.writes| then [Sending(now, p, op, q.arm, TrailOf(w, p))] else []))
  }

  /** What the observer notes of one step. */
  function Watched(c: Config, s: State, w: Watch, e: Event): Watch {
    match e
    case Begin(p, op) =>
      if p in s.procs && s.procs[p].task.None? then w.(trails := w.trails[p := []]) else w
    case Effect(p, o) =>
      if Answering(s, p) then
        var t := s.procs[p].task.value;
        w.(trails := w.trails[p := TrailOf(w, p) + [Seen(t.pc, Remote(p, s.now, t, s.d, s.h, o).reply)]])
      else w
    case Resume(p) =>
      if Resuming(s, p) then Noted(w, s.now, p, s.procs[p], s.h, Step(c, s, e).h) else w
    case _ => w
  }

  function WatchRun(c: Config, s: State, w: Watch, es: seq<Event>): Watch
    decreases |es|
  {
    if es == [] then w else WatchRun(c, Step(c, s, es[0]), Watched(c, s, w, es[0]), es[1..])
  }

  // ---------------------------------------------------------------- the order of the answers

  const ARMING: seq<Pc> := [Acquire, Survey, LatchRead, IntentRead]
  const PLACING: seq<Pc> :=
    [Acquire, LatchRead, IntentRead, Survey, Market, Reserve, ReserveCount, Preflight, FinalSurvey, FinalMarket,
     FinalLatchRead]
  const LEVERING: seq<Pc> := [Acquire, LatchRead, IntentRead, Survey, Reserve, ReserveCount, FinalLatchRead]
  const CANCELLING: seq<Pc> := [Acquire, Survey, Reserve, ReserveCount]
  const CLOSING_LATCHED: seq<Pc> := [Acquire, Survey, SurveyLatch, Reserve, ReserveCount]

  /** An account read that shows an open position without its exact protection. */
  predicate Exposed(x: Seen) { x.reply.Account? && x.reply.snap.positions > 0 && !x.reply.snap.exactlyProtected }

  /** The awaits of an operation up to its exchange write, or up to its arming. */
  function Path(op: Op, trail: seq<Seen>): seq<Pc> {
    match op
    case Arm(_) => ARMING
    case Clear(_) => [Acquire]
    case Writer(kind, _) =>
      match kind
      case Place => PLACING
      case Leverage => LEVERING
      case Cancel => CANCELLING
      case Close => if |trail| > 1 && Exposed(trail[1]) then CLOSING_LATCHED else CANCELLING
  }

  /** Is the await on the way to the operation's exchange write or arming? */
  predicate Station(op: Op, pc: Pc) {
    match op
    case Arm(_) => pc.Acquire? || pc.Survey? || pc.LatchRead? || pc.IntentRead?
    case Clear(_) => pc.Acquire?
    case Writer(kind, _) =>
      match kind
      case Place =>
        pc.Acquire? || pc.LatchRead? || pc.IntentRead? || pc.Survey? || pc.Market? || pc.Reserve?
        || pc.ReserveCount? || pc.Preflight? || pc.FinalSurvey? || pc.FinalMarket? || pc.FinalLatchRead?
      case Leverage =>
        pc.Acquire? || pc.LatchRead? || pc.IntentRead? || pc.Survey? || pc.Reserve? || pc.ReserveCount?
        || pc.FinalLatchRead?
      case Cancel => pc.Acquire? || pc.Survey? || pc.Reserve? || pc.ReserveCount?
      case Close => pc.Acquire? || pc.Survey? || pc.SurveyLatch? || pc.Reserve? || pc.ReserveCount?
  }

  /** The awaits that follow: stopping, writing and recording the outcome, or the steps of a clear. */
  predicate Beyond(pc: Pc) { Recording(pc) || Clearing(pc) }

  predicate Recording(pc: Pc) {
    || pc.SurveyLatch? || pc.FinalSurveyLatch? || pc.Write? || pc.FailUpdate? || pc.FailCount? || pc.BadAckUpdate?
    || pc.BadAckCount? || pc.AckUpdate? || pc.AckCount? || pc.Observe? || pc.ObserveLatch? || pc.FinalUpdate?
    || pc.FinalCount?
  }

  predicate Clearing(pc: Pc) {
    || pc.ClearLatchRead? || pc.ClearIntentRead? || pc.ClearPoll? || pc.ClearMark? || pc.ClearRemaining?
    || pc.ClearLatch?
  }

  predicate Bare(a: Snapshot) { a.capable && a.positions == 0 && a.orders == 0 && a.algos == 0 }

  /** The account an operation accepts. */
  predicate AccountGood(op: Op, a: Snapshot) {
    match op
    case Arm(_) => Bare(a)
    case Clear(_) => false
    case Writer(kind, _) =>
      match kind
      case Place => Bare(a)
      case Leverage => Bare(a)
      case Cancel => a.capable
      case Close => a.capable && a.instrumentExposed
  }

  /** The answer that lets an operation go on. */
  predicate Good(op: Op, x: Seen) {
    match x.pc
    case Acquire => x.reply == LockTaken
    case LatchRead => x.reply.LatchIs? && !x.reply.latched
    case FinalLatchRead => x.reply.LatchIs? && !x.reply.latched
    case IntentRead => x.reply == RowsAre(map[])
    case Survey => x.reply.Account? && (AccountGood(op, x.reply.snap) || (op.Writer? && op.kind.Close? && Exposed(x)))
    case FinalSurvey => x.reply.Account? && AccountGood(op, x.reply.snap)
    case _ => x.reply == Done
  }

  predicate AccountsGood(op: Op, trail: seq<Seen>) {
    forall j :: 0 <= j < |trail| && trail[j].reply.Account? ==> AccountGood(op, trail[j].reply.snap)
  }

  predicate Walked(op: Op, path: seq<Pc>, trail: seq<Seen>) {
    |trail| <= |path| && forall j :: 0 <= j < |trail| ==> trail[j].pc == path[j] && Good(op, trail[j])
  }

  /** An equity that has not lost the limit's share of the baseline. */
  predicate Bearable(c: Config, base: real, a: Snapshot) { base - a.equity < c.lossLimit * base }

  predicate AllBearable(c: Config, base: real, trail: seq<Seen>) {
    forall j :: 0 <= j < |trail| && trail[j].reply.Account? ==> Bearable(c, base, trail[j].reply.snap)
  }

  // ---------------------------------------------------------------- what the observer's notes contain

  /** An arm starts from four good answers, with a positive equity. */
  predicate GoodArming(x: Arming) {
    && |x.trail| == 4 && Walked(Arm(x.duration), ARMING, x.trail)
    && x.trail[1].reply.Account? && x.trail[1].reply.snap.equity > 0.0
  }

  function Base(x: Arming): real
    requires GoodArming(x)
  {
    x.trail[1].reply.snap.equity
  }

  predicate GoodArmings(armed: seq<Arming>) { forall i :: 0 <= i < |armed| ==> GoodArming(armed[i]) }

  /** An exchange write follows the whole path of its operation, in time and within the loss limit. */
  predicate Earned(c: Config, armed: seq<Arming>, x: Sending)
    requires GoodArmings(armed)
  {
    && x.op.Writer? && |x.trail| == |Path(x.op, x.trail)| && Walked(x.op, Path(x.op, x.trail), x.trail)
    && AccountsGood(x.op, x.trail)
    && (x.op.kind.Place? || x.op.kind.Leverage? ==>
          x.arm < |armed| && x.at < armed[x.arm].at + armed[x.arm].duration)
    && (x.op.kind.Place? ==> AllBearable(c, Base(armed[x.arm]), x.trail))
  }

  predicate CallIs(x: Call, y: Sending) {
    y.op == Writer(Place, x.key) && y.pid == x.pid && y.arm == x.arm
  }

  /** A running operation that is still on its path has nothing but good answers behind it. */
  predicate TaskWatched(c: Config, t: Task, baseline: Option<real>, trail: seq<Seen>) {
    && (t.reply.Some? ==> |trail| > 0 && trail[|trail| - 1] == Seen(t.pc, t.reply.value))
    && var past := if t.reply.Some? then trail[..|trail| - 1] else trail;
       if Station(t.op, t.pc) then OnItsWay(c, t, baseline, past) else Beyond(t.pc)
  }

  /** The account that the operation remembers is the one it read, and a close goes past it only when it is good. */
  predicate ReadsFit(op: Op, trail: seq<Seen>, pc: Pc, snap: Option<Snapshot>) {
    |trail| >= 2 ==>
      && (op.Arm? || (op.Writer? && op.kind.Close?) ==> trail[1].reply.Account? && snap == Some(trail[1].reply.snap))
      && (op.Writer? && op.kind.Close? && !pc.SurveyLatch? ==> AccountGood(op, trail[1].reply.snap))
  }

  predicate OnItsWay(c: Config, t: Task, baseline: Option<real>, past: seq<Seen>) {
    var path := Path(t.op, past);
    && |past| < |path| && path[|past|] == t.pc && Walked(t.op, path, past)
    && ReadsFit(t.op, past, t.pc, t.snap)
    && (t.op.Writer? && t.op.kind.Place? && baseline.Some? ==> AllBearable(c, baseline.value, past))
  }

  /** The arm of a process is the one noted under its number. */
  predicate ArmWatched(q: Proc, armed: seq<Arming>)
    requires GoodArmings(armed)
  {
    && (q.armedUntil.Some? <==> q.baseline.Some?)
    && (q.armedUntil.Some? ==>
          && q.arm < |armed| && q.baseline.value == Base(armed[q.arm])
          && q.armedUntil.value == armed[q.arm].at + armed[q.arm].duration)
  }

  predicate ProcWatched(c: Config, q: Proc, armed: seq<Arming>, trail: seq<Seen>)
    requires GoodArmings(armed)
  {
    ArmWatched(q, armed) && (q.task.Some? ==> TaskWatched(c, q.task.value, q.baseline, trail))
  }

  ghost predicate Noting(c: Config, h: Hist, w: Watch) {
    && |w.armed| == h.arms && GoodArmings(w.armed)
    && |w.sent| == |h.writes|
    && (forall k :: 0 <= k < |w.sent| ==> Earned(c, w.armed, w.sent[k]) && KeyOf(w.sent[k].op) == h.writes[k])
    && (forall i :: 0 <= i < |h.calls| ==> CallNoted(h.calls[i], w.sent))
  }

  ghost predicate CallNoted(x: Call, sent: seq<Sending>) { exists k :: 0 <= k < |sent| && CallIs(x, sent[k]) }

  ghost predicate Watching(c: Config, s: State, w: Watch) {
    Noting(c, s.h, w) && forall p :: p in s.procs ==> ProcWatched(c, s.procs[p], w.armed, TrailOf(w, p))
  }

  // ---------------------------------------------------------------- one continuation

  /** What a continuation may do to the arm. */
  predicate ArmStep(now: int, q: Proc, h: Hist, n: Next, trail: seq<Seen>)
    requires q.task.Some?
  {
    if n.h.arms == h.arms then
      (n.q.armedUntil == q.armedUntil && n.q.baseline == q.baseline && n.q.arm == q.arm)
      || (n.q.armedUntil.None? && n.q.baseline.None?)
    else
      var op := q.task.value.op;
      && n.h.arms == h.arms + 1 && op.Arm? && GoodArming(Arming(now, op.duration, trail)) && n.q.task.None?
      && n.q.arm == h.arms && n.q.armedUntil == Some(now + op.duration)
      && n.q.baseline == Some(Base(Arming(now, op.duration, trail)))
  }

  /** What a continuation may do to the exchange. */
  predicate WriteStep(c: Config, p: Pid, now: int, q: Proc, h: Hist, n: Next, trail: seq<Seen>)
    requires q.task.Some?
  {
    var op := q.task.value.op;
    if n.h.writes == h.writes then n.h.calls == h.calls
    else
      && n.h.writes == h.writes + [KeyOf(op)] && n.h.arms == h.arms && op.Writer?
      && |trail| == |Path(op, trail)| && Walked(op, Path(op, trail), trail) && AccountsGood(op, trail)
      && (op.kind.Place? || op.kind.Leverage? ==> q.armedUntil.Some? && now < q.armedUntil.value)
      && (op.kind.Place? ==> q.baseline.Some? ==> AllBearable(c, q.baseline.value, trail))
      && (n.h.calls == h.calls
          || (op.kind.Place? && |n.h.calls| == |h.calls| + 1 && n.h.calls[..|h.calls|] == h.calls
              && CallIs(n.h.calls[|h.calls|], Sending(now, p, op, q.arm, trail))))
  }

  predicate Continued(c: Config, p: Pid, now: int, q: Proc, h: Hist, n: Next, trail: seq<Seen>)
    requires q.task.Some?
  {
    && ArmStep(now, q, h, n, trail) && WriteStep(c, p, now, q, h, n, trail)
    && (n.q.task.Some? ==> n.q.task.value.reply.None? && TaskWatched(c, n.q.task.value, n.q.baseline, trail))
  }

  lemma LossMeans(c: Config, base: real, a: Snapshot)
    ensures base > 0.0 && !LossReached(c, base, a.equity) ==> Bearable(c, base, a)
  { }

  /** The arm is kept or given up. */
  predicate ArmKept(q: Proc, q': Proc) {
    || (q'.armedUntil == q.armedUntil && q'.baseline == q.baseline && q'.arm == q.arm)
    || (q'.armedUntil.None? && q'.baseline.None?)
  }

  predicate Quiet(h: Hist, h': Hist) { h'.arms == h.arms && h'.writes == h.writes && h'.calls == h.calls }

  predicate Off(q: Proc, op: Op) {
    q.task.Some? ==>
      && q.task.value.reply.None? && q.task.value.op == op
      && !Station(op, q.task.value.pc) && Beyond(q.task.value.pc)
  }

  lemma BeyondQuiet(c: Config, p: Pid, now: int, q: Proc, d: Durable, h: Hist)
    requires q.task.Some? && q.task.value.reply.Some? && Beyond(q.task.value.pc)
    ensures Quiet(h, Continue(c, p, now, q, d, h).h)
  { }

  lemma RecordingKeeps(c: Config, p: Pid, now: int, q: Proc, d: Durable, h: Hist)
    requires q.task.Some? && q.task.value.reply.Some? && Recording(q.task.value.pc)
    ensures ArmKept(q, Continue(c, p, now, q, d, h).q)
  { }

  lemma ClearingKeeps(c: Config, p: Pid, now: int, q: Proc, d: Durable, h: Hist)
    requires q.task.Some? && q.task.value.reply.Some? && Clearing(q.task.value.pc)
    ensures ArmKept(q, Continue(c, p, now, q, d, h).q)
  { }

  lemma RecordingStays(c: Config, p: Pid, now: int, q: Proc, d: Durable, h: Hist)
    requires q.task.Some? && q.task.value.reply.Some?
    requires !Station(q.task.value.op, q.task.value.pc) && Recording(q.task.value.pc)
    ensures var n := Continue(c, p, now, q, d, h).q;
      n.task.Some? ==> n.task.value.reply.None? && n.task.value.op == q.task.value.op && Recording(n.task.value.pc)
  { }

  lemma ClearingStays(c: Config, p: Pid, now: int, q: Proc, d: Durable, h: Hist)
    requires q.task.Some? && q.task.value.reply.Some? && Clearing(q.task.value.pc)
    ensures Off(Continue(c, p, now, q, d, h).q, q.task.value.op)
  { }

  lemma NoSurveyLatch(c: Config, p: Pid, now: int, q: Proc, d: Durable, h: Hist)
    requires q.task.Some? && q.task.value.reply.Some? && Recording(q.task.value.pc)
    ensures var n := Continue(c, p, now, q, d, h).q;
      n.task.Some? && Recording(n.task.value.pc) ==> !n.task.value.pc.SurveyLatch?
  { }

  /** An operation that has left its path does not return to it. */
  lemma BeyondStays(c: Config, p: Pid, now: int, q: Proc, d: Durable, h: Hist)
    requires q.task.Some? && q.task.value.reply.Some?
    requires !Station(q.task.value.op, q.task.value.pc) && Beyond(q.task.value.pc)
    ensures Off(Continue(c, p, now, q, d, h).q, q.task.value.op)
  {
    if Clearing(q.task.value.pc) { ClearingStays(c, p, now, q, d, h); }
    else {
      var n := Continue(c, p, now, q, d, h).q;
      RecordingStays(c, p, now, q, d, h);
      NoSurveyLatch(c, p, now, q, d, h);
      if n.task.Some? { NotAStation(q.task.value.op, n.task.value.pc); }
    }
  }

  lemma NotAStation(op: Op, pc: Pc)
    requires Recording(pc) && !pc.SurveyLatch?
    ensures !Station(op, pc)
  { }

  // ---------------------------------------------------------------- along the path

  ghost predicate Along(c: Config, q: Proc, past: seq<Seen>) {
    && q.task.Some? && q.task.value.reply.Some? && Station(q.task.value.op, q.task.value.pc)
    && OnItsWay(c, q.task.value, q.baseline, past)
  }

  function Last(q: Proc): Seen
    requires q.task.Some? && q.task.value.reply.Some?
  {
    Seen(q.task.value.pc, q.task.value.reply.value)
  }

  lemma PathGrows(op: Op, past: seq<Seen>, x: Seen)
    requires |past| < |Path(op, past)|
    ensures |past| < |Path(op, past + [x])|
    ensures forall j :: 0 <= j <= |past| ==> Path(op, past + [x])[j] == Path(op, past)[j]
  { }

  /** A good answer is one step further along the path. */
  lemma WalkedOn(op: Op, past: seq<Seen>, x: Seen)
    requires |past| < |Path(op, past)| && Walked(op, Path(op, past), past)
    requires Path(op, past)[|past|] == x.pc && Good(op, x)
    ensures Walked(op, Path(op, past + [x]), past + [x])
  {
    PathGrows(op, past, x);
  }

  lemma BearableOn(c: Config, base: real, past: seq<Seen>, x: Seen)
    requires AllBearable(c, base, past) && (x.reply.Account? ==> Bearable(c, base, x.reply.snap))
    ensures AllBearable(c, base, past + [x])
  { }

  /** The operation ends, or leaves its path. */
  lemma Leaves(c: Config, p: Pid, now: int, q: Proc, h: Hist, n: Next, trail: seq<Seen>)
    requires q.task.Some? && ArmKept(q, n.q) && Quiet(h, n.h) && Off(n.q, q.task.value.op)
    ensures Continued(c, p, now, q, h, n, trail)
  { }

  /** The next await of the same operation, with the account it has read. */
  predicate Moved(q: Proc, q': Proc, pc: Pc, snap: Option<Snapshot>)
    requires q.task.Some?
  {
    ArmKept(q, q') && q'.task == Some(q.task.value.(pc := pc, reply := None, snap := snap))
  }

  predicate Due(op: Op, trail: seq<Seen>, pc: Pc) {
    |trail| < |Path(op, trail)| && Path(op, trail)[|trail|] == pc
  }

  predicate LossFits(c: Config, q: Proc, q': Proc, op: Op, x: Seen) {
    op.Writer? && op.kind.Place? && q'.baseline.Some? && x.reply.Account? ==>
      q.baseline.Some? && Bearable(c, q.baseline.value, x.reply.snap)
  }

  /** A good answer, and the operation goes on to the await that is due. */
  lemma Onward(c: Config, p: Pid, now: int, q: Proc, h: Hist, n: Next, past: seq<Seen>, pc: Pc, snap: Option<Snapshot>)
    requires Along(c, q, past) && Quiet(h, n.h) && Moved(q, n.q, pc, snap) && Good(q.task.value.op, Last(q))
    requires Due(q.task.value.op, past + [Last(q)], pc) && Station(q.task.value.op, pc)
    requires ReadsFit(q.task.value.op, past + [Last(q)], pc, snap) && LossFits(c, q, n.q, q.task.value.op, Last(q))
    ensures Continued(c, p, now, q, h, n, past + [Last(q)])
  {
    var op := q.task.value.op;
    WalkedOn(op, past, Last(q));
    if op.Writer? && op.kind.Place? && n.q.baseline.Some? { BearableOn(c, q.baseline.value, past, Last(q)); }
  }

  lemma AlongEntry(c: Config, p: Pid, now: int, q: Proc, d: Durable, h: Hist, past: seq<Seen>)
    requires Along(c, q, past) && q.task.value.pc.Acquire?
    ensures Continued(c, p, now, q, h, Continue(c, p, now, q, d, h), past + [Last(q)])
  {
    var t, n := q.task.value, Continue(c, p, now, q, d, h);
    assert past == [];
    if t.reply.value.LockTaken? && !t.op.Clear? { Onward(c, p, now, q, h, n, past, n.q.task.value.pc, t.snap); }
    else { Leaves(c, p, now, q, h, n, past + [Last(q)]); }
  }

  lemma AlongLatch(c: Config, p: Pid, now: int, q: Proc, d: Durable, h: Hist, past: seq<Seen>)
    requires Along(c, q, past) && q.task.value.pc.LatchRead?
    ensures Continued(c, p, now, q, h, Continue(c, p, now, q, d, h), past + [Last(q)])
  {
    var r, n := q.task.value.reply.value, Continue(c, p, now, q, d, h);
    if r.LatchIs? && !r.latched { Onward(c, p, now, q, h, n, past, IntentRead, q.task.value.snap); }
    else { Leaves(c, p, now, q, h, n, past + [Last(q)]); }
  }

  lemma AlongIntents(c: Config, p: Pid, now: int, q: Proc, d: Durable, h: Hist, past: seq<Seen>)
    requires Along(c, q, past) && q.task.value.pc.IntentRead?
    ensures Continued(c, p, now, q, h, Continue(c, p, now, q, d, h), past + [Last(q)])
  {
    var t, n := q.task.value, Continue(c, p, now, q, d, h);
    if n.h.arms != h.arms { ArmedFrom(c, p, now, q, d, h, past); }
    else if n.q.task.Some? { Onward(c, p, now, q, h, n, past, Survey, t.snap); }
    else { Leaves(c, p, now, q, h, n, past + [Last(q)]); }
  }

  lemma ArmedFrom(c: Config, p: Pid, now: int, q: Proc, d: Durable, h: Hist, past: seq<Seen>)
    requires Along(c, q, past) && q.task.value.pc.IntentRead? && Continue(c, p, now, q, d, h).h.arms != h.arms
    ensures Continued(c, p, now, q, h, Continue(c, p, now, q, d, h), past + [Last(q)])
  {
    assert |past| == 3;
    WalkedOn(q.task.value.op, past, Last(q));
  }

  lemma AlongSurvey(c: Config, p: Pid, now: int, q: Proc, d: Durable, h: Hist, past: seq<Seen>)
    requires Along(c, q, past) && q.task.value.pc.Survey?
    ensures Continued(c, p, now, q, h, Continue(c, p, now, q, d, h), past + [Last(q)])
  {
    var t, n := q.task.value, Continue(c, p, now, q, d, h);
    if n.q.task.None? || (n.q.task.value.pc.SurveyLatch? && !(t.op.Writer? && t.op.kind.Close?)) {
      Leaves(c, p, now, q, h, n, past + [Last(q)]);
    } else if t.op.Arm? || t.op.kind.Place? {
      SurveyedClean(c, p, now, q, d, h, past);
    } else {
      SurveyedOther(c, p, now, q, d, h, past);
    }
  }

  lemma SurveyedClean(c: Config, p: Pid, now: int, q: Proc, d: Durable, h: Hist, past: seq<Seen>)
    requires Along(c, q, past) && q.task.value.pc.Survey? && Continue(c, p, now, q, d, h).q.task.Some?
    requires q.task.value.op.Arm? || (q.task.value.op.Writer? && q.task.value.op.kind.Place?)
    requires !Continue(c, p, now, q, d, h).q.task.value.pc.SurveyLatch?
    ensures Continued(c, p, now, q, h, Continue(c, p, now, q, d, h), past + [Last(q)])
  {
    var x, n := Last(q), Continue(c, p, now, q, d, h);
    if q.baseline.Some? { LossMeans(c, q.baseline.value, x.reply.snap); }
    Onward(c, p, now, q, h, n, past, n.q.task.value.pc, Some(x.reply.snap));
  }

  lemma SurveyedOther(c: Config, p: Pid, now: int, q: Proc, d: Durable, h: Hist, past: seq<Seen>)
    requires Along(c, q, past) && q.task.value.pc.Survey? && Continue(c, p, now, q, d, h).q.task.Some?
    requires q.task.value.op.Writer? && !q.task.value.op.kind.Place?
    requires q.task.value.op.kind.Close? || !Continue(c, p, now, q, d, h).q.task.value.pc.SurveyLatch?
    ensures Continued(c, p, now, q, h, Continue(c, p, now, q, d, h), past + [Last(q)])
  {
    var x, n := Last(q), Continue(c, p, now, q, d, h);
    if q.task.value.op.kind.Close? { SurveyedClose(c, p, now, q, d, h, past); }
    else { Onward(c, p, now, q, h, n, past, Reserve, Some(x.reply.snap)); }
  }

  lemma SurveyedClose(c: Config, p: Pid, now: int, q: Proc, d: Durable, h: Hist, past: seq<Seen>)
    requires Along(c, q, past) && q.task.value.pc.Survey? && q.task.value.op.Writer? && q.task.value.op.kind.Close?
    requires Continue(c, p, now, q, d, h).q.task.Some?
    ensures Continued(c, p, now, q, h, Continue(c, p, now, q, d, h), past + [Last(q)])
  {
    var x, n := Last(q), Continue(c, p, now, q, d, h);
    assert |past| == 1;
    Onward(c, p, now, q, h, n, past, n.q.task.value.pc, Some(x.reply.snap));
  }

  lemma AlongClosing(c: Config, p: Pid, now: int, q: Proc, d: Durable, h: Hist, past: seq<Seen>)
    requires Along(c, q, past) && q.task.value.pc.SurveyLatch?
    ensures Continued(c, p, now, q, h, Continue(c, p, now, q, d, h), past + [Last(q)])
  {
    var n := Continue(c, p, now, q, d, h);
    assert |past| == 2;
    if n.q.task.Some? { Onward(c, p, now, q, h, n, past, Reserve, q.task.value.snap); }
    else { Leaves(c, p, now, q, h, n, past + [Last(q)]); }
  }

  lemma AlongReserve(c: Config, p: Pid, now: int, q: Proc, d: Durable, h: Hist, past: seq<Seen>)
    requires Along(c, q, past) && (q.task.value.pc.Market? || q.task.value.pc.Reserve?)
    ensures Continued(c, p, now, q, h, Continue(c, p, now, q, d, h), past + [Last(q)])
  {
    var n := Continue(c, p, now, q, d, h);
    if q.task.value.reply.value.Done? { Onward(c, p, now, q, h, n, past, n.q.task.value.pc, q.task.value.snap); }
    else { Leaves(c, p, now, q, h, n, past + [Last(q)]); }
  }

  lemma AlongFinal(c: Config, p: Pid, now: int, q: Proc, d: Durable, h: Hist, past: seq<Seen>)
    requires Along(c, q, past) && (q.task.value.pc.Preflight? || q.task.value.pc.FinalMarket?)
    ensures Continued(c, p, now, q, h, Continue(c, p, now, q, d, h), past + [Last(q)])
  {
    var n := Continue(c, p, now, q, d, h);
    if q.task.value.reply.value.Done? { Onward(c, p, now, q, h, n, past, n.q.task.value.pc, q.task.value.snap); }
    else { Leaves(c, p, now, q, h, n, past + [Last(q)]); }
  }

  lemma AlongFinalSurvey(c: Config, p: Pid, now: int, q: Proc, d: Durable, h: Hist, past: seq<Seen>)
    requires Along(c, q, past) && q.task.value.pc.FinalSurvey?
    ensures Continued(c, p, now, q, h, Continue(c, p, now, q, d, h), past + [Last(q)])
  {
    var n := Continue(c, p, now, q, d, h);
    if n.q.task.value.pc.FinalMarket? {
      LossMeans(c, q.baseline.value, Last(q).reply.snap);
      Onward(c, p, now, q, h, n, past, FinalMarket, q.task.value.snap);
    } else { Leaves(c, p, now, q, h, n, past + [Last(q)]); }
  }

  // ---------------------------------------------------------------- the write itself

  lemma AllAccountsGood(op: Op, trail: seq<Seen>, pc: Pc, snap: Option<Snapshot>)
    requires op.Writer? && Walked(op, Path(op, trail), trail) && ReadsFit(op, trail, pc, snap) && !pc.SurveyLatch?
    ensures AccountsGood(op, trail)
  { }

  /** Whoever issues a write has come to the end of the path. */
  lemma Sends(c: Config, p: Pid, now: int, q: Proc, d: Durable, h: Hist, past: seq<Seen>, q': Proc)
    requires Along(c, q, past) && q.task.value.op.Writer? && Good(q.task.value.op, Last(q))
    requires |past| >= 2 && !q.task.value.pc.SurveyLatch? && !Last(q).reply.Account?
    requires |past| + 1 == |Path(q.task.value.op, past + [Last(q)])|
    requires q'.task == q.task && q'.arm == q.arm && ArmKept(q, q')
    requires var kind := q.task.value.op.kind;
      kind.Place? || kind.Leverage? ==> q.armedUntil.Some? && now < q.armedUntil.value
    ensures Continued(c, p, now, q, h, Issue(p, q', d, h), past + [Last(q)])
  {
    var t, trail := q.task.value, past + [Last(q)];
    WalkedOn(t.op, past, Last(q));
    AllAccountsGood(t.op, trail, t.pc, t.snap);
    if t.op.kind.Place? && q.baseline.Some? { BearableOn(c, q.baseline.value, past, Last(q)); }
    NotAStation(t.op, Write);
  }

  lemma AlongCount(c: Config, p: Pid, now: int, q: Proc, d: Durable, h: Hist, past: seq<Seen>)
    requires Along(c, q, past) && q.task.value.pc.ReserveCount?
    ensures Continued(c, p, now, q, h, Continue(c, p, now, q, d, h), past + [Last(q)])
  {
    var t, n := q.task.value, Continue(c, p, now, q, d, h);
    if !t.reply.value.Done? { Leaves(c, p, now, q, h, n, past + [Last(q)]); }
    else if t.op.kind.Place? || t.op.kind.Leverage? { Onward(c, p, now, q, h, n, past, n.q.task.value.pc, t.snap); }
    else { Sends(c, p, now, q, d, h, past, Disarm(q, false)); }
  }

  lemma AlongLast(c: Config, p: Pid, now: int, q: Proc, d: Durable, h: Hist, past: seq<Seen>)
    requires Along(c, q, past) && q.task.value.pc.FinalLatchRead?
    ensures Continued(c, p, now, q, h, Continue(c, p, now, q, d, h), past + [Last(q)])
  {
    var r, n := q.task.value.reply.value, Continue(c, p, now, q, d, h);
    if r.LatchIs? && !r.latched && ArmedFor(Expire(q, now), now) { Sends(c, p, now, q, d, h, past, q); }
    else { Leaves(c, p, now, q, h, n, past + [Last(q)]); }
  }

  /** Every continuation of a watched operation. */
  lemma ContinueWatched(c: Config, p: Pid, now: int, q: Proc, d: Durable, h: Hist, trail: seq<Seen>)
    requires q.task.Some? && q.task.value.reply.Some? && TaskWatched(c, q.task.value, q.baseline, trail)
    ensures Continued(c, p, now, q, h, Continue(c, p, now, q, d, h), trail)
  {
    var t, past := q.task.value, trail[..|trail| - 1];
    assert trail == past + [Last(q)];
    if !Station(t.op, t.pc) {
      BeyondQuiet(c, p, now, q, d, h);
      if Clearing(t.pc) { ClearingKeeps(c, p, now, q, d, h); } else { RecordingKeeps(c, p, now, q, d, h); }
      BeyondStays(c, p, now, q, d, h);
      Leaves(c, p, now, q, h, Continue(c, p, now, q, d, h), trail);
    } else {
      AlongStation(c, p, now, q, d, h, past);
    }
  }

  lemma AlongStation(c: Config, p: Pid, now: int, q: Proc, d: Durable, h: Hist, past: seq<Seen>)
    requires Along(c, q, past)
    ensures Continued(c, p, now, q, h, Continue(c, p, now, q, d, h), past + [Last(q)])
  {
    match q.task.value.pc
    case Acquire => AlongEntry(c, p, now, q, d, h, past);
    case LatchRead => AlongLatch(c, p, now, q, d, h, past);
    case IntentRead => AlongIntents(c, p, now, q, d, h, past);
    case Survey => AlongSurvey(c, p, now, q, d, h, past);
    case SurveyLatch => AlongClosing(c, p, now, q, d, h, past);
    case Market => AlongReserve(c, p, now, q, d, h, past);
    case Reserve => AlongReserve(c, p, now, q, d, h, past);
    case ReserveCount => AlongCount(c, p, now, q, d, h, past);
    case Preflight => AlongFinal(c, p, now, q, d, h, past);
    case FinalMarket => AlongFinal(c, p, now, q, d, h, past);
    case FinalSurvey => AlongFinalSurvey(c, p, now, q, d, h, past);
    case FinalLatchRead => AlongLast(c, p, now, q, d, h, past);
    case _ => assert false;
  }

  // ---------------------------------------------------------------- every step

  lemma ArmLonger(q: Proc, armed: seq<Arming>, x: Arming)
    requires GoodArmings(armed) && GoodArming(x) && ArmWatched(q, armed)
    ensures GoodArmings(armed + [x]) && ArmWatched(q, armed + [x])
  {
    if q.armedUntil.Some? { assert (armed + [x])[q.arm] == armed[q.arm]; }
  }

  /** A local change that keeps or gives up the arm, and keeps or ends the operation. */
  lemma LocalWatched(c: Config, q: Proc, q': Proc, armed: seq<Arming>, trail: seq<Seen>)
    requires GoodArmings(armed) && ProcWatched(c, q, armed, trail) && ArmKept(q, q')
    requires q'.task == q.task || q'.task.None?
    ensures ProcWatched(c, q', armed, trail)
  { }

  lemma StartedWatched(c: Config, q: Proc, now: int, op: Op, armed: seq<Arming>, trail: seq<Seen>)
    requires GoodArmings(armed) && ProcWatched(c, q, armed, trail)
    ensures ProcWatched(c, Started(q, now, op), armed, if q.task.None? then [] else trail)
  {
    var q' := Started(q, now, op);
    assert ArmKept(q, q');
    if q'.task == q.task { LocalWatched(c, q, q', armed, trail); }
  }

  lemma CancelledKeeps(q: Proc, d: Durable, h: Hist)
    requires q.task.Some?
    ensures ArmKept(q, Cancelled(q, d, h).q) && Quiet(h, Cancelled(q, d, h).h) && Cancelled(q, d, h).q.task.None?
  { }

  lemma RemoteQuiet(p: Pid, now: int, t: Task, d: Durable, h: Hist, o: World)
    ensures Quiet(h, Remote(p, now, t, d, h, o).h)
  { }

  lemma NotingQuiet(c: Config, h: Hist, h': Hist, w: Watch, w': Watch)
    requires Noting(c, h, w) && Quiet(h, h') && w'.armed == w.armed && w'.sent == w.sent
    ensures Noting(c, h', w')
  {
  }

  lemma AnsweredWatched(c: Config, q: Proc, armed: seq<Arming>, trail: seq<Seen>, r: Reply)
    requires GoodArmings(armed) && ProcWatched(c, q, armed, trail) && q.task.Some? && q.task.value.reply.None?
    ensures ProcWatched(c, q.(task := Some(q.task.value.(reply := Some(r)))), armed, trail + [Seen(q.task.value.pc, r)])
  {
    var t, x := q.task.value, Seen(q.task.value.pc, r);
    assert (trail + [x])[..|trail|] == trail;
  }

  /** One process moves, the notes about the others stay. */
  lemma OneMoves(c: Config, s: State, w: Watch, s': State, w': Watch, p: Pid)
    requires Watching(c, s, w) && Noting(c, s'.h, w') && p in s.procs && s'.procs.Keys == s.procs.Keys
    requires forall o :: o in s.procs && o != p ==> s'.procs[o] == s.procs[o] && TrailOf(w', o) == TrailOf(w, o)
    requires w'.armed == w.armed || (|w'.armed| == |w.armed| + 1 && w'.armed[..|w.armed|] == w.armed)
    requires ProcWatched(c, s'.procs[p], w'.armed, TrailOf(w', p))
    ensures Watching(c, s', w')
  {
    forall o | o in s'.procs ensures ProcWatched(c, s'.procs[o], w'.armed, TrailOf(w', o)) {
      if o != p {
        assert ProcWatched(c, s.procs[o], w.armed, TrailOf(w, o));
        if w'.armed != w.armed {
          assert w'.armed == w.armed + [w'.armed[|w.armed|]];
          ArmLonger(s.procs[o], w.armed, w'.armed[|w.armed|]);
        }
      }
    }
  }

  lemma PutWatched(c: Config, s: State, w: Watch, p: Pid, n: Next, w': Watch)
    requires Watching(c, s, w) && p in s.procs && Quiet(s.h, n.h) && w'.armed == w.armed && w'.sent == w.sent
    requires forall o :: o != p ==> TrailOf(w', o) == TrailOf(w, o)
    requires ProcWatched(c, n.q, w.armed, TrailOf(w', p))
    ensures Watching(c, Put(s, p, n), w')
  {
    NotingQuiet(c, s.h, n.h, w, w');
    OneMoves(c, s, w, Put(s, p, n), w', p);
  }

  lemma LocalStep(c: Config, s: State, w: Watch, p: Pid, q': Proc)
    requires Watching(c, s, w) && p in s.procs && ArmKept(s.procs[p], q')
    requires q'.task == s.procs[p].task || q'.task.None?
    ensures Watching(c, Put(s, p, Next(q', s.h)), w)
  {
    assert ProcWatched(c, s.procs[p], w.armed, TrailOf(w, p));
    LocalWatched(c, s.procs[p], q', w.armed, TrailOf(w, p));
    PutWatched(c, s, w, p, Next(q', s.h), w);
  }

  lemma BeginStep(c: Config, s: State, w: Watch, p: Pid, op: Op)
    requires Watching(c, s, w) && p in s.procs
    ensures Watching(c, Step(c, s, Begin(p, op)), Watched(c, s, w, Begin(p, op)))
  {
    assert ProcWatched(c, s.procs[p], w.armed, TrailOf(w, p));
    StartedWatched(c, s.procs[p], s.now, op, w.armed, TrailOf(w, p));
    PutWatched(c, s, w, p, Next(Started(s.procs[p], s.now, op), s.h), Watched(c, s, w, Begin(p, op)));
  }

  lemma EffectStep(c: Config, s: State, w: Watch, p: Pid, o: World)
    requires Watching(c, s, w) && Answering(s, p)
    ensures Watching(c, Step(c, s, Effect(p, o)), Watched(c, s, w, Effect(p, o)))
  {
    var t, w' := s.procs[p].task.value, Watched(c, s, w, Effect(p, o));
    var a := Remote(p, s.now, t, s.d, s.h, o);
    assert ProcWatched(c, s.procs[p], w.armed, TrailOf(w, p));
    RemoteQuiet(p, s.now, t, s.d, s.h, o);
    NotingQuiet(c, s.h, a.h, w, w');
    AnsweredWatched(c, s.procs[p], w.armed, TrailOf(w, p), a.reply);
    OneMoves(c, s, w, Step(c, s, Effect(p, o)), w', p);
  }

  lemma EarnedLonger(c: Config, armed: seq<Arming>, x: Arming, y: Sending)
    requires GoodArmings(armed) && GoodArming(x) && Earned(c, armed, y)
    ensures GoodArmings(armed + [x]) && Earned(c, armed + [x], y)
  { }

  lemma NotingArmed(c: Config, h: Hist, h': Hist, w: Watch, x: Arming)
    requires Noting(c, h, w) && GoodArming(x) && h'.arms == h.arms + 1 && h'.writes == h.writes && h'.calls == h.calls
    ensures Noting(c, h', w.(armed := w.armed + [x]))
  {
    var w' := w.(armed := w.armed + [x]);
    assert GoodArmings(w'.armed);
    forall k | 0 <= k < |w.sent| ensures Earned(c, w'.armed, w.sent[k]) {
      EarnedLonger(c, w.armed, x, w.sent[k]);
    }
  }

  lemma CallsNoted(h: Hist, h': Hist, sent: seq<Sending>, y: Sending)
    requires forall i :: 0 <= i < |h.calls| ==> CallNoted(h.calls[i], sent)
    requires h'.calls == h.calls
      || (|h'.calls| == |h.calls| + 1 && h'.calls[..|h.calls|] == h.calls && CallIs(h'.calls[|h.calls|], y))
    ensures forall i :: 0 <= i < |h'.calls| ==> CallNoted(h'.calls[i], sent + [y])
  {
    forall i | 0 <= i < |h'.calls| ensures CallNoted(h'.calls[i], sent + [y]) {
      if i < |h.calls| {
        assert h'.calls[i] == h.calls[i];
        var k :| 0 <= k < |sent| && CallIs(h.calls[i], sent[k]);
        assert CallIs(h'.calls[i], (sent + [y])[k]);
      } else {
        assert CallIs(h'.calls[i], (sent + [y])[|sent|]);
      }
    }
  }

  lemma NotingSent(c: Config, h: Hist, h': Hist, w: Watch, y: Sending)
    requires Noting(c, h, w) && Earned(c, w.armed, y) && h'.arms == h.arms && h'.writes == h.writes + [KeyOf(y.op)]
    requires h'.calls == h.calls
      || (|h'.calls| == |h.calls| + 1 && h'.calls[..|h.calls|] == h.calls && CallIs(h'.calls[|h.calls|], y))
    ensures Noting(c, h', w.(sent := w.sent + [y]))
  {
    CallsNoted(h, h', w.sent, y);
  }

  lemma ResumeStep(c: Config, s: State, w: Watch, p: Pid)
    requires Watching(c, s, w) && Resuming(s, p)
    ensures Watching(c, Step(c, s, Resume(p)), Watched(c, s, w, Resume(p)))
  {
    var q, trail := s.procs[p], TrailOf(w, p);
    assert ProcWatched(c, q, w.armed, trail);
    var n := Continue(c, p, s.now, q, s.d, s.h);
    ContinueWatched(c, p, s.now, q, s.d, s.h, trail);
    NotedKeeps(c, w, s.now, p, q, s.h, n);
    OneMoves(c, s, w, Step(c, s, Resume(p)), Noted(w, s.now, p, q, s.h, n.h), p);
  }

  lemma NotedKeeps(c: Config, w: Watch, now: int, p: Pid, q: Proc, h: Hist, n: Next)
    requires Noting(c, h, w) && q.task.Some? && ProcWatched(c, q, w.armed, TrailOf(w, p))
    requires Continued(c, p, now, q, h, n, TrailOf(w, p))
    ensures var w' := Noted(w, now, p, q, h, n.h);
      && Noting(c, n.h, w') && ProcWatched(c, n.q, w'.armed, TrailOf(w, p))
      && (w'.armed == w.armed || (|w'.armed| == |w.armed| + 1 && w'.armed[..|w.armed|] == w.armed))
  {
    var op, trail, w' := q.task.value.op, TrailOf(w, p), Noted(w, now, p, q, h, n.h);
    if n.h.arms != h.arms {
      var x := Arming(now, op.duration, trail);
      assert w' == w.(armed := w.armed + [x]);
      NotingArmed(c, h, n.h, w, x);
    } else if n.h.writes != h.writes {
      var y := Sending(now, p, op, q.arm, trail);
      assert w' == w.(sent := w.sent + [y]);
      NotingSent(c, h, n.h, w, y);
    } else {
      assert w' == w;
      NotingQuiet(c, h, n.h, w, w);
    }
  }

  lemma StepWatched(c: Config, s: State, w: Watch, e: Event)
    requires Watching(c, s, w)
    ensures Watching(c, Step(c, s, e), Watched(c, s, w, e))
  {
    match e
    case Tick(_) =>
    case LatchNow =>
    case Begin(p, op) => if p in s.procs { BeginStep(c, s, w, p, op); }
    case Effect(p, o) => if Answering(s, p) { EffectStep(c, s, w, p, o); }
    case Resume(p) => if Resuming(s, p) { ResumeStep(c, s, w, p); }
    case CancelTask(p) => if p in s.procs && s.procs[p].task.Some? { CancelStep(c, s, w, p); }
    case Restart(p) => if p in s.procs { LocalStep(c, s, w, p, FRESH_PROC); }
    case DisarmNow(p) => if p in s.procs { LocalStep(c, s, w, p, Disarm(s.procs[p], false)); }
    case StopNow(p) => if p in s.procs { LocalStep(c, s, w, p, Engage(s.procs[p])); }
    case ExpireNow(p) => if p in s.procs { LocalStep(c, s, w, p, Expire(s.procs[p], s.now)); }
  }

  lemma CancelStep(c: Config, s: State, w: Watch, p: Pid)
    requires Watching(c, s, w) && p in s.procs && s.procs[p].task.Some?
    ensures Watching(c, Step(c, s, CancelTask(p)), w)
  {
    var q, n := s.procs[p], Cancelled(s.procs[p], s.d, s.h);
    CancelledKeeps(q, s.d, s.h);
    assert ProcWatched(c, q, w.armed, TrailOf(w, p));
    LocalWatched(c, q, n.q, w.armed, TrailOf(w, p));
    PutWatched(c, s, w, p, n, w);
  }

  lemma {:induction false} RunWatched(c: Config, s: State, w: Watch, es: seq<Event>)
    requires Watching(c, s, w)
    ensures Watching(c, Run(c, s, es), WatchRun(c, s, w, es))
    decreases |es|
  {
    if es != [] {
      StepWatched(c, s, w, es[0]);
      RunWatched(c, Step(c, s, es[0]), Watched(c, s, w, es[0]), es[1..]);
    }
  }

  // ---------------------------------------------------------------- every run

  lemma Observed(c: Config, s0: State, es: seq<Event>)
    requires Initial(s0)
    ensures Watching(c, Run(c, s0, es), WatchRun(c, s0, UNWATCHED, es))
  {
    RunWatched(c, s0, UNWATCHED, es);
  }

  /** The answers behind an arm: the guard, a clean account with equity, a clear latch, no unresolved intent. */
  predicate ArmingTrail(x: seq<Seen>, a: Snapshot) {
    && |x| == 4 && x[0] == Seen(Acquire, LockTaken) && x[1] == Seen(Survey, Account(a))
    && x[2].pc == LatchRead && x[2].reply.LatchIs? && !x[2].reply.latched && x[3] == Seen(IntentRead, RowsAre(map[]))
  }

  /**
   In every run, every arm starts from an account that may trade and holds no position, no order and no algo
   order, with positive equity, a clear latch and no unresolved intent.
   */
  lemma ArmsOnCleanAccounts(c: Config, s0: State, es: seq<Event>, k: nat) returns (a: Snapshot)
    requires Initial(s0) && k < Run(c, s0, es).h.arms
    ensures var armed := WatchRun(c, s0, UNWATCHED, es).armed; k < |armed| && ArmingTrail(armed[k].trail, a)
    ensures a.capable && a.positions == 0 && a.orders == 0 && a.algos == 0 && a.equity > 0.0
  {
    Observed(c, s0, es);
    a := ArmingIsGood(WatchRun(c, s0, UNWATCHED, es).armed, k);
  }

  /** The eleven answers behind an order, in their order: up to the reservation, and up to the call. */
  predicate OrderTrail(x: seq<Seen>, a: Snapshot, b: Snapshot) { |x| == 11 && EarlyTrail(x, a) && LateTrail(x, b) }

  predicate EarlyTrail(x: seq<Seen>, a: Snapshot)
    requires |x| == 11
  {
    && x[0] == Seen(Acquire, LockTaken)
    && x[1].pc == LatchRead && x[1].reply.LatchIs? && !x[1].reply.latched && x[2] == Seen(IntentRead, RowsAre(map[]))
    && x[3] == Seen(Survey, Account(a)) && x[4] == Seen(Market, Done) && x[5] == Seen(Reserve, Done)
  }

  predicate LateTrail(x: seq<Seen>, b: Snapshot)
    requires |x| == 11
  {
    && x[6] == Seen(ReserveCount, Done) && x[7] == Seen(Preflight, Done) && x[8] == Seen(FinalSurvey, Account(b))
    && x[9] == Seen(FinalMarket, Done) && x[10].pc == FinalLatchRead && x[10].reply.LatchIs? && !x[10].reply.latched
  }

  predicate OrderPcs(x: seq<Seen>) {
    && |x| == 11 && x[0].pc == Acquire && x[1].pc == LatchRead && x[2].pc == IntentRead && x[3].pc == Survey
    && x[4].pc == Market && x[5].pc == Reserve && x[6].pc == ReserveCount && x[7].pc == Preflight
    && x[8].pc == FinalSurvey && x[9].pc == FinalMarket && x[10].pc == FinalLatchRead
  }

  predicate EachGood(op: Op, x: seq<Seen>) { forall j :: 0 <= j < |x| ==> Good(op, x[j]) }

  lemma OrderWalked(op: Op, x: seq<Seen>)
    requires |x| == 11 && Walked(op, PLACING, x)
    ensures OrderPcs(x) && EachGood(op, x)
  { }

  lemma EarlyPart(op: Op, x: seq<Seen>)
    requires op.Writer? && op.kind.Place? && OrderPcs(x) && EachGood(op, x)
    ensures x[3].reply.Account? && EarlyTrail(x, x[3].reply.snap) && Bare(x[3].reply.snap)
  { }

  lemma LatePart(op: Op, x: seq<Seen>)
    requires op.Writer? && op.kind.Place? && OrderPcs(x) && EachGood(op, x)
    ensures x[8].reply.Account? && LateTrail(x, x[8].reply.snap) && Bare(x[8].reply.snap)
  { }

  /** What stands behind one order call. */
  predicate OrderEarned(c: Config, armed: seq<Arming>, y: Sending, base: Snapshot, a: Snapshot, b: Snapshot) {
    && y.arm < |armed| && ArmingTrail(armed[y.arm].trail, base) && OrderTrail(y.trail, a, b)
    && y.at < armed[y.arm].at + armed[y.arm].duration
    && a.capable && a.positions == 0 && a.orders == 0 && a.algos == 0
    && b.capable && b.positions == 0 && b.orders == 0 && b.algos == 0 && base.equity > 0.0
    && base.equity - a.equity < c.lossLimit * base.equity && base.equity - b.equity < c.lossLimit * base.equity
  }

  lemma BothParts(op: Op, x: seq<Seen>)
    requires op.Writer? && op.kind.Place? && |x| == 11 && Walked(op, PLACING, x)
    ensures x[3].reply.Account? && x[8].reply.Account? && OrderTrail(x, x[3].reply.snap, x[8].reply.snap)
    ensures Bare(x[3].reply.snap) && Bare(x[8].reply.snap)
  {
    OrderWalked(op, x);
    EarlyPart(op, x);
    LatePart(op, x);
  }

  lemma Bearing(c: Config, base: real, x: seq<Seen>, j: nat)
    requires j < |x| && x[j].reply.Account? && AllBearable(c, base, x)
    ensures base - x[j].reply.snap.equity < c.lossLimit * base
  {
    assert Bearable(c, base, x[j].reply.snap);
  }

  lemma OrderIsEarned(c: Config, armed: seq<Arming>, y: Sending) returns (base: Snapshot, a: Snapshot, b: Snapshot)
    requires GoodArmings(armed) && Earned(c, armed, y) && y.op.kind.Place?
    ensures OrderEarned(c, armed, y, base, a, b)
  {
    BothParts(y.op, y.trail);
    base := ArmingIsGood(armed, y.arm);
    a, b := y.trail[3].reply.snap, y.trail[8].reply.snap;
    Bearing(c, base.equity, y.trail, 3);
    Bearing(c, base.equity, y.trail, 8);
  }

  lemma ArmingIsGood(armed: seq<Arming>, k: nat) returns (a: Snapshot)
    requires GoodArmings(armed) && k < |armed|
    ensures ArmingTrail(armed[k].trail, a) && Bare(a) && a.equity > 0.0
    ensures GoodArming(armed[k]) && Base(armed[k]) == a.equity
  {
    assert GoodArming(armed[k]);
    a := armed[k].trail[1].reply.snap;
  }

  /**
   In every run, every call of the order endpoint has exactly these eleven answers of its own operation behind
   it. Both account reads show a capable account without position, order or algo order, whose loss against the
   equity that the arm started from is below the limit, and the call falls into the time of that arm.
   */
  lemma OrdersOnCleanAccounts(c: Config, s0: State, es: seq<Event>, i: nat)
    returns (y: Sending, base: Snapshot, a: Snapshot, b: Snapshot)
    requires Initial(s0) && i < |Run(c, s0, es).h.calls|
    ensures var x, w := Run(c, s0, es).h.calls[i], WatchRun(c, s0, UNWATCHED, es);
      && y in w.sent && y.pid == x.pid && y.arm == x.arm && y.op == Writer(Place, x.key)
      && OrderEarned(c, w.armed, y, base, a, b)
  {
    Observed(c, s0, es);
    var x, w := Run(c, s0, es).h.calls[i], WatchRun(c, s0, UNWATCHED, es);
    assert CallNoted(x, w.sent);
    var k :| 0 <= k < |w.sent| && CallIs(x, w.sent[k]);
    y := w.sent[k];
    assert Earned(c, w.armed, w.sent[k]);
    base, a, b := OrderIsEarned(c, w.armed, y);
  }

  /** The answers behind each kind of exchange write; `a` is the first account read. */
  predicate WriteTrail(kind: Kind, x: seq<Seen>, a: Snapshot) {
    match kind
    case Place => |x| == 11 && x[8].reply.Account? && OrderTrail(x, a, x[8].reply.snap)
    case Leverage =>
      && |x| == 7 && x[0] == Seen(Acquire, LockTaken)
      && x[1].pc == LatchRead && x[1].reply.LatchIs? && !x[1].reply.latched && x[2] == Seen(IntentRead, RowsAre(map[]))
      && x[3] == Seen(Survey, Account(a)) && x[4] == Seen(Reserve, Done) && x[5] == Seen(ReserveCount, Done)
      && x[6].pc == FinalLatchRead && x[6].reply.LatchIs? && !x[6].reply.latched
      && a.positions == 0 && a.orders == 0 && a.algos == 0
    case Cancel =>
      x == [Seen(Acquire, LockTaken), Seen(Survey, Account(a)), Seen(Reserve, Done), Seen(ReserveCount, Done)]
    case Close =>
      && a.instrumentExposed
      && x == [Seen(Acquire, LockTaken), Seen(Survey, Account(a))]
              + (if a.positions > 0 && !a.exactlyProtected then [Seen(SurveyLatch, Done)] else [])
              + [Seen(Reserve, Done), Seen(ReserveCount, Done)]
  }

  predicate LeveragePcs(x: seq<Seen>) {
    && |x| == 7 && x[0].pc == Acquire && x[1].pc == LatchRead && x[2].pc == IntentRead && x[3].pc == Survey
    && x[4].pc == Reserve && x[5].pc == ReserveCount && x[6].pc == FinalLatchRead
  }

  lemma LeverageWalked(op: Op, x: seq<Seen>)
    requires |x| == 7 && Walked(op, LEVERING, x)
    ensures LeveragePcs(x) && EachGood(op, x)
  { }

  lemma LeverageTrail(op: Op, x: seq<Seen>)
    requires op.Writer? && op.kind.Leverage? && LeveragePcs(x) && EachGood(op, x)
    ensures x[3].reply.Account? && WriteTrail(Leverage, x, x[3].reply.snap) && x[3].reply.snap.capable
  { }

  lemma CancelTrail(op: Op, x: seq<Seen>)
    requires op.Writer? && op.kind.Cancel? && |x| == 4 && Walked(op, CANCELLING, x)
    ensures x[1].reply.Account? && WriteTrail(Cancel, x, x[1].reply.snap) && x[1].reply.snap.capable
  {
    assert forall j :: 0 <= j < 4 ==> x[j].pc == CANCELLING[j] && Good(op, x[j]);
  }

  lemma CloseTrail(op: Op, x: seq<Seen>)
    requires op.Writer? && op.kind.Close? && |x| == |Path(op, x)| && Walked(op, Path(op, x), x) && AccountsGood(op, x)
    ensures x[1].reply.Account? && WriteTrail(Close, x, x[1].reply.snap) && x[1].reply.snap.capable
  {
    assert forall j :: 0 <= j < |x| ==> x[j].pc == Path(op, x)[j] && Good(op, x[j]);
    var a := x[1].reply.snap;
    if a.positions > 0 && !a.exactlyProtected {
      assert x == [x[0], x[1], x[2], x[3], x[4]];
    } else {
      assert x == [x[0], x[1], x[2], x[3]];
    }
  }

  /**
   In every run, every exchange write of any kind has exactly the answers of its kind behind it, from a capable
   account; an order or a leverage change falls into the time of its arm.
   */
  lemma WritesOnReadAccounts(c: Config, s0: State, es: seq<Event>, k: nat) returns (y: Sending, a: Snapshot)
    requires Initial(s0) && k < |Run(c, s0, es).h.writes|
    ensures var w := WatchRun(c, s0, UNWATCHED, es);
      && k < |w.sent| && y == w.sent[k] && y.op.Writer? && y.op.key == Run(c, s0, es).h.writes[k]
      && WriteTrail(y.op.kind, y.trail, a) && a.capable
      && (y.op.kind == Place || y.op.kind == Leverage ==>
            y.arm < |w.armed| && y.at < w.armed[y.arm].at + w.armed[y.arm].duration)
  {
    Observed(c, s0, es);
    var w := WatchRun(c, s0, UNWATCHED, es);
    y := w.sent[k];
    assert Earned(c, w.armed, y);
    match y.op.kind
    case Place =>
      BothParts(y.op, y.trail);
      a := y.trail[3].reply.snap;
    case Leverage =>
      LeverageWalked(y.op, y.trail);
      LeverageTrail(y.op, y.trail);
      a := y.trail[3].reply.snap;
    case Cancel => CancelTrail(y.op, y.trail); a := y.trail[1].reply.snap;
    case Close => CloseTrail(y.op, y.trail); a := y.trail[1].reply.snap;
  }

  // ---------------------------------------------------------------- what a read decides

  /** An account read of an order operation, before the reservation or before the call. */
  predicate Reads(q: Proc, a: Snapshot) {
    && q.task.Some? && q.task.value.op.Writer? && q.task.value.op.kind == Place
    && (q.task.value.pc == Survey || q.task.value.pc == FinalSurvey) && q.task.value.reply == Some(Account(a))
  }

  predicate LostTooMuch(c: Config, q: Proc, a: Snapshot) {
    && a.capable && a.positions == 0 && a.orders == 0 && a.algos == 0
    && q.baseline.Some? && q.baseline.value > 0.0 && q.baseline.value - a.equity >= c.lossLimit * q.baseline.value
  }

  predicate Fine(c: Config, q: Proc, a: Snapshot) {
    && a.capable && a.positions == 0 && a.orders == 0 && a.algos == 0
    && q.baseline.Some? && q.baseline.value > 0.0 && q.baseline.value - a.equity < c.lossLimit * q.baseline.value
  }

  /**
   What the account read of an order decides, exactly: it goes on from a fine account, stops and disarms the
   process and turns to the latch on an unprotected position or on a loss at or past the limit, and gives up
   on everything else.
   */
  lemma ReadDecides(c: Config, p: Pid, now: int, q: Proc, d: Durable, h: Hist, a: Snapshot)
    requires c.lossLimit > 0.0 && Reads(q, a)
    ensures var q' := Continue(c, p, now, q, d, h).q; var first := q.task.value.pc == Survey;
      var stops := (a.positions > 0 && !a.exactlyProtected) || LostTooMuch(c, q, a);
      && (Fine(c, q, a) <==> q'.task.Some? && q'.task.value.pc == if first then Market else FinalMarket)
      && (Fine(c, q, a) ==> q'.stop == q.stop && q'.armedUntil == q.armedUntil && q'.baseline == q.baseline)
      && (stops <==> q'.task.Some? && q'.task.value.pc == if first then SurveyLatch else FinalSurveyLatch)
      && (stops ==> q'.stop && q'.armedUntil.None? && q'.baseline.None?)
      && (!stops && !Fine(c, q, a) ==> q'.stop == q.stop && q'.armedUntil == q.armedUntil)
      && (!stops && !Fine(c, q, a) ==>
            if first then q'.task.None? else q'.task.Some? && q'.task.value.pc == FailUpdate(Ambiguous))
  {
    if q.baseline.Some? && q.baseline.value > 0.0 { StrictlyPositive(c.lossLimit, q.baseline.value); }
  }

  lemma StrictlyPositive(a: real, b: real)
    requires a > 0.0 && b > 0.0
    ensures a * b > 0.0
  { }

  /**
   A read at or past the limit, or of an unprotected position, ends stopped, disarmed and, once the latch is
   written, latched; nothing is sent.
   */
  lemma BadReadStopsAndLatches(c: Config, s: State, p: Pid, a: Snapshot, o: World)
    requires c.lossLimit > 0.0 && p in s.procs && Reads(s.procs[p], a)
    requires (a.positions > 0 && !a.exactlyProtected) || LostTooMuch(c, s.procs[p], a)
    ensures var s2 := Step(c, Step(c, s, Resume(p)), Effect(p, o));
      && p in s2.procs && s2.procs[p].stop && s2.procs[p].armedUntil.None? && s2.procs[p].baseline.None?
      && s2.h.writes == s.h.writes && s2.h.calls == s.h.calls
      && (!o.fault.Before? ==> s2.d.latched && s2.d.version == s.d.version + 1)
  {
    var q := s.procs[p];
    var n := Continue(c, p, s.now, q, s.d, s.h);
    ReadDecides(c, p, s.now, q, s.d, s.h, a);
    ReadKeeps(c, p, s.now, q, s.d, s.h, a);
    LatchWritten(p, s.now, n.q.task.value, s.d, s.h, o);
    assert Step(c, s, Resume(p)) == s.(procs := s.procs[p := n.q]);
  }

  lemma ReadKeeps(c: Config, p: Pid, now: int, q: Proc, d: Durable, h: Hist, a: Snapshot)
    requires Reads(q, a)
    ensures var n := Continue(c, p, now, q, d, h); n.h == h && (n.q.task.Some? ==> n.q.task.value.reply.None?)
  { }

  lemma LatchWritten(p: Pid, now: int, t: Task, d: Durable, h: Hist, o: World)
    requires t.pc == SurveyLatch || t.pc == FinalSurveyLatch
    ensures var r := Remote(p, now, t, d, h, o);
      r.h == h && (!o.fault.Before? ==> r.d.latched && r.d.version == d.version + 1)
  { }

  // ---------------------------------------------------------------- what ends an arm

  predicate Disarmed(q: Proc) { q.armedUntil == None && q.baseline == None && q.submissions == 0 }

  /** The arm of a process ends exactly at its time, at once on request, and with every stop. */
  lemma ArmsEnd(c: Config, s: State, p: Pid)
    requires p in s.procs
    ensures var q, q' := s.procs[p], Step(c, s, ExpireNow(p)).procs[p];
      if q.armedUntil.Some? && q.armedUntil.value <= s.now then Disarmed(q') && q'.stop == q.stop else q' == q
    ensures var q, q' := s.procs[p], Step(c, s, DisarmNow(p)).procs[p];
      Disarmed(q') && q'.stop == q.stop && q'.task == q.task
    ensures var q, q' := s.procs[p], Step(c, s, StopNow(p)).procs[p];
      q'.stop && q'.armedUntil == None && q'.baseline == None && q'.task == q.task
  { }
}
