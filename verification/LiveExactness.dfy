/**
 Exactly when one arm yields one order call.

 The service documents one submission per arm. The step system shows that this fails in one family
 of runs, and this module proves both sides: without a cut-off recording (and without a second
 process) it holds in every run, and a process that is still armed after its earlier order stopped
 blocking can always call the order endpoint again.
 */
module LiveExactness {
  import opened Options
  import opened LiveProtocol
  import opened LiveInvariant
  import opened LiveResume
  import opened LiveSafety

  /** No task is cancelled and no committed database write loses its answer. */
  predicate Gentle(e: Event) {
    !e.CancelTask? && (e.Effect? ==> !e.w.fault.After?)
  }

  predicate Unrecorded(t: Task, m: Intents) {
    t.op.Writer? && t.pc.FailUpdate? && t.reply != Some(Done) ==> t.op.key in m && m[t.op.key].status.Reserved?
  }

  ghost predicate Calm(s: State, p: Pid) {
    && s.procs.Keys == {p} && s.h.rejectionCut == {} && s.h.clearCut == {}
    && (forall k :: k in s.h.cleared ==> s.h.cleared[k].who == p)
    && (forall i :: 0 <= i < |s.h.calls| ==> s.h.calls[i].pid == p)
    && (s.procs[p].task.Some? ==> Unrecorded(s.procs[p].task.value, s.d.intents))
  }

  lemma ResumeCalm(c: Config, s: State, p: Pid)
    requires ValidConfig(c) && Inv(c, s) && Calm(s, p) && s.procs[p].task.Some? && s.procs[p].task.value.reply.Some?
    ensures Calm(Step(c, s, Resume(p)), p)
  {
    var q := s.procs[p];
    assert ProcInv(c, p, q, s.d, s.h);
    var n := Continue(c, p, s.now, q, s.d, s.h);
    ContinueCalm(c, p, s.now, q, s.d, s.h);
  }

  lemma ContinueCalm(c: Config, p: Pid, now: int, q: Proc, d: Durable, h: Hist)
    requires q.task.Some? && q.task.value.reply.Some? && TaskInv(c, p, q.task.value, d.intents, h)
    requires Unrecorded(q.task.value, d.intents) && h.rejectionCut == {}
    ensures var n := Continue(c, p, now, q, d, h);
      && n.h.rejectionCut == {} && n.h.clearCut == h.clearCut && n.h.cleared == h.cleared
      && (n.h.calls == h.calls || (|n.h.calls| == |h.calls| + 1 && n.h.calls[..|h.calls|] == h.calls
            && n.h.calls[|h.calls|].pid == p))
      && (n.q.task.Some? ==> Unrecorded(n.q.task.value, d.intents))
  {
    CalmHistory(c, p, now, q, d, h);
    if FailsNext(c, p, now, q, d, h) {
      FailsFrom(c, p, now, q, d, h);
      OwnIsReserved(c, p, q.task.value, d.intents, h);
    }
  }

  predicate FailsNext(c: Config, p: Pid, now: int, q: Proc, d: Durable, h: Hist)
    requires q.task.Some? && q.task.value.reply.Some?
  {
    var n := Continue(c, p, now, q, d, h);
    n.q.task.Some? && n.q.task.value.pc.FailUpdate? && n.q.task.value.op.Writer?
  }

  lemma KeepsOp(c: Config, p: Pid, now: int, q: Proc, d: Durable, h: Hist)
    requires q.task.Some? && q.task.value.reply.Some? && Continue(c, p, now, q, d, h).q.task.Some?
    requires BeforeWrite(q.task.value.pc) || q.task.value.pc.Write?
    ensures Continue(c, p, now, q, d, h).q.task.value.op == q.task.value.op
  { }

  lemma FailsNotEarly(c: Config, p: Pid, now: int, q: Proc, d: Durable, h: Hist)
    requires q.task.Some? && q.task.value.reply.Some? && !AfterReserve(q.task.value.pc)
    ensures !FailsNext(c, p, now, q, d, h)
  { }

  lemma FailsNotLate(c: Config, p: Pid, now: int, q: Proc, d: Durable, h: Hist)
    requires q.task.Some? && q.task.value.reply.Some? && AfterWrite(q.task.value.pc)
    ensures !FailsNext(c, p, now, q, d, h)
  { }

  lemma FailsFrom(c: Config, p: Pid, now: int, q: Proc, d: Durable, h: Hist)
    requires q.task.Some? && q.task.value.reply.Some? && FailsNext(c, p, now, q, d, h)
    ensures BeforeWrite(q.task.value.pc) || q.task.value.pc.Write?
    ensures Continue(c, p, now, q, d, h).q.task.value.op == q.task.value.op
  {
    if !AfterReserve(q.task.value.pc) { FailsNotEarly(c, p, now, q, d, h); }
    if AfterWrite(q.task.value.pc) { FailsNotLate(c, p, now, q, d, h); }
    KeepsOp(c, p, now, q, d, h);
  }

  lemma OwnIsReserved(c: Config, p: Pid, t: Task, m: Intents, h: Hist)
    requires TaskInv(c, p, t, m, h) && t.op.Writer? && (BeforeWrite(t.pc) || t.pc.Write?)
    ensures t.op.key in m && m[t.op.key].status.Reserved?
  {
    assert Owns(t);
  }

  lemma CalmHistory(c: Config, p: Pid, now: int, q: Proc, d: Durable, h: Hist)
    requires q.task.Some? && q.task.value.reply.Some? && Unrecorded(q.task.value, d.intents) && h.rejectionCut == {}
    ensures var n := Continue(c, p, now, q, d, h);
      && n.h.rejectionCut == {} && n.h.clearCut == h.clearCut && n.h.cleared == h.cleared
      && (n.h.calls == h.calls || (|n.h.calls| == |h.calls| + 1 && n.h.calls[..|h.calls|] == h.calls
            && n.h.calls[|h.calls|].pid == p))
  { }

  lemma MarkingCalm(p: Pid, now: int, t: Task, d: Durable, h: Hist, f: Fault)
    requires forall k :: k in h.cleared ==> h.cleared[k].who == p
    ensures forall k :: k in Marking(p, now, t, d, h, f).h.cleared ==> Marking(p, now, t, d, h, f).h.cleared[k].who == p
  { }

  lemma RemoteKeeps(p: Pid, now: int, t: Task, d: Durable, h: Hist, w: World)
    ensures var a := Remote(p, now, t, d, h, w);
      && a.h.rejectionCut == h.rejectionCut && a.h.clearCut == h.clearCut && a.h.calls == h.calls
      && (t.pc.ClearMark? ==> a == Marking(p, now, t, d, h, w.fault)) && (!t.pc.ClearMark? ==> a.h.cleared == h.cleared)
  { }

  /** What a remote effect leaves of the calm. */
  lemma RemoteCalm(p: Pid, now: int, t: Task, d: Durable, h: Hist, w: World)
    requires forall k :: k in h.cleared ==> h.cleared[k].who == p
    ensures var a := Remote(p, now, t, d, h, w);
      && a.h.rejectionCut == h.rejectionCut && a.h.clearCut == h.clearCut && a.h.calls == h.calls
      && forall k :: k in a.h.cleared ==> a.h.cleared[k].who == p
  {
    RemoteKeeps(p, now, t, d, h, w);
    MarkingCalm(p, now, t, d, h, w.fault);
  }

  lemma RecordedCalm(p: Pid, now: int, t: Task, d: Durable, h: Hist, w: World)
    requires t.reply.None? && !w.fault.After? && Unrecorded(t, d.intents) && t.op.Writer? && t.pc.FailUpdate?
    ensures var a := Remote(p, now, t, d, h, w); Unrecorded(t.(reply := Some(a.reply)), a.d.intents)
  { }

  lemma EffectCalm(c: Config, s: State, p: Pid, w: World)
    requires ValidConfig(c) && Inv(c, s) && Calm(s, p) && !w.fault.After?
    ensures Calm(Step(c, s, Effect(p, w)), p)
  {
    if s.procs[p].task.Some? && s.procs[p].task.value.reply.None? {
      var t := s.procs[p].task.value;
      RemoteCalm(p, s.now, t, s.d, s.h, w);
      if t.op.Writer? && t.pc.FailUpdate? { RecordedCalm(p, s.now, t, s.d, s.h, w); }
    }
  }

  lemma StepCalm(c: Config, s: State, e: Event, p: Pid)
    requires ValidConfig(c) && Inv(c, s) && Calm(s, p) && Gentle(e)
    ensures Calm(Step(c, s, e), p)
  {
    match e
    case Effect(o, w) => if o == p { EffectCalm(c, s, p, w); }
    case Resume(o) =>
      if o == p && s.procs[p].task.Some? && s.procs[p].task.value.reply.Some? { ResumeCalm(c, s, p); }
    case _ =>
  }

  lemma {:induction false} RunCalm(c: Config, s: State, es: seq<Event>, p: Pid)
    requires ValidConfig(c) && Inv(c, s) && Calm(s, p) && forall e <- es :: Gentle(e)
    ensures Inv(c, Run(c, s, es)) && Calm(Run(c, s, es), p)
    decreases |es|
  {
    if es != [] {
      StepKept(c, s, es[0]);
      StepCalm(c, s, es[0], p);
      RunCalm(c, Step(c, s, es[0]), es[1..], p);
    }
  }

  /**
   One process, no cancelled task and no lost database answer: at most one order call per arm, in
   every interleaving with exchange rejections, ambiguous answers, failed updates, expiry, disarms,
   stops, latches and restarts.
   */
  lemma OneCallPerArm(c: Config, s0: State, es: seq<Event>, p: Pid, i: nat, j: nat)
    requires ValidConfig(c) && Initial(s0) && s0.procs.Keys == {p} && forall e <- es :: Gentle(e)
    requires i < j < |Run(c, s0, es).h.calls|
    ensures var h := Run(c, s0, es).h; h.calls[i].arm != h.calls[j].arm
  {
    RunCalm(c, s0, es, p);
    var h := Run(c, s0, es).h;
    assert h.calls[i].pid == p && h.calls[j].pid == p;
    assert !Escaped(h, h.calls[i]);
  }

  // ---------------------------------------------------------------- the other side

  lemma {:induction false} RunAppend(c: Config, s: State, a: seq<Event>, b: seq<Event>)
    ensures Run(c, s, a + b) == Run(c, Run(c, s, a), b)
    decreases |a|
  {
    if a == [] {
      assert a + b == b;
    } else {
      assert (a + b)[0] == a[0] && (a + b)[1..] == a[1..] + b;
      RunAppend(c, Step(c, s, a[0]), a[1..], b);
    }
  }

  lemma RunTwo(c: Config, s: State, a: Event, b: Event)
    ensures Run(c, s, [a, b]) == Step(c, Step(c, s, a), b)
  {
    assert [a, b][1..] == [b] && [b][1..] == [];
    assert Run(c, Step(c, s, a), [b]) == Step(c, Step(c, s, a), b);
  }

  const IDLE := Observation(false, None, false, false)

  function FlatAccount(equity: real): Snapshot { Snapshot(true, 0, 0, 0, false, false, equity, 0) }

  /** A remote call that succeeds on a flat account; the exchange refuses the order. */
  function Calmly(equity: real): World {
    World(NoFault, FlatAccount(equity), Refused, IDLE, Poll(FlatAccount(equity), None))
  }

  function Await(p: Pid, equity: real): seq<Event> { [Effect(p, Calmly(equity)), Resume(p)] }

  function Awaits(n: nat, p: Pid, equity: real): seq<Event> {
    if n == 0 then [] else Await(p, equity) + Awaits(n - 1, p, equity)
  }

  /** An idle, armed process on a clear latch, and a new key. */
  ghost predicate Idle(c: Config, s: State, p: Pid, k: Key) {
    && p in s.procs && s.procs[p].task.None? && ArmedFor(s.procs[p], s.now)
    && s.procs[p].baseline.Some? && s.procs[p].baseline.value > 0.0 && c.lossLimit > 0.0
    && s.d.lock.None? && !s.d.latched && k !in s.d.intents
  }

  /** The same with nothing unresolved. */
  ghost predicate CanCall(c: Config, s: State, p: Pid, k: Key) { Idle(c, s, p, k) && Rows(s.d.intents) == map[] }

  /** The same processes, and all but `p` as they were. */
  predicate OthersSame(s: State, s0: State, p: Pid) {
    s.procs.Keys == s0.procs.Keys && forall o :: o in s.procs && o != p ==> s.procs[o] == s0.procs[o]
  }

  /** One await of the order path, when everything answers calmly. */
  ghost predicate At(s: State, s0: State, p: Pid, k: Key, pc: Pc, m: Intents) {
    && p in s.procs && OthersSame(s, s0, p) && s.now == s0.now && s.h == s0.h
    && s.d == s0.d.(lock := if pc.Acquire? then None else Some(p), intents := m)
    && s.procs[p].task.Some?
    && s.procs[p] == s0.procs[p].(
         task := Some(Task(Writer(Place, k), pc, None, s.procs[p].task.value.snap, [], false, 0)))
  }

  predicate Follows(a: Pc, b: Pc) {
    match a
    case Acquire => b.LatchRead?
    case LatchRead => b.IntentRead?
    case IntentRead => b.Survey?
    case Survey => b.Market?
    case Market => b.Reserve?
    case Reserve => b.ReserveCount?
    case ReserveCount => b.Preflight?
    case Preflight => b.FinalSurvey?
    case FinalSurvey => b.FinalMarket?
    case FinalMarket => b.FinalLatchRead?
    case _ => false
  }

  function Booked(m: Intents, k: Key, now: int): Intents { m[k := Intent(Reserved, now, false)] }

  function IntentsAt(m: Intents, k: Key, now: int, pc: Pc): Intents {
    if BeforeWrite(pc) then Booked(m, k, now) else m
  }

  predicate Early(pc: Pc) { pc.Acquire? || pc.LatchRead? || pc.IntentRead? || pc.Survey? || pc.Market? }

  lemma AwaitEarly(c: Config, s0: State, s: State, p: Pid, k: Key, a: Pc, b: Pc)
    requires CanCall(c, s0, p, k) && Follows(a, b) && Early(a) && At(s, s0, p, k, a, s0.d.intents)
    ensures At(Run(c, s, Await(p, s0.procs[p].baseline.value)), s0, p, k, b, s0.d.intents)
  {
    RunTwo(c, s, Effect(p, Calmly(s0.procs[p].baseline.value)), Resume(p));
  }

  lemma AwaitReserve(c: Config, s0: State, s: State, p: Pid, k: Key)
    requires CanCall(c, s0, p, k) && At(s, s0, p, k, Reserve, s0.d.intents)
    ensures At(Run(c, s, Await(p, s0.procs[p].baseline.value)), s0, p, k, ReserveCount, Booked(s0.d.intents, k, s0.now))
  {
    RunTwo(c, s, Effect(p, Calmly(s0.procs[p].baseline.value)), Resume(p));
  }

  lemma AwaitLate(c: Config, s0: State, s: State, p: Pid, k: Key, a: Pc, b: Pc)
    requires CanCall(c, s0, p, k) && Follows(a, b) && !Early(a) && !a.Reserve?
    requires At(s, s0, p, k, a, Booked(s0.d.intents, k, s0.now))
    ensures At(Run(c, s, Await(p, s0.procs[p].baseline.value)), s0, p, k, b, Booked(s0.d.intents, k, s0.now))
  {
    RunTwo(c, s, Effect(p, Calmly(s0.procs[p].baseline.value)), Resume(p));
  }

  /** When along the path the intent is booked. */
  lemma BookedFrom(m: Intents, k: Key, now: int, a: Pc, b: Pc)
    requires Follows(a, b)
    ensures Early(a) ==> IntentsAt(m, k, now, a) == m && IntentsAt(m, k, now, b) == m
    ensures a.Reserve? ==>
      b.ReserveCount? && IntentsAt(m, k, now, a) == m && IntentsAt(m, k, now, b) == Booked(m, k, now)
    ensures !Early(a) && !a.Reserve? ==>
      IntentsAt(m, k, now, a) == Booked(m, k, now) && IntentsAt(m, k, now, b) == Booked(m, k, now)
  { }

  lemma OnlyBooked(m: Intents, k: Key, now: int)
    requires Rows(m) == map[] && k !in m
    ensures Rows(Booked(m, k, now)).Keys == {k}
  {
    forall o | o in m ensures !IsUnresolved(m[o]) { assert o !in Rows(m); }
    assert k in Rows(Booked(m, k, now));
  }

  /** The state right after the order endpoint has been called for `k`, starting from `s0`. */
  ghost predicate Sent(s: State, s0: State, p: Pid, k: Key) {
    && p in s0.procs && OthersSame(s, s0, p) && s.now == s0.now
    && s.d == s0.d.(lock := Some(p), intents := Booked(s0.d.intents, k, s0.now))
    && s.h == s0.h.(calls := s0.h.calls + [Call(p, s0.procs[p].arm, k, {k})], writes := s0.h.writes + [k])
    && s.procs[p].task.Some?
    && s.procs[p] == s0.procs[p].(
         task := Some(Task(Writer(Place, k), Write, None, s.procs[p].task.value.snap, [], false, 0)))
  }

  lemma SendAwait(c: Config, s0: State, s: State, p: Pid, k: Key)
    requires CanCall(c, s0, p, k) && At(s, s0, p, k, FinalLatchRead, Booked(s0.d.intents, k, s0.now))
    ensures Sent(Run(c, s, Await(p, s0.procs[p].baseline.value)), s0, p, k)
  {
    RunTwo(c, s, Effect(p, Calmly(s0.procs[p].baseline.value)), Resume(p));
    OnlyBooked(s0.d.intents, k, s0.now);
  }

  lemma {:induction false} AwaitsSplit(c: Config, s: State, n: nat, p: Pid, e: real)
    requires n > 0
    ensures Run(c, s, Awaits(n, p, e)) == Run(c, Run(c, s, Await(p, e)), Awaits(n - 1, p, e))
  {
    RunAppend(c, s, Await(p, e), Awaits(n - 1, p, e));
  }

  function Path(i: nat): (pc: Pc)
    requires i <= 10
  {
    match i
    case 0 => Acquire
    case 1 => LatchRead
    case 2 => IntentRead
    case 3 => Survey
    case 4 => Market
    case 5 => Reserve
    case 6 => ReserveCount
    case 7 => Preflight
    case 8 => FinalSurvey
    case 9 => FinalMarket
    case _ => FinalLatchRead
  }

  lemma PathFollows(i: nat)
    requires i < 10
    ensures Follows(Path(i), Path(i + 1))
  { }

  lemma PathGoesOn(c: Config, s0: State, s: State, p: Pid, k: Key, a: Pc, b: Pc, m: Intents, m': Intents)
    requires CanCall(c, s0, p, k) && Follows(a, b) && At(s, s0, p, k, a, m)
    requires m == IntentsAt(s0.d.intents, k, s0.now, a) && m' == IntentsAt(s0.d.intents, k, s0.now, b)
    ensures At(Run(c, s, Await(p, s0.procs[p].baseline.value)), s0, p, k, b, m')
  {
    BookedFrom(s0.d.intents, k, s0.now, a, b);
    if Early(a) { AwaitEarly(c, s0, s, p, k, a, b); }
    else if a.Reserve? { AwaitReserve(c, s0, s, p, k); }
    else { AwaitLate(c, s0, s, p, k, a, b); }
  }

  lemma {:induction false} AwaitsReachTheCall(c: Config, s0: State, s: State, p: Pid, k: Key, i: nat)
    requires CanCall(c, s0, p, k) && i <= 10
    requires At(s, s0, p, k, Path(i), IntentsAt(s0.d.intents, k, s0.now, Path(i)))
    ensures Sent(Run(c, s, Awaits(11 - i, p, s0.procs[p].baseline.value)), s0, p, k)
    decreases 10 - i
  {
    var e, m := s0.procs[p].baseline.value, s0.d.intents;
    AwaitsSplit(c, s, 11 - i, p, e);
    if i == 10 {
      SendAwait(c, s0, s, p, k);
    } else {
      PathFollows(i);
      PathGoesOn(c, s0, s, p, k, Path(i), Path(i + 1), IntentsAt(m, k, s0.now, Path(i)),
                 IntentsAt(m, k, s0.now, Path(i + 1)));
      AwaitsReachTheCall(c, s0, Run(c, s, Await(p, e)), p, k, i + 1);
    }
  }

  function OrderRun(p: Pid, k: Key, equity: real): seq<Event> {
    [Begin(p, Writer(Place, k))] + Awaits(11, p, equity)
  }

  /** From any such state the process does call the order endpoint, under the arm it already has. */
  lemma AnArmedProcessCanCall(c: Config, s: State, p: Pid, k: Key)
    requires CanCall(c, s, p, k)
    ensures Sent(Run(c, s, OrderRun(p, k, s.procs[p].baseline.value)), s, p, k)
  {
    var e := s.procs[p].baseline.value;
    var b := [Begin(p, Writer(Place, k))];
    RunAppend(c, s, b, Awaits(11, p, e));
    var s1 := Step(c, s, Begin(p, Writer(Place, k)));
    assert Run(c, s, b) == s1 by { assert b[1..] == []; }
    assert s1.procs[p] == s.procs[p].(task := Some(Task(Writer(Place, k), Acquire, None, None, [], false, 0)));
    AwaitsReachTheCall(c, s, s1, p, k, 0);
  }

  // ---------------------------------------------------------------- what blocks it

  lemma EntryAwait(c: Config, s0: State, s: State, p: Pid, k: Key, a: Pc, b: Pc)
    requires Idle(c, s0, p, k) && Follows(a, b) && (a.Acquire? || a.LatchRead?) && At(s, s0, p, k, a, s0.d.intents)
    ensures At(Run(c, s, Await(p, s0.procs[p].baseline.value)), s0, p, k, b, s0.d.intents)
  {
    RunTwo(c, s, Effect(p, Calmly(s0.procs[p].baseline.value)), Resume(p));
  }

  /** An unresolved intent ends the operation where the intents are read. */
  lemma RefusedAtIntents(c: Config, s0: State, s: State, p: Pid, k: Key)
    requires Idle(c, s0, p, k) && Rows(s0.d.intents) != map[] && At(s, s0, p, k, IntentRead, s0.d.intents)
    ensures var s' := Run(c, s, Await(p, s0.procs[p].baseline.value));
      p in s'.procs && s'.procs[p].task.None? && s'.h == s0.h
  {
    RunTwo(c, s, Effect(p, Calmly(s0.procs[p].baseline.value)), Resume(p));
  }

  lemma {:induction false} NothingAwaited(c: Config, s: State, n: nat, p: Pid, e: real)
    requires p in s.procs && s.procs[p].task.None?
    ensures Run(c, s, Awaits(n, p, e)) == s
  {
    if n > 0 {
      RunAppend(c, s, Await(p, e), Awaits(n - 1, p, e));
      RunTwo(c, s, Effect(p, Calmly(e)), Resume(p));
      NothingAwaited(c, s, n - 1, p, e);
    }
  }

  lemma BeginsAt(c: Config, s: State, p: Pid, k: Key)
    requires Idle(c, s, p, k)
    ensures At(Run(c, s, [Begin(p, Writer(Place, k))]), s, p, k, Acquire, s.d.intents)
  {
    var b := [Begin(p, Writer(Place, k))];
    assert Run(c, s, b) == Step(c, s, b[0]) by { assert b[1..] == []; }
  }

  lemma BlockedAtIntents(c: Config, s0: State, s: State, p: Pid, k: Key)
    requires Idle(c, s0, p, k) && Rows(s0.d.intents) != map[] && At(s, s0, p, k, IntentRead, s0.d.intents)
    ensures Run(c, s, Awaits(9, p, s0.procs[p].baseline.value)).h == s0.h
  {
    var e := s0.procs[p].baseline.value;
    AwaitsSplit(c, s, 9, p, e);
    RefusedAtIntents(c, s0, s, p, k);
    NothingAwaited(c, Run(c, s, Await(p, e)), 8, p, e);
  }

  lemma BlockedAtLatch(c: Config, s0: State, s: State, p: Pid, k: Key)
    requires Idle(c, s0, p, k) && Rows(s0.d.intents) != map[] && At(s, s0, p, k, LatchRead, s0.d.intents)
    ensures Run(c, s, Awaits(10, p, s0.procs[p].baseline.value)).h == s0.h
  {
    var e := s0.procs[p].baseline.value;
    AwaitsSplit(c, s, 10, p, e);
    EntryAwait(c, s0, s, p, k, LatchRead, IntentRead);
    BlockedAtIntents(c, s0, Run(c, s, Await(p, e)), p, k);
  }

  lemma BlockedAtEntry(c: Config, s0: State, s: State, p: Pid, k: Key)
    requires Idle(c, s0, p, k) && Rows(s0.d.intents) != map[] && At(s, s0, p, k, Acquire, s0.d.intents)
    ensures Run(c, s, Awaits(11, p, s0.procs[p].baseline.value)).h == s0.h
  {
    var e := s0.procs[p].baseline.value;
    AwaitsSplit(c, s, 11, p, e);
    EntryAwait(c, s0, s, p, k, Acquire, LatchRead);
    BlockedAtLatch(c, s0, Run(c, s, Await(p, e)), p, k);
  }

  /** With anything unresolved the same run sends nothing. */
  lemma UnresolvedBlocks(c: Config, s: State, p: Pid, k: Key)
    requires Idle(c, s, p, k) && Rows(s.d.intents) != map[]
    ensures Run(c, s, OrderRun(p, k, s.procs[p].baseline.value)).h == s.h
  {
    var b := [Begin(p, Writer(Place, k))];
    RunAppend(c, s, b, Awaits(11, p, s.procs[p].baseline.value));
    BeginsAt(c, s, p, k);
    BlockedAtEntry(c, s, Run(c, s, b), p, k);
  }

  /**
   Exactness, for one idle armed process of any reachable state that has already called under its arm:
   the order run calls again if and only if nothing is unresolved, and then every earlier call of the arm
   has escaped by one of the interruptions.
   */
  lemma SecondCallExactly(c: Config, s0: State, es: seq<Event>, p: Pid, k: Key, i: nat)
    requires ValidConfig(c) && Initial(s0)
    requires var s := Run(c, s0, es); Idle(c, s, p, k) && i < |s.h.calls|
    requires var s := Run(c, s0, es); s.h.calls[i].pid == p && s.h.calls[i].arm == s.procs[p].arm
    ensures var s := Run(c, s0, es);
      var s' := Run(c, s, OrderRun(p, k, s.procs[p].baseline.value));
      && (s'.h.calls != s.h.calls <==> Rows(s.d.intents) == map[])
      && (s'.h.calls != s.h.calls ==>
            s'.h.calls == s.h.calls + [Call(p, s.h.calls[i].arm, k, {k})] && Escaped(s.h, s.h.calls[i]))
  {
    var s := Run(c, s0, es);
    if Rows(s.d.intents) == map[] {
      AnArmedProcessCanCall(c, s, p, k);
      EarlierEscaped(c, s0, es, p, i);
    } else {
      UnresolvedBlocks(c, s, p, k);
    }
  }

  lemma EarlierEscaped(c: Config, s0: State, es: seq<Event>, p: Pid, i: nat)
    requires ValidConfig(c) && Initial(s0)
    requires var s := Run(c, s0, es);
      && p in s.procs && s.procs[p].task.None? && s.procs[p].armedUntil.Some?
      && Rows(s.d.intents) == map[] && i < |s.h.calls|
    requires var s := Run(c, s0, es); s.h.calls[i].pid == p && s.h.calls[i].arm == s.procs[p].arm
    ensures var s := Run(c, s0, es); Escaped(s.h, s.h.calls[i])
  {
    Reached(c, s0, es);
    var s := Run(c, s0, es);
    assert ProcInv(c, p, s.procs[p], s.d, s.h);
    assert CallInv(c, s.h.calls[i], s.d.intents, s.h);
    assert Settled(s.h.calls[i], s.procs[p], s.d.intents, s.h);
    assert s.h.calls[i].key !in Rows(s.d.intents);
  }

  // ---------------------------------------------------------------- the failing family

  /** The exchange refuses, the refusal is stored, and the operation is cancelled before it disarms. */
  function CutRun(p: Pid, equity: real): seq<Event> {
    Await(p, equity) + [Effect(p, Calmly(equity)), CancelTask(p)]
  }

  function Refusal(m: Intents, k: Key, now: int): Intents { m[k := Intent(Rejected, now, false)] }

  /** The refused order on its way to being recorded. */
  ghost predicate Refusing(s: State, s0: State, p: Pid, k: Key) {
    && p in s0.procs && s.procs.Keys == s0.procs.Keys && s.now == s0.now && s.procs[p].task.Some?
    && s.d == s0.d.(lock := Some(p), intents := Booked(s0.d.intents, k, s0.now))
    && s.procs[p] == s0.procs[p].(task := Some(Task(Writer(Place, k), FailUpdate(Rejected), None,
                                                    s.procs[p].task.value.snap, [], false, 0)))
  }

  lemma RefusalSeen(c: Config, s0: State, s: State, p: Pid, k: Key)
    requires CanCall(c, s0, p, k) && Sent(s, s0, p, k)
    ensures var s' := Run(c, s, Await(p, s0.procs[p].baseline.value)); Refusing(s', s0, p, k) && s'.h.calls == s.h.calls
  {
    RunTwo(c, s, Effect(p, Calmly(s0.procs[p].baseline.value)), Resume(p));
  }

  lemma RefusalCut(c: Config, s0: State, s: State, p: Pid, k: Key)
    requires CanCall(c, s0, p, k) && Refusing(s, s0, p, k)
    ensures var s' := Run(c, s, [Effect(p, Calmly(s0.procs[p].baseline.value)), CancelTask(p)]);
      && s'.now == s0.now && p in s'.procs && s'.procs[p] == s0.procs[p]
      && s'.d == s0.d.(intents := Refusal(s0.d.intents, k, s0.now)) && s'.h.calls == s.h.calls
  {
    var w := Calmly(s0.procs[p].baseline.value);
    RunTwo(c, s, Effect(p, w), CancelTask(p));
    assert Step(c, s, Effect(p, w)).d.intents == Refusal(s0.d.intents, k, s0.now);
  }

  lemma CutKeepsTheArm(c: Config, s0: State, s: State, p: Pid, k: Key)
    requires CanCall(c, s0, p, k) && Sent(s, s0, p, k)
    ensures var s' := Run(c, s, CutRun(p, s0.procs[p].baseline.value));
      && s'.now == s0.now && p in s'.procs && s'.procs[p] == s0.procs[p]
      && s'.d == s0.d.(intents := Refusal(s0.d.intents, k, s0.now))
      && s'.h.calls == s.h.calls
  {
    var e := s0.procs[p].baseline.value;
    RunAppend(c, s, Await(p, e), [Effect(p, Calmly(e)), CancelTask(p)]);
    RefusalSeen(c, s0, s, p, k);
    RefusalCut(c, s0, Run(c, s, Await(p, e)), p, k);
  }

  function TwiceRun(p: Pid, k: Key, k2: Key, equity: real): seq<Event> {
    OrderRun(p, k, equity) + CutRun(p, equity) + OrderRun(p, k2, equity)
  }

  /**
   The family of runs in which one arm yields two order calls: from every idle armed state, a refusal
   that is stored but whose task is cancelled before the disarm leaves the process free to call again.
   */
  lemma TwoCallsReachable(c: Config, s: State, p: Pid, k: Key, k2: Key)
    requires CanCall(c, s, p, k) && CanCall(c, s, p, k2) && k != k2
    ensures var h := Run(c, s, TwiceRun(p, k, k2, s.procs[p].baseline.value)).h;
      h.calls == s.h.calls + [Call(p, s.procs[p].arm, k, {k}), Call(p, s.procs[p].arm, k2, {k2})]
  {
    var e := s.procs[p].baseline.value;
    RunAppend(c, s, OrderRun(p, k, e) + CutRun(p, e), OrderRun(p, k2, e));
    RunAppend(c, s, OrderRun(p, k, e), CutRun(p, e));
    AnArmedProcessCanCall(c, s, p, k);
    var s1 := Run(c, s, OrderRun(p, k, e));
    CutKeepsTheArm(c, s, s1, p, k);
    var s2 := Run(c, s1, CutRun(p, e));
    assert Rows(s2.d.intents) == map[] by {
      forall o | o in s2.d.intents ensures !IsUnresolved(s2.d.intents[o]) {
        if o != k { assert o !in Rows(s.d.intents); }
      }
    }
    AnArmedProcessCanCall(c, s2, p, k2);
  }

  function ArmRun(p: Pid, duration: nat, equity: real): seq<Event> {
    [Begin(p, Arm(duration))] + Awaits(4, p, equity)
  }

  ghost predicate ArmAt(s: State, s0: State, p: Pid, duration: nat, equity: real, pc: Pc) {
    var snap := if pc.Acquire? || pc.Survey? then None else Some(FlatAccount(equity));
    && p in s.procs && s.now == s0.now && s.h == s0.h
    && s.d == s0.d.(lock := if pc.Acquire? then None else Some(p))
    && s.procs[p] == FRESH_PROC.(task := Some(Task(Arm(duration), pc, None, snap, [], false, 0)))
  }

  lemma ArmGoesOn(c: Config, s0: State, s: State, p: Pid, duration: nat, equity: real, a: Pc, b: Pc)
    requires Initial(s0) && !s0.d.latched && ArmAt(s, s0, p, duration, equity, a)
    requires (a.Acquire? && b.Survey?) || (a.Survey? && b.LatchRead?) || (a.LatchRead? && b.IntentRead?)
    ensures ArmAt(Run(c, s, Await(p, equity)), s0, p, duration, equity, b)
  {
    RunTwo(c, s, Effect(p, Calmly(equity)), Resume(p));
  }

  lemma ArmEnds(c: Config, s0: State, s: State, p: Pid, duration: nat, equity: real, k: Key)
    requires Initial(s0) && !s0.d.latched && ArmAt(s, s0, p, duration, equity, IntentRead)
    requires duration > 0 && equity > 0.0 && c.lossLimit > 0.0
    ensures CanCall(c, Run(c, s, Await(p, equity)), p, k)
  {
    RunTwo(c, s, Effect(p, Calmly(equity)), Resume(p));
    assert Rows(s.d.intents) == map[];
  }

  /** Such states exist: arming on a flat account with positive equity leads to one. */
  lemma ArmingReachesIt(c: Config, s0: State, p: Pid, duration: nat, equity: real, k: Key)
    requires Initial(s0) && p in s0.procs && !s0.d.latched && duration > 0 && equity > 0.0 && c.lossLimit > 0.0
    ensures CanCall(c, Run(c, s0, ArmRun(p, duration, equity)), p, k)
  {
    var b := Begin(p, Arm(duration));
    var s1 := Step(c, s0, b);
    RunAppend(c, s0, [b], Awaits(4, p, equity));
    assert Run(c, s0, [b]) == s1 by { assert [b][1..] == []; }
    assert ArmAt(s1, s0, p, duration, equity, Acquire);
    AwaitsSplit(c, s1, 4, p, equity);
    ArmGoesOn(c, s0, s1, p, duration, equity, Acquire, Survey);
    var s2 := Run(c, s1, Await(p, equity));
    AwaitsSplit(c, s2, 3, p, equity);
    ArmGoesOn(c, s0, s2, p, duration, equity, Survey, LatchRead);
    var s3 := Run(c, s2, Await(p, equity));
    AwaitsSplit(c, s3, 2, p, equity);
    ArmGoesOn(c, s0, s3, p, duration, equity, LatchRead, IntentRead);
    var s4 := Run(c, s3, Await(p, equity));
    AwaitsSplit(c, s4, 1, p, equity);
    ArmEnds(c, s0, s4, p, duration, equity, k);
  }
}
