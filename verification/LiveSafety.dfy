/**
 Safety of the live write protocol over every run: any number of processes, any interleaving,
 any failures, cancellations and restarts.
 */
module LiveSafety {
  import opened Options
  import opened LiveProtocol
  import opened LiveInvariant
  import opened LiveResume

  // ---------------------------------------------------------------- the remaining steps

  lemma CancelledOk(c: Config, p: Pid, q: Proc, d: Durable, h: Hist)
    requires Ready(c, p, q, d, h)
    ensures NextOk(c, p, q, d, h, Cancelled(q, d, h))
  {
    var t := q.task.value;
    var n := Cancelled(q, d, h);
    if t.pc.FailUpdate? || t.pc.FailCount? { CutOk(c, p, q, d, h, n.q); }
    else if t.op.Clear? && (t.pc.ClearMark? || t.pc.ClearRemaining? || t.pc.ClearLatch?) { ClearCutOk(c, p, q, d, h); }
    else { EndOk(c, p, q, d, h, n.q); }
  }

  lemma ClearCutOk(c: Config, p: Pid, q: Proc, d: Durable, h: Hist)
    requires Ready(c, p, q, d, h) && q.task.value.op.Clear?
    requires var pc := q.task.value.pc; pc.ClearMark? || pc.ClearRemaining? || pc.ClearLatch?
    ensures NextOk(c, p, q, d, h, Next(End(q), h.(clearCut := h.clearCut + q.task.value.op.expected.Keys)))
  {
    var h' := h.(clearCut := h.clearCut + q.task.value.op.expected.Keys);
    forall i | 0 <= i < |h.calls| ensures CallInv(c, h'.calls[i], d.intents, h') {
      assert CallInv(c, h.calls[i], d.intents, h);
    }
    forall x | Escaped(h, x) ensures Escaped(h', x) { }
    if q.armedUntil.Some? {
      forall i | 0 <= i < |h.calls| && h.calls[i].pid == p && h.calls[i].arm == q.arm
        ensures Settled(h'.calls[i], End(q), d.intents, h')
      {
        assert Settled(h.calls[i], q, d.intents, h);
        assert CallInv(c, h.calls[i], d.intents, h);
      }
    }
  }

  /** Local changes that keep the running operation: disarm, stop, expiry and refused starts. */
  lemma LocalOk(c: Config, p: Pid, q: Proc, d: Durable, h: Hist, q': Proc)
    requires HistInv(c, d.intents, h) && ProcInv(c, p, q, d, h)
    requires q'.task == q.task && ArmShrinks(q, q')
    ensures NextOk(c, p, q, d, h, Next(q', h))
  {
    SettledSame(p, q, q', d.intents, h);
    RelySame(p, d, h, Unlock(d, p, q'));
  }

  lemma StartedOk(c: Config, p: Pid, now: int, q: Proc, d: Durable, h: Hist, op: Op)
    requires HistInv(c, d.intents, h) && ProcInv(c, p, q, d, h)
    ensures NextOk(c, p, q, d, h, Next(Started(q, now, op), h))
  {
    var q' := Started(q, now, op);
    if q'.task == q.task { LocalOk(c, p, q, d, h, q'); }
    else {
      SettledSame(p, q, q', d.intents, h);
      RelySame(p, d, h, d);
    }
  }

  lemma RestartedOk(c: Config, p: Pid, q: Proc, d: Durable, h: Hist)
    requires HistInv(c, d.intents, h) && ProcInv(c, p, q, d, h)
    ensures NextOk(c, p, q, d, h, Next(FRESH_PROC, h))
  {
    RelySame(p, d, h, Unlock(d, p, FRESH_PROC));
  }

  lemma PutKept(c: Config, s: State, p: Pid, n: Next)
    requires Inv(c, s) && p in s.procs && NextOk(c, p, s.procs[p], s.d, s.h, n)
    ensures Inv(c, Put(s, p, n))
  {
    StepOf(c, s, Put(s, p, n), p);
  }

  lemma LatchKept(c: Config, s: State)
    requires Inv(c, s)
    ensures Inv(c, s.(d := LatchEngaged(s.d)))
  {
    forall p | p in s.procs ensures ProcInv(c, p, s.procs[p], LatchEngaged(s.d), s.h) {
      assert ProcInv(c, p, s.procs[p], s.d, s.h);
    }
  }

  lemma ResumeKept(c: Config, s: State, p: Pid)
    requires ValidConfig(c) && Inv(c, s)
    ensures Inv(c, Step(c, s, Resume(p)))
  {
    if p in s.procs && s.procs[p].task.Some? && s.procs[p].task.value.reply.Some? {
      ContinueOk(c, p, s.now, s.procs[p], s.d, s.h);
      PutKept(c, s, p, Continue(c, p, s.now, s.procs[p], s.d, s.h));
    }
  }

  lemma CancelKept(c: Config, s: State, p: Pid)
    requires ValidConfig(c) && Inv(c, s)
    ensures Inv(c, Step(c, s, CancelTask(p)))
  {
    if p in s.procs && s.procs[p].task.Some? {
      CancelledOk(c, p, s.procs[p], s.d, s.h);
      PutKept(c, s, p, Cancelled(s.procs[p], s.d, s.h));
    }
  }

  lemma BeginKept(c: Config, s: State, p: Pid, op: Op)
    requires ValidConfig(c) && Inv(c, s)
    ensures Inv(c, Step(c, s, Begin(p, op)))
  {
    if p in s.procs {
      StartedOk(c, p, s.now, s.procs[p], s.d, s.h, op);
      PutKept(c, s, p, Next(Started(s.procs[p], s.now, op), s.h));
    }
  }

  lemma RestartKept(c: Config, s: State, p: Pid)
    requires ValidConfig(c) && Inv(c, s)
    ensures Inv(c, Step(c, s, Restart(p)))
  {
    if p in s.procs {
      RestartedOk(c, p, s.procs[p], s.d, s.h);
      PutKept(c, s, p, Next(FRESH_PROC, s.h));
    }
  }

  lemma LocalKept(c: Config, s: State, p: Pid, q': Proc)
    requires Inv(c, s) && p in s.procs && q'.task == s.procs[p].task && ArmShrinks(s.procs[p], q')
    ensures Inv(c, Put(s, p, Next(q', s.h)))
  {
    LocalOk(c, p, s.procs[p], s.d, s.h, q');
    PutKept(c, s, p, Next(q', s.h));
  }

  lemma StepKept(c: Config, s: State, e: Event)
    requires ValidConfig(c) && Inv(c, s)
    ensures Inv(c, Step(c, s, e))
  {
    match e
    case Tick(_) =>
    case LatchNow => LatchKept(c, s);
    case Effect(p, w) => EffectKept(c, s, p, w);
    case Resume(p) => ResumeKept(c, s, p);
    case CancelTask(p) => CancelKept(c, s, p);
    case Restart(p) => RestartKept(c, s, p);
    case Begin(p, op) => BeginKept(c, s, p, op);
    case DisarmNow(p) => if p in s.procs { LocalKept(c, s, p, Disarm(s.procs[p], false)); }
    case StopNow(p) => if p in s.procs { LocalKept(c, s, p, Engage(s.procs[p])); }
    case ExpireNow(p) => if p in s.procs { LocalKept(c, s, p, Expire(s.procs[p], s.now)); }
  }

  /** The invariant holds after every run. */
  lemma {:induction false} RunKept(c: Config, s: State, es: seq<Event>)
    requires ValidConfig(c) && Inv(c, s)
    ensures Inv(c, Run(c, s, es))
    decreases |es|
  {
    if es != [] {
      StepKept(c, s, es[0]);
      RunKept(c, Step(c, s, es[0]), es[1..]);
    }
  }

  lemma Reached(c: Config, s0: State, es: seq<Event>)
    requires ValidConfig(c) && Initial(s0)
    ensures Inv(c, Run(c, s0, es))
  {
    RunKept(c, s0, es);
  }

  // ---------------------------------------------------------------- orders and arms

  /** An order that cannot be open on the exchange any more, as far as the service can know. */
  ghost predicate Harmless(c: Config, h: Hist, k: Key) {
    (k in h.answers && h.answers[k].Refused?) || (k in h.cleared && StableFlat(c, h.cleared[k].polls))
  }

  /**
   In every run, when a process calls the order endpoint twice under one arm, the earlier order was
   explicitly refused and the recording of the refusal was cut short, or it was resolved on a stable
   flat account by another process or by a clear that was cancelled before it could disarm.
   */
  lemma TwoCallsInOneArm(c: Config, s0: State, es: seq<Event>, i: nat, j: nat)
    requires ValidConfig(c) && Initial(s0)
    requires var h := Run(c, s0, es).h; i < j < |h.calls|
    requires var h := Run(c, s0, es).h; h.calls[i].pid == h.calls[j].pid && h.calls[i].arm == h.calls[j].arm
    ensures var h := Run(c, s0, es).h; Escaped(h, h.calls[i]) && Harmless(c, h, h.calls[i].key)
  {
    Reached(c, s0, es);
    var s := Run(c, s0, es);
    assert CallInv(c, s.h.calls[i], s.d.intents, s.h);
  }

  /**
   Across crashes and restarts: every order is sent while its own intent is the only unresolved one,
   and no idempotency key reaches its exchange write twice.
   */
  lemma SentAloneAndOnce(c: Config, s0: State, es: seq<Event>)
    requires ValidConfig(c) && Initial(s0)
    ensures var h := Run(c, s0, es).h;
      && (forall i :: 0 <= i < |h.calls| ==> h.calls[i].unresolved == {h.calls[i].key} && h.calls[i].key in h.writes)
      && (forall i, j :: 0 <= i < j < |h.writes| ==> h.writes[i] != h.writes[j])
      && (forall i, j :: 0 <= i < j < |h.calls| ==> h.calls[i].key != h.calls[j].key)
  {
    Reached(c, s0, es);
    var s := Run(c, s0, es);
    forall i | 0 <= i < |s.h.calls|
      ensures s.h.calls[i].unresolved == {s.h.calls[i].key} && s.h.calls[i].key in s.h.writes
    {
      assert CallInv(c, s.h.calls[i], s.d.intents, s.h);
    }
  }

  /** Whenever no intent is unresolved, the end of every order ever sent is known. */
  lemma NothingUnresolvedMeansAllKnown(c: Config, s0: State, es: seq<Event>, i: nat)
    requires ValidConfig(c) && Initial(s0)
    requires i < |Run(c, s0, es).h.calls| && Rows(Run(c, s0, es).d.intents) == map[]
    ensures var h := Run(c, s0, es).h; var k := h.calls[i].key;
      Harmless(c, h, k) || (k in h.observed && ConfirmsOrder(h.observed[k]))
  {
    Reached(c, s0, es);
    var s := Run(c, s0, es);
    var k := s.h.calls[i].key;
    assert CallInv(c, s.h.calls[i], s.d.intents, s.h);
    assert k !in Rows(s.d.intents);
  }

  /** An intent that still blocks, in its own fields. */
  predicate Blocks(i: Intent) {
    !i.reconciled && (i.status == Reserved || i.status == Acknowledged || i.status == Ambiguous)
  }

  /** The rows an operator quotes are exactly the blocking intents, with their status and time. */
  lemma RowsExactly(m: Intents, k: Key)
    ensures k in Rows(m) <==> k in m && Blocks(m[k])
    ensures k in Rows(m) ==> Rows(m)[k].status == m[k].status && Rows(m)[k].stamp == m[k].stamp
  { }

  /** Two or more reads of one account, each without position, order or algo order, and with the same order states. */
  predicate SeenFlat(polls: seq<Poll>) {
    && |polls| >= 2
    && forall i :: 0 <= i < |polls| ==>
         && polls[i].snap.positions == 0 && polls[i].snap.orders == 0 && polls[i].snap.algos == 0
         && polls[i].orders.Some? && polls[i].snap.identity == polls[0].snap.identity
         && polls[i].orders == polls[0].orders
  }

  /** An order seen in its final state, on an empty account or beside its one protected position. */
  predicate SeenFinal(o: Observation) {
    && o.orderFinal && o.snap.Some? && o.snap.value.orders == 0
    && ((o.snap.value.positions == 0 && o.snap.value.algos == 0)
        || (o.snap.value.positions == 1 && o.snap.value.algos == 1 && o.snap.value.exactlyProtected))
  }

  /**
   In every run, an order whose intent no longer blocks was refused by the exchange, was seen final on a settled
   account, or was cleared after at least two equal reads of an empty account.
   */
  lemma EveryEndIsSeen(c: Config, s0: State, es: seq<Event>, i: nat)
    requires ValidConfig(c) && Initial(s0) && i < |Run(c, s0, es).h.calls|
    ensures var s := Run(c, s0, es); var k := s.h.calls[i].key;
      k in s.d.intents
      && (!Blocks(s.d.intents[k]) ==>
            || (k in s.h.answers && s.h.answers[k] == Refused)
            || (k in s.h.observed && SeenFinal(s.h.observed[k]))
            || (k in s.h.cleared && SeenFlat(s.h.cleared[k].polls)))
  {
    Reached(c, s0, es);
    var s := Run(c, s0, es);
    assert CallInv(c, s.h.calls[i], s.d.intents, s.h);
  }

  // ---------------------------------------------------------------- recorded outcomes

  /** How an intent may change: forward along its life, and never back from reconciled. */
  predicate Advances(a: Intent, b: Intent) {
    && (a.reconciled ==> b.reconciled)
    && (b.status == a.status
        || (a.status == Reserved && b.status != Confirmed)
        || (a.status == Acknowledged && (b.status == Confirmed || b.status == Ambiguous)))
  }

  lemma EffectAdvances(p: Pid, now: int, t: Task, d: Durable, h: Hist, w: World, k: Key)
    requires k in d.intents
    ensures var d' := Remote(p, now, t, d, h, w).d; k in d'.intents && Advances(d.intents[k], d'.intents[k])
  { }

  lemma StepAdvances(c: Config, s: State, e: Event, k: Key)
    requires k in s.d.intents
    ensures k in Step(c, s, e).d.intents && Advances(s.d.intents[k], Step(c, s, e).d.intents[k])
  {
    if e.Effect? && e.p in s.procs && s.procs[e.p].task.Some? {
      EffectAdvances(e.p, s.now, s.procs[e.p].task.value, s.d, s.h, e.w, k);
    }
  }

  /** A recorded end is final: confirmed, rejected and ambiguous intents keep their status in every run. */
  lemma {:induction false} EndsAreFinal(c: Config, s: State, es: seq<Event>, k: Key)
    requires k in s.d.intents
    ensures k in Run(c, s, es).d.intents
    ensures var a, b := s.d.intents[k], Run(c, s, es).d.intents[k];
      && (a.reconciled ==> b.reconciled)
      && (a.status == Confirmed || a.status == Rejected || a.status == Ambiguous ==> b.status == a.status)
      && (a.status == Acknowledged ==> b.status == Acknowledged || b.status == Confirmed || b.status == Ambiguous)
    decreases |es|
  {
    if es != [] {
      StepAdvances(c, s, es[0], k);
      EndsAreFinal(c, Step(c, s, es[0]), es[1..], k);
    }
  }

  /** In every reachable state a process under emergency stop is not armed, and the guard has one holder. */
  lemma StoppedIsDisarmed(c: Config, s0: State, es: seq<Event>, p: Pid, o: Pid)
    requires ValidConfig(c) && Initial(s0)
    ensures var s := Run(c, s0, es);
      && (p in s.procs && s.procs[p].stop ==> s.procs[p].armedUntil.None?)
      && (p in s.procs && o in s.procs && Holds(s.procs[p]) && Holds(s.procs[o]) ==> p == o)
  {
    Reached(c, s0, es);
    var s := Run(c, s0, es);
    if p in s.procs { assert ProcInv(c, p, s.procs[p], s.d, s.h); }
    if o in s.procs { assert ProcInv(c, o, s.procs[o], s.d, s.h); }
  }

  /** What a clear has established when it is about to lift the stop. */
  ghost predicate ClearProven(c: Config, t: Task, m: Intents) {
    && t.op.Clear? && t.pc.ClearLatch? && |t.polls| >= 2 && StableFlat(c, t.polls) && Rows(m) == map[]
    && t.reply.Some? && t.reply.value.LatchIs? && !t.reply.value.latched
    && t.reply.value.version == t.firstVersion + (if t.firstLatched then 1 else 0)
  }

  /**
   Within the life of a process the stop is lifted by nothing but the last step of a clear that saw
   at least two identical flat polls, left no intent unresolved, and found the latch version moved by
   nobody but itself since it first read it.
   */
  lemma StopLiftedOnlyByProvenClear(c: Config, s0: State, es: seq<Event>, e: Event, p: Pid)
    requires ValidConfig(c) && Initial(s0)
    requires var s := Run(c, s0, es); p in s.procs && s.procs[p].stop
    requires var s := Run(c, s0, es); p in Step(c, s, e).procs && !Step(c, s, e).procs[p].stop && e != Restart(p)
    ensures var s := Run(c, s0, es);
      e == Resume(p) && s.procs[p].task.Some? && ClearProven(c, s.procs[p].task.value, s.d.intents)
  {
    Reached(c, s0, es);
    var s := Run(c, s0, es);
    assert ProcInv(c, p, s.procs[p], s.d, s.h);
    OnlyResumeLifts(c, s, e, p);
    StopLiftedAtClearLatch(c, s, p, e.p);
  }

  lemma OnlyResumeLifts(c: Config, s: State, e: Event, p: Pid)
    requires p in s.procs && s.procs[p].stop && p in Step(c, s, e).procs && !Step(c, s, e).procs[p].stop
    requires e != Restart(p)
    ensures e.Resume?
  { }

  lemma StopLiftedAtClearLatch(c: Config, s: State, p: Pid, o: Pid)
    requires ValidConfig(c) && p in s.procs && s.procs[p].stop && ProcInv(c, p, s.procs[p], s.d, s.h)
    requires var s' := Step(c, s, Resume(o)); p in s'.procs && !s'.procs[p].stop
    ensures o == p && s.procs[p].task.Some? && ClearProven(c, s.procs[p].task.value, s.d.intents)
  {
    assert o == p;
    var q := s.procs[p];
    assert q.task.Some? && q.task.value.reply.Some?;
    if !q.task.value.pc.ClearLatch? { KeepsStop(c, p, s.now, q, s.d, s.h); }
  }

  lemma KeepsStop(c: Config, p: Pid, now: int, q: Proc, d: Durable, h: Hist)
    requires q.task.Some? && q.task.value.reply.Some? && q.stop && !q.task.value.pc.ClearLatch?
    ensures Continue(c, p, now, q, d, h).q.stop
  { }

  lemma MarkStep(c: Config, s: State, p: Pid, w: World)
    requires p in s.procs && s.procs[p].task.Some? && s.procs[p].task.value.reply.None?
    requires s.procs[p].task.value.pc.ClearMark?
    ensures var s' := Step(c, s, Effect(p, w)); s'.d.intents == s.d.intents || Rows(s'.d.intents) == map[]
  {
    assert Rows(MarkReconciled(s.d, s.now).intents) == map[];
  }

  /** The set that the clear marks is the one the operator quoted, and the marking leaves none behind. */
  lemma ClearMarksExactlyTheQuotedSet(c: Config, s0: State, es: seq<Event>, p: Pid, w: World)
    requires ValidConfig(c) && Initial(s0)
    requires var s := Run(c, s0, es); p in s.procs && s.procs[p].task.Some?
    requires var t := Run(c, s0, es).procs[p].task.value; t.reply.None? && t.pc.ClearMark?
    ensures var s := Run(c, s0, es); var t := s.procs[p].task.value; var s' := Step(c, s, Effect(p, w));
      && t.op.Clear? && Rows(s.d.intents) == t.op.expected && StableFlat(c, t.polls)
      && (s'.d.intents == s.d.intents || Rows(s'.d.intents) == map[])
  {
    Reached(c, s0, es);
    var s := Run(c, s0, es);
    assert ProcInv(c, p, s.procs[p], s.d, s.h);
    MarkStep(c, s, p, w);
  }

  lemma EffectVersion(p: Pid, now: int, t: Task, d: Durable, h: Hist, w: World)
    ensures var a := Remote(p, now, t, d, h, w);
      a.d.version >= d.version && (a.d.version == d.version ==> a.d.latched == d.latched)
  { }

  /** The latch version only grows, and every change of the latch moves it. */
  lemma LatchVersionGrows(c: Config, s: State, e: Event)
    ensures var s' := Step(c, s, e);
      s'.d.version >= s.d.version && (s'.d.version == s.d.version ==> s'.d.latched == s.d.latched)
  {
    if e.Effect? && e.p in s.procs && s.procs[e.p].task.Some? {
      EffectVersion(e.p, s.now, s.procs[e.p].task.value, s.d, s.h, e.w);
    }
  }
}
