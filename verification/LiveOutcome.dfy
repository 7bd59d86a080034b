/**
 How an operation that has reached its exchange write comes to its end: with its outcome on record, or with the
 process stopped.
 */
module LiveOutcome {
  import opened Options
  import opened LiveProtocol
  import opened LiveInvariant
  import opened LiveSafety

  /** The awaits after the exchange write was issued, or after the attempt was given up before it. */
  predicate Concluding(pc: Pc) {
    || pc.Write? || pc.FailUpdate? || pc.FailCount? || pc.BadAckUpdate? || pc.BadAckCount? || pc.AckUpdate?
    || pc.AckCount? || pc.Observe? || pc.ObserveLatch? || pc.FinalUpdate? || pc.FinalCount?
  }

  /** The awaits that a process reaches under its emergency stop alone. */
  predicate NeedsStop(pc: Pc) {
    || pc.SurveyLatch? || pc.FinalSurveyLatch? || pc.BadAckUpdate? || pc.BadAckCount? || pc.ObserveLatch?
    || pc == FinalUpdate(false) || pc == FinalCount(false)
  }

  /** What has been recorded about the intent when an await is reached or answered. */
  predicate Recorded(t: Task, m: Intents) {
    t.op.Writer? ==>
      && (t.pc.FailCount? || (t.pc.FailUpdate? && t.reply == Some(Done)) ==> HasStatus(m, t.op.key, t.pc.to))
      && (t.pc.FinalCount? || (t.pc.FinalUpdate? && t.reply == Some(Done)) ==>
            HasStatus(m, t.op.key, if t.pc.ok then Confirmed else Ambiguous))
  }

  predicate HasStatus(m: Intents, k: Key, s: Status) { k in m && m[k].status == s }

  predicate Shaped(t: Task) {
    && (t.pc.Write? && t.reply.Some? ==> t.reply.value.Answered?)
    && (t.pc.Observe? && t.reply.Some? ==> t.reply.value.Observed?)
  }

  predicate Concludes(q: Proc, m: Intents) {
    q.task.Some? ==>
      var t := q.task.value;
      (NeedsStop(t.pc) ==> q.stop) && ToRecord(t.pc) && Recorded(t, m) && Shaped(t)
  }

  ghost predicate AllConclude(s: State) { forall p :: p in s.procs ==> Concludes(s.procs[p], s.d.intents) }

  // ---------------------------------------------------------------- one continuation

  predicate Early(pc: Pc) {
    pc.Acquire? || pc.LatchRead? || pc.IntentRead? || pc.Survey? || pc.SurveyLatch? || pc.Market? || pc.Reserve?
  }

  predicate Sent(pc: Pc) {
    || pc.Write? || pc.FailUpdate? || pc.FailCount? || pc.BadAckUpdate? || pc.BadAckCount? || pc.AckUpdate?
    || pc.AckCount?
  }

  predicate Watching(pc: Pc) { pc.Observe? || pc.ObserveLatch? || pc.FinalUpdate? || pc.FinalCount? }

  predicate ToRecord(pc: Pc) { (pc.FailUpdate? || pc.FailCount?) ==> pc.to == Rejected || pc.to == Ambiguous }

  /** The next await: unanswered, of the same operation, under the stop it needs, and counted after it is recorded. */
  predicate Follows(q: Proc, q': Proc)
    requires q.task.Some?
  {
    q'.task.Some? ==>
      var t, t' := q.task.value, q'.task.value;
      && t'.reply.None? && t'.op == t.op && (NeedsStop(t'.pc) ==> q'.stop)
      && (ToRecord(t.pc) ==> ToRecord(t'.pc))
      && (t'.pc.FailCount? ==> t.reply == Some(Done) && t.pc == FailUpdate(t'.pc.to))
      && (t'.pc.FinalCount? ==> t.reply == Some(Done) && t.pc == FinalUpdate(t'.pc.ok))
  }

  lemma EarlyFollows(c: Config, p: Pid, now: int, q: Proc, d: Durable, h: Hist)
    requires q.task.Some? && q.task.value.reply.Some? && (NeedsStop(q.task.value.pc) ==> q.stop)
    requires Early(q.task.value.pc)
    ensures Follows(q, Continue(c, p, now, q, d, h).q)
  { }

  lemma ReservedFollows(c: Config, p: Pid, now: int, q: Proc, d: Durable, h: Hist)
    requires q.task.Some? && q.task.value.reply.Some? && (NeedsStop(q.task.value.pc) ==> q.stop)
    requires BeforeWrite(q.task.value.pc)
    ensures Follows(q, Continue(c, p, now, q, d, h).q)
  { }

  lemma SentFollows(c: Config, p: Pid, now: int, q: Proc, d: Durable, h: Hist)
    requires q.task.Some? && q.task.value.reply.Some? && (NeedsStop(q.task.value.pc) ==> q.stop)
    requires Sent(q.task.value.pc)
    ensures Follows(q, Continue(c, p, now, q, d, h).q)
  { }

  lemma WatchingFollows(c: Config, p: Pid, now: int, q: Proc, d: Durable, h: Hist)
    requires q.task.Some? && q.task.value.reply.Some? && (NeedsStop(q.task.value.pc) ==> q.stop)
    requires Watching(q.task.value.pc)
    ensures Follows(q, Continue(c, p, now, q, d, h).q)
  { }

  lemma ClearingFollows(c: Config, p: Pid, now: int, q: Proc, d: Durable, h: Hist)
    requires q.task.Some? && q.task.value.reply.Some? && (NeedsStop(q.task.value.pc) ==> q.stop)
    requires Clearing(q.task.value.pc)
    ensures Follows(q, Continue(c, p, now, q, d, h).q)
  { }

  lemma ContinueConcludes(c: Config, p: Pid, now: int, q: Proc, d: Durable, h: Hist)
    requires q.task.Some? && q.task.value.reply.Some? && Concludes(q, d.intents)
    ensures Concludes(Continue(c, p, now, q, d, h).q, d.intents)
  {
    var pc := q.task.value.pc;
    if Early(pc) { EarlyFollows(c, p, now, q, d, h); }
    else if BeforeWrite(pc) { ReservedFollows(c, p, now, q, d, h); }
    else if Sent(pc) { SentFollows(c, p, now, q, d, h); }
    else if Watching(pc) { WatchingFollows(c, p, now, q, d, h); }
    else { ClearingFollows(c, p, now, q, d, h); }
  }

  // ---------------------------------------------------------------- one remote effect

  lemma UpdateRecords(p: Pid, now: int, t: Task, d: Durable, h: Hist, w: World)
    requires t.op.Writer? && t.reply.None? && Recorded(t, d.intents)
    ensures var a := Remote(p, now, t, d, h, w); Recorded(t.(reply := Some(a.reply)), a.d.intents)
  { }

  lemma AnswerShaped(p: Pid, now: int, t: Task, d: Durable, h: Hist, w: World)
    ensures Shaped(t.(reply := Some(Remote(p, now, t, d, h, w).reply)))
  { }

  lemma EffectConcludes(p: Pid, now: int, q: Proc, d: Durable, h: Hist, w: World)
    requires q.task.Some? && q.task.value.reply.None? && Concludes(q, d.intents)
    ensures var a := Remote(p, now, q.task.value, d, h, w);
      Concludes(q.(task := Some(q.task.value.(reply := Some(a.reply)))), a.d.intents)
  {
    AnswerShaped(p, now, q.task.value, d, h, w);
    if q.task.value.op.Writer? { UpdateRecords(p, now, q.task.value, d, h, w); }
  }

  /** Whoever does not hold the guard changes no intent. */
  lemma OthersKeepIntents(c: Config, s: State, p: Pid, w: World)
    requires Inv(c, s) && p in s.procs && s.procs[p].task.Some? && s.procs[p].task.value.reply.None?
    ensures !Holds(s.procs[p]) ==> Step(c, s, Effect(p, w)).d.intents == s.d.intents
  { }

  lemma IdleRecords(q: Proc, m: Intents, m': Intents)
    requires Concludes(q, m) && !Holds(q)
    ensures Concludes(q, m')
  { }

  lemma EffectKeeps(c: Config, s: State, p: Pid, w: World)
    requires Inv(c, s) && AllConclude(s) && p in s.procs && s.procs[p].task.Some? && s.procs[p].task.value.reply.None?
    ensures AllConclude(Step(c, s, Effect(p, w)))
  {
    var s' := Step(c, s, Effect(p, w));
    EffectConcludes(p, s.now, s.procs[p], s.d, s.h, w);
    OthersKeepIntents(c, s, p, w);
    forall o | o in s'.procs ensures Concludes(s'.procs[o], s'.d.intents) {
      if o != p && Holds(s.procs[p]) {
        assert ProcInv(c, o, s.procs[o], s.d, s.h) && ProcInv(c, p, s.procs[p], s.d, s.h);
        IdleRecords(s.procs[o], s.d.intents, s'.d.intents);
      }
    }
  }

  // ---------------------------------------------------------------- every run

  lemma LocalConcludes(q: Proc, q': Proc, m: Intents)
    requires Concludes(q, m) && (q'.task.None? || (q'.task == q.task && (q.stop ==> q'.stop)))
    ensures Concludes(q', m)
  { }

  lemma PutConcludes(s: State, p: Pid, n: Next)
    requires AllConclude(s) && p in s.procs && Concludes(n.q, s.d.intents)
    ensures AllConclude(Put(s, p, n))
  { }

  lemma BeginConcludes(s: State, p: Pid, op: Op)
    requires AllConclude(s) && p in s.procs
    ensures AllConclude(Put(s, p, Next(Started(s.procs[p], s.now, op), s.h)))
  {
    var q' := Started(s.procs[p], s.now, op);
    if q'.task == s.procs[p].task { LocalConcludes(s.procs[p], q', s.d.intents); }
    PutConcludes(s, p, Next(q', s.h));
  }

  lemma StepConcludes(c: Config, s: State, e: Event)
    requires Inv(c, s) && AllConclude(s)
    ensures AllConclude(Step(c, s, e))
  {
    match e
    case Tick(_) =>
    case LatchNow =>
    case Begin(p, op) => if p in s.procs { BeginConcludes(s, p, op); }
    case Effect(p, w) =>
      if p in s.procs && s.procs[p].task.Some? && s.procs[p].task.value.reply.None? { EffectKeeps(c, s, p, w); }
    case Resume(p) =>
      if p in s.procs && s.procs[p].task.Some? && s.procs[p].task.value.reply.Some? {
        ContinueConcludes(c, p, s.now, s.procs[p], s.d, s.h);
        PutConcludes(s, p, Continue(c, p, s.now, s.procs[p], s.d, s.h));
      }
    case CancelTask(p) => if p in s.procs && s.procs[p].task.Some? { CancelConcludes(s, p); }
    case Restart(p) => if p in s.procs { PutConcludes(s, p, Next(FRESH_PROC, s.h)); }
    case DisarmNow(p) => if p in s.procs { LocalStep(s, p, Disarm(s.procs[p], false)); }
    case StopNow(p) => if p in s.procs { LocalStep(s, p, Engage(s.procs[p])); }
    case ExpireNow(p) => if p in s.procs { LocalStep(s, p, Expire(s.procs[p], s.now)); }
  }

  lemma CancelConcludes(s: State, p: Pid)
    requires AllConclude(s) && p in s.procs && s.procs[p].task.Some?
    ensures AllConclude(Put(s, p, Cancelled(s.procs[p], s.d, s.h)))
  {
    assert Cancelled(s.procs[p], s.d, s.h).q.task.None?;
    PutConcludes(s, p, Cancelled(s.procs[p], s.d, s.h));
  }

  lemma LocalStep(s: State, p: Pid, q': Proc)
    requires AllConclude(s) && p in s.procs && q'.task == s.procs[p].task && (s.procs[p].stop ==> q'.stop)
    ensures AllConclude(Put(s, p, Next(q', s.h)))
  {
    LocalConcludes(s.procs[p], q', s.d.intents);
    PutConcludes(s, p, Next(q', s.h));
  }

  lemma {:induction false} RunConcludes(c: Config, s: State, es: seq<Event>)
    requires ValidConfig(c) && Inv(c, s) && AllConclude(s)
    ensures AllConclude(Run(c, s, es))
    decreases |es|
  {
    if es != [] {
      StepConcludes(c, s, es[0]);
      StepKept(c, s, es[0]);
      RunConcludes(c, Step(c, s, es[0]), es[1..]);
    }
  }

  /** Its outcome is on record for good. */
  predicate OnRecord(m: Intents, k: Key) { k in m && (m[k].status == Confirmed || m[k].status == Rejected) }

  lemma EndsHow(c: Config, p: Pid, now: int, q: Proc, d: Durable, h: Hist)
    requires q.task.Some? && q.task.value.reply.Some? && Concludes(q, d.intents)
    requires q.task.value.op.Writer? && Concluding(q.task.value.pc) && Continue(c, p, now, q, d, h).q.task.None?
    ensures var q' := Continue(c, p, now, q, d, h).q; var t := q.task.value;
      q'.stop || OnRecord(d.intents, t.op.key) || (t.pc == FailUpdate(Rejected) && t.reply != Some(Done))
  { }

  /**
   In every run, an operation that comes to its end after its exchange write leaves the process stopped, or the
   outcome on record as confirmed or rejected; the one exception is a refusal whose own recording has failed.
   */
  lemma SettledOrStopped(c: Config, s0: State, es: seq<Event>, p: Pid)
    requires ValidConfig(c) && Initial(s0)
    requires var s := Run(c, s0, es); p in s.procs && s.procs[p].task.Some? && s.procs[p].task.value.reply.Some?
    requires var t := Run(c, s0, es).procs[p].task.value; t.op.Writer? && Concluding(t.pc)
    requires Step(c, Run(c, s0, es), Resume(p)).procs[p].task.None?
    ensures var s := Run(c, s0, es); var s', t := Step(c, s, Resume(p)), s.procs[p].task.value;
      || s'.procs[p].stop || OnRecord(s'.d.intents, t.op.key)
      || (t.pc == FailUpdate(Rejected) && t.reply != Some(Done))
  {
    RunConcludes(c, s0, es);
    var s := Run(c, s0, es);
    assert Concludes(s.procs[p], s.d.intents);
    EndsHow(c, p, s.now, s.procs[p], s.d, s.h);
  }

  // ---------------------------------------------------------------- what the exchange's answers decide

  /** A running operation on a write of this kind that has just received this answer. */
  predicate Got(q: Proc, kind: Kind, pc: Pc, r: Reply) {
    && q.task.Some? && q.task.value.op.Writer? && q.task.value.op.kind == kind && q.task.value.pc == pc
    && q.task.value.reply == Some(r)
  }

  predicate GoesTo(q: Proc, pc: Pc) { q.task.Some? && q.task.value.pc == pc && q.task.value.reply == None }

  /** A refusal is recorded as such, an unknown outcome as ambiguous, and only an accepted order counts. */
  lemma AnswerDecides(c: Config, p: Pid, now: int, q: Proc, d: Durable, h: Hist, kind: Kind, a: Answer)
    requires Got(q, kind, Write, Answered(a))
    ensures var q' := Continue(c, p, now, q, d, h).q;
      && (a == Refused ==> GoesTo(q', FailUpdate(Rejected))) && (a == Unknown ==> GoesTo(q', FailUpdate(Ambiguous)))
      && (a == Accepted(true) ==> GoesTo(q', AckUpdate))
      && (a == Accepted(false) && (kind == Place || kind == Cancel) ==> GoesTo(q', BadAckUpdate) && q'.stop)
      && (a == Accepted(false) && kind == Leverage ==> GoesTo(q', FailUpdate(Ambiguous)))
      && q'.submissions == q.submissions + (if kind == Place && a.Accepted? then 1 else 0)
      && (a != Accepted(false) ==> q'.stop == q.stop && q'.armedUntil == q.armedUntil)
  { }

  /** One position beside its one exact protection, and nothing else. */
  predicate OneProtected(a: Snapshot) { a.orders == 0 && a.positions == 1 && a.algos == 1 && a.exactlyProtected }

  /**
   What is seen after an acknowledged order decides, exactly: without a snapshot, or with exposure that is not one
   protected position, the process stops and latches; an order that is not settled stops it too.
   */
  lemma OrderObservationDecides(c: Config, p: Pid, now: int, q: Proc, d: Durable, h: Hist, o: Observation)
    requires Got(q, Place, Observe, Observed(o))
    ensures var q' := Continue(c, p, now, q, d, h).q;
      var alarm := o.snap.None? || (o.snap.value.instrumentExposed && !OneProtected(o.snap.value));
      && (alarm ==> q'.stop && GoesTo(q', ObserveLatch(SeenFinal(o))))
      && (!alarm && SeenFinal(o) ==> q'.stop == q.stop && GoesTo(q', FinalUpdate(true)))
      && (!alarm && !SeenFinal(o) ==> q'.stop && GoesTo(q', if q.stop then FinalUpdate(false) else ObserveLatch(false)))
  { }

  /** After any other acknowledged write an unprotected position stops and latches, an unconfirmed effect stops. */
  lemma WriteObservationDecides(c: Config, p: Pid, now: int, q: Proc, d: Durable, h: Hist, kind: Kind, o: Observation)
    requires kind != Place && Got(q, kind, Observe, Observed(o))
    ensures var q' := Continue(c, p, now, q, d, h).q;
      && (o.unprotected ==> q'.stop && GoesTo(q', ObserveLatch(o.effectConfirmed)))
      && (!o.unprotected ==> GoesTo(q', FinalUpdate(o.effectConfirmed)))
      && (q'.stop <==> q.stop || o.unprotected || !o.effectConfirmed)
  { }

  /** A failure on the way to an order's call is recorded as refused when it was explicit, else as ambiguous. */
  lemma FailureDecides(c: Config, p: Pid, now: int, q: Proc, d: Durable, h: Hist, pc: Pc, explicit: bool)
    requires (pc == Preflight || pc == FinalSurvey) && Got(q, Place, pc, Failed(explicit))
    ensures var q' := Continue(c, p, now, q, d, h).q;
      GoesTo(q', FailUpdate(if explicit then Rejected else Ambiguous)) && q'.stop == q.stop
  { }

  /** After the latch an outcome is recorded; an order whose latch write failed ends at once, its process stopped. */
  lemma LatchAnswerDecides(c: Config, p: Pid, now: int, q: Proc, d: Durable, h: Hist, kind: Kind, ok: bool, r: Reply)
    requires Got(q, kind, ObserveLatch(ok), r)
    ensures var q' := Continue(c, p, now, q, d, h).q;
      && q'.stop == q.stop
      && (if kind == Place && r != Done then q'.task == None else GoesTo(q', FinalUpdate(ok)))
  { }
}
