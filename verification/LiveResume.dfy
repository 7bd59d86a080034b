/**
 The local continuations of guarded operations keep the invariant of the live write protocol.
 */
module LiveResume {
  import opened Options
  import opened LiveProtocol
  import opened LiveInvariant

  ghost predicate NextOk(c: Config, p: Pid, q: Proc, d: Durable, h: Hist, n: Next) {
    var d' := Unlock(d, p, n.q);
    HistInv(c, d'.intents, n.h) && ProcInv(c, p, n.q, d', n.h) && Rely(p, d, h, d', n.h)
  }

  /** The process keeps at most the arm it had. */
  predicate ArmShrinks(q: Proc, q': Proc) {
    (q'.armedUntil.Some? ==> q'.armedUntil == q.armedUntil && q'.arm == q.arm && !q'.stop)
  }

  /** The operation is over: nothing it was finishing may still be owed to an armed process. */
  lemma EndOk(c: Config, p: Pid, q: Proc, d: Durable, h: Hist, q': Proc)
    requires Ready(c, p, q, d, h) && q'.task.None? && ArmShrinks(q, q')
    requires q'.armedUntil.Some? ==> forall k :: !Finishing(q, k)
    ensures NextOk(c, p, q, d, h, Next(q', h))
  {
    SettledSame(p, q, q', d.intents, h);
    RelySame(p, d, h, Unlock(d, p, q'));
  }

  /** The operation goes on to another await. */
  lemma GoOk(c: Config, p: Pid, q: Proc, d: Durable, h: Hist, q': Proc)
    requires Ready(c, p, q, d, h) && Holds(q) && q'.task.Some? && !q'.task.value.pc.Acquire? && ArmShrinks(q, q')
    requires q'.armedUntil.Some? ==> forall k :: Finishing(q, k) ==> Finishing(q', k)
    requires PastDisarm(q'.task.value) ==> q'.armedUntil.None?
    requires TaskInv(c, p, q'.task.value, d.intents, h)
    ensures NextOk(c, p, q, d, h, Next(q', h))
  {
    SettledSame(p, q, q', d.intents, h);
    RelySame(p, d, h, d);
  }

  ghost predicate Resuming(c: Config, p: Pid, q: Proc, d: Durable, h: Hist) {
    Ready(c, p, q, d, h) && q.task.value.reply.Some?
  }

  /** What a continuation may use about its own process without looking at the history of calls. */
  ghost predicate Local(c: Config, p: Pid, q: Proc, m: Intents, h: Hist) {
    && q.task.Some? && q.task.value.reply.Some? && TaskInv(c, p, q.task.value, m, h)
    && (q.stop ==> q.armedUntil.None?) && (PastDisarm(q.task.value) ==> q.armedUntil.None?)
  }

  /** A continuation that leaves the history alone. */
  ghost predicate Smooth(c: Config, p: Pid, q: Proc, m: Intents, h: Hist, n: Next)
    requires q.task.Some?
  {
    && n.h == h && ArmShrinks(q, n.q)
    && (if n.q.task.None? then n.q.armedUntil.Some? ==> forall k :: !Finishing(q, k)
        else && !n.q.task.value.pc.Acquire? && TaskInv(c, p, n.q.task.value, m, h)
             && (PastDisarm(n.q.task.value) ==> n.q.armedUntil.None?)
             && (n.q.armedUntil.Some? ==> forall k :: Finishing(q, k) ==> Finishing(n.q, k)))
  }

  lemma SmoothOk(c: Config, p: Pid, q: Proc, d: Durable, h: Hist, n: Next)
    requires Resuming(c, p, q, d, h) && Smooth(c, p, q, d.intents, h, n) && (n.q.task.Some? ==> Holds(q))
    ensures NextOk(c, p, q, d, h, n)
  {
    if n.q.task.None? { EndOk(c, p, q, d, h, n.q); } else { GoOk(c, p, q, d, h, n.q); }
  }

  /** A task that has not reserved anything yet and is not clearing. */
  lemma FreeTask(c: Config, p: Pid, t: Task, m: Intents, h: Hist)
    requires PcFits(t) && !t.op.Clear? && t.reply.None? && !Owns(t)
    requires Exclusive(t) && (t.pc.Survey? || t.pc.SurveyLatch? || t.pc.Market? || t.pc.Reserve?) ==> Rows(m) == map[]
    ensures TaskInv(c, p, t, m, h)
  { }

  /** A clearing task owns nothing. */
  lemma ClearTask(c: Config, p: Pid, t: Task, m: Intents, h: Hist)
    requires PcFits(t) && t.op.Clear? && t.reply.None? && ClearInv(c, t, m, h)
    ensures TaskInv(c, p, t, m, h)
  { }

  /** What the stage of an owning task says about its own intent. */
  ghost predicate StageFits(t: Task, m: Intents, h: Hist)
    requires t.op.Writer? && t.op.key in m
  {
    var st := m[t.op.key].status;
    && (t.pc.Write? ==> st.Reserved?)
    && (t.pc.FailUpdate? || t.pc.FailCount? ==> FailInv(t, m, h))
    && (t.pc.AckUpdate? ==> st.Reserved? || st.Acknowledged?)
    && (t.pc.AckCount? || t.pc.Observe? || t.pc.ObserveLatch? ==> st.Acknowledged?)
    && (t.pc.BadAckUpdate? || t.pc.BadAckCount? ==> st.Reserved? || st.Ambiguous?)
    && (t.op.kind.Place? && ((t.pc.ObserveLatch? && t.pc.ok) || (t.pc.FinalUpdate? && t.pc.ok)) ==>
          t.op.key in h.observed && ConfirmsOrder(h.observed[t.op.key]))
  }

  lemma OwnedTask(c: Config, p: Pid, t: Task, t': Task, m: Intents, h: Hist)
    requires TaskInv(c, p, t, m, h) && Owns(t) && t'.op == t.op && t'.reply.None? && PcFits(t')
    requires AfterReserve(t'.pc) && (BeforeWrite(t'.pc) ==> BeforeWrite(t.pc) || t.pc.Reserve?)
    requires StageFits(t', m, h)
    ensures TaskInv(c, p, t', m, h)
  { }

  lemma EnteredSmooth(c: Config, p: Pid, q: Proc, m: Intents, h: Hist)
    requires Local(c, p, q, m, h) && q.task.value.pc.Acquire? && !q.task.value.op.Clear?
    ensures Smooth(c, p, q, m, h, Next(Entered(q), h))
  {
    FreeTask(c, p, Entered(q).task.value, m, h);
  }

  lemma EnteredClearSmooth(c: Config, p: Pid, q: Proc, m: Intents, h: Hist)
    requires Local(c, p, q, m, h) && q.task.value.pc.Acquire? && q.task.value.op.Clear?
    ensures Smooth(c, p, q, m, h, Next(Entered(q), h))
  {
    ClearTask(c, p, Entered(q).task.value, m, h);
  }

  lemma AcquireSmooth(c: Config, p: Pid, q: Proc, m: Intents, h: Hist)
    requires Local(c, p, q, m, h) && q.task.value.pc.Acquire?
    ensures var r := q.task.value.reply.value;
      Smooth(c, p, q, m, h, Next(if r.LockTaken? then Entered(q) else End(q), h))
  {
    if q.task.value.op.Clear? { EnteredClearSmooth(c, p, q, m, h); } else { EnteredSmooth(c, p, q, m, h); }
  }

  lemma LatchSmooth(c: Config, p: Pid, q: Proc, m: Intents, h: Hist)
    requires Local(c, p, q, m, h) && q.task.value.pc.LatchRead?
    ensures var r := q.task.value.reply.value; Smooth(c, p, q, m, h, Next(LatchWasRead(q, r), h))
  {
    var r := q.task.value.reply.value;
    var n := Next(LatchWasRead(q, r), h);
    if n.q.task.Some? { FreeTask(c, p, n.q.task.value, m, h); }
  }

  lemma SurveyLatchSmooth(c: Config, p: Pid, q: Proc, m: Intents, h: Hist)
    requires Local(c, p, q, m, h) && q.task.value.pc.SurveyLatch?
    ensures var r := q.task.value.reply.value; Smooth(c, p, q, m, h, Next(SurveyLatched(q, r), h))
  {
    var r := q.task.value.reply.value;
    var n := Next(SurveyLatched(q, r), h);
    if n.q.task.Some? { FreeTask(c, p, n.q.task.value, m, h); }
  }

  lemma MarketSmooth(c: Config, p: Pid, q: Proc, m: Intents, h: Hist)
    requires Local(c, p, q, m, h) && q.task.value.pc.Market?
    ensures var r := q.task.value.reply.value;
      Smooth(c, p, q, m, h, Next(if r.Done? then Go(q, Reserve) else End(q), h))
  {
    var r := q.task.value.reply.value;
    var n := Next(if r.Done? then Go(q, Reserve) else End(q), h);
    if n.q.task.Some? { FreeTask(c, p, n.q.task.value, m, h); }
  }

  lemma ReserveSmooth(c: Config, p: Pid, q: Proc, m: Intents, h: Hist)
    requires Local(c, p, q, m, h) && q.task.value.pc.Reserve?
    ensures var r := q.task.value.reply.value;
      Smooth(c, p, q, m, h, Next(if r.Done? then Go(q, ReserveCount) else End(q), h))
  { }

  lemma SurveyPlaceSmooth(c: Config, p: Pid, q: Proc, m: Intents, h: Hist)
    requires Local(c, p, q, m, h) && q.task.value.pc.Survey?
    requires q.task.value.op.Writer? && q.task.value.op.kind.Place?
    ensures var r := q.task.value.reply.value;
      Smooth(c, p, q, m, h, Next(if r.Account? then Surveyed(c, q, r.snap) else End(q), h))
  {
    var r := q.task.value.reply.value;
    var n := Next(if r.Account? then Surveyed(c, q, r.snap) else End(q), h);
    if n.q.task.Some? { FreeTask(c, p, n.q.task.value, m, h); }
  }

  lemma SurveyFreeSmooth(c: Config, p: Pid, q: Proc, m: Intents, h: Hist)
    requires Local(c, p, q, m, h) && q.task.value.pc.Survey? && !q.task.value.op.Writer?
    ensures var r := q.task.value.reply.value;
      Smooth(c, p, q, m, h, Next(if r.Account? then Surveyed(c, q, r.snap) else End(q), h))
  {
    var r := q.task.value.reply.value;
    var n := Next(if r.Account? then Surveyed(c, q, r.snap) else End(q), h);
    if n.q.task.Some? { FreeTask(c, p, n.q.task.value, m, h); }
  }

  lemma SurveyLeverageSmooth(c: Config, p: Pid, q: Proc, m: Intents, h: Hist)
    requires Local(c, p, q, m, h) && q.task.value.pc.Survey? && q.task.value.op.Writer?
    requires q.task.value.op.kind.Leverage?
    ensures var r := q.task.value.reply.value;
      Smooth(c, p, q, m, h, Next(if r.Account? then Surveyed(c, q, r.snap) else End(q), h))
  {
    var r := q.task.value.reply.value;
    var n := Next(if r.Account? then Surveyed(c, q, r.snap) else End(q), h);
    if n.q.task.Some? { FreeTask(c, p, n.q.task.value, m, h); }
  }

  lemma SurveyReduceSmooth(c: Config, p: Pid, q: Proc, m: Intents, h: Hist)
    requires Local(c, p, q, m, h) && q.task.value.pc.Survey? && q.task.value.op.Writer?
    requires q.task.value.op.kind.Cancel? || q.task.value.op.kind.Close?
    ensures var r := q.task.value.reply.value;
      Smooth(c, p, q, m, h, Next(if r.Account? then Surveyed(c, q, r.snap) else End(q), h))
  {
    var r := q.task.value.reply.value;
    var n := Next(if r.Account? then Surveyed(c, q, r.snap) else End(q), h);
    if n.q.task.Some? { FreeTask(c, p, n.q.task.value, m, h); }
  }

  lemma SurveySmooth(c: Config, p: Pid, q: Proc, m: Intents, h: Hist)
    requires Local(c, p, q, m, h) && q.task.value.pc.Survey?
    ensures var r := q.task.value.reply.value;
      Smooth(c, p, q, m, h, Next(if r.Account? then Surveyed(c, q, r.snap) else End(q), h))
  {
    var op := q.task.value.op;
    if !op.Writer? { SurveyFreeSmooth(c, p, q, m, h); }
    else if op.kind.Place? { SurveyPlaceSmooth(c, p, q, m, h); }
    else if op.kind.Leverage? { SurveyLeverageSmooth(c, p, q, m, h); }
    else { SurveyReduceSmooth(c, p, q, m, h); }
  }

  lemma PreflightSmooth(c: Config, p: Pid, q: Proc, m: Intents, h: Hist)
    requires Local(c, p, q, m, h) && q.task.value.pc.Preflight?
    ensures var r := q.task.value.reply.value;
      Smooth(c, p, q, m, h, Next(if r.Done? then Go(q, FinalSurvey) else Go(q, FailPc(r.Failed? && r.explicit)), h))
  {
    var r := q.task.value.reply.value;
    var n := Next(if r.Done? then Go(q, FinalSurvey) else Go(q, FailPc(r.Failed? && r.explicit)), h);
    if n.q.task.Some? { OwnedTask(c, p, q.task.value, n.q.task.value, m, h); }
  }

  lemma FinalSurveyReadSmooth(c: Config, p: Pid, q: Proc, m: Intents, h: Hist)
    requires Local(c, p, q, m, h) && q.task.value.pc.FinalSurvey?
    requires q.task.value.reply.value.Account?
    ensures var r := q.task.value.reply.value; Smooth(c, p, q, m, h, Next(FinallySurveyed(c, q, r), h))
  {
    var r := q.task.value.reply.value;
    var n := Next(FinallySurveyed(c, q, r), h);
    if n.q.task.Some? { OwnedTask(c, p, q.task.value, n.q.task.value, m, h); }
  }

  lemma FinalSurveyFailedSmooth(c: Config, p: Pid, q: Proc, m: Intents, h: Hist)
    requires Local(c, p, q, m, h) && q.task.value.pc.FinalSurvey?
    requires !(q.task.value.reply.value.Account?)
    ensures var r := q.task.value.reply.value; Smooth(c, p, q, m, h, Next(FinallySurveyed(c, q, r), h))
  {
    var r := q.task.value.reply.value;
    var n := Next(FinallySurveyed(c, q, r), h);
    if n.q.task.Some? { OwnedTask(c, p, q.task.value, n.q.task.value, m, h); }
  }

  lemma FinalSurveySmooth(c: Config, p: Pid, q: Proc, m: Intents, h: Hist)
    requires Local(c, p, q, m, h) && q.task.value.pc.FinalSurvey?
    ensures var r := q.task.value.reply.value; Smooth(c, p, q, m, h, Next(FinallySurveyed(c, q, r), h))
  {
    if q.task.value.reply.value.Account? {
      FinalSurveyReadSmooth(c, p, q, m, h);
    } else {
      FinalSurveyFailedSmooth(c, p, q, m, h);
    }
  }

  lemma FinalSurveyLatchSmooth(c: Config, p: Pid, q: Proc, m: Intents, h: Hist)
    requires Local(c, p, q, m, h) && q.task.value.pc.FinalSurveyLatch?
    ensures var r := q.task.value.reply.value; Smooth(c, p, q, m, h, Next(Go(q, FailUpdate(Ambiguous)), h))
  { }

  lemma FinalMarketSmooth(c: Config, p: Pid, q: Proc, m: Intents, h: Hist)
    requires Local(c, p, q, m, h) && q.task.value.pc.FinalMarket?
    ensures var r := q.task.value.reply.value;
      Smooth(c, p, q, m, h, Next(Go(q, if r.Done? then FinalLatchRead else FailUpdate(Ambiguous)), h))
  {
    var r := q.task.value.reply.value;
    var n := Next(Go(q, if r.Done? then FinalLatchRead else FailUpdate(Ambiguous)), h);
    if n.q.task.Some? { OwnedTask(c, p, q.task.value, n.q.task.value, m, h); }
  }

  lemma AcceptedOrderSmooth(c: Config, p: Pid, q: Proc, m: Intents, h: Hist, usable: bool)
    requires Local(c, p, q, m, h) && q.task.value.pc.Write? && q.task.value.op.Writer? && q.task.value.op.kind.Place?
    requires q.task.value.reply == Some(Answered(Accepted(usable)))
    ensures Smooth(c, p, q, m, h, Next(WriteAnswered(q, Accepted(usable)), h))
  {
    OwnedTask(c, p, q.task.value, WriteAnswered(q, Accepted(usable)).task.value, m, h);
  }

  lemma AcceptedOtherSmooth(c: Config, p: Pid, q: Proc, m: Intents, h: Hist, usable: bool)
    requires Local(c, p, q, m, h) && q.task.value.pc.Write?
    requires !(q.task.value.op.Writer? && q.task.value.op.kind.Place?)
    requires q.task.value.reply == Some(Answered(Accepted(usable)))
    ensures Smooth(c, p, q, m, h, Next(WriteAnswered(q, Accepted(usable)), h))
  {
    var n := WriteAnswered(q, Accepted(usable));
    if n.task.Some? { OwnedTask(c, p, q.task.value, n.task.value, m, h); }
  }

  lemma AcceptedSmooth(c: Config, p: Pid, q: Proc, m: Intents, h: Hist)
    requires Local(c, p, q, m, h) && q.task.value.pc.Write?
    requires q.task.value.reply.value.Answered? && q.task.value.reply.value.answer.Accepted?
    ensures var r := q.task.value.reply.value;
      Smooth(c, p, q, m, h, Next(if r.Answered? then WriteAnswered(q, r.answer) else End(q), h))
  {
    var usable := q.task.value.reply.value.answer.usable;
    if q.task.value.op.Writer? && q.task.value.op.kind.Place? { AcceptedOrderSmooth(c, p, q, m, h, usable); }
    else { AcceptedOtherSmooth(c, p, q, m, h, usable); }
  }

  lemma UnacceptedSmooth(c: Config, p: Pid, q: Proc, m: Intents, h: Hist)
    requires Local(c, p, q, m, h) && q.task.value.pc.Write?
    requires !(q.task.value.reply.value.Answered? && q.task.value.reply.value.answer.Accepted?)
    ensures var r := q.task.value.reply.value;
      Smooth(c, p, q, m, h, Next(if r.Answered? then WriteAnswered(q, r.answer) else End(q), h))
  {
    var r := q.task.value.reply.value;
    var n := Next(if r.Answered? then WriteAnswered(q, r.answer) else End(q), h);
    if n.q.task.Some? { OwnedTask(c, p, q.task.value, n.q.task.value, m, h); }
  }

  lemma WriteSmooth(c: Config, p: Pid, q: Proc, m: Intents, h: Hist)
    requires Local(c, p, q, m, h) && q.task.value.pc.Write?
    ensures var r := q.task.value.reply.value;
      Smooth(c, p, q, m, h, Next(if r.Answered? then WriteAnswered(q, r.answer) else End(q), h))
  {
    if q.task.value.reply.value.Answered? && q.task.value.reply.value.answer.Accepted? {
      AcceptedSmooth(c, p, q, m, h);
    } else {
      UnacceptedSmooth(c, p, q, m, h);
    }
  }

  lemma BadAckSmooth(c: Config, p: Pid, q: Proc, m: Intents, h: Hist)
    requires Local(c, p, q, m, h) && q.task.value.pc.BadAckUpdate?
    ensures var r := q.task.value.reply.value;
      Smooth(c, p, q, m, h, Next(if r.Done? then Go(q, BadAckCount) else End(q), h))
  {
    var r := q.task.value.reply.value;
    var n := Next(if r.Done? then Go(q, BadAckCount) else End(q), h);
    if n.q.task.Some? { OwnedTask(c, p, q.task.value, n.q.task.value, m, h); }
  }

  lemma BadAckCountSmooth(c: Config, p: Pid, q: Proc, m: Intents, h: Hist)
    requires Local(c, p, q, m, h) && (q.task.value.pc.BadAckCount? || q.task.value.pc.FinalCount?)
    ensures var r := q.task.value.reply.value;
      Smooth(c, p, q, m, h, Next(if r.Done? then End(q) else End(Engage(q)), h))
  { }

  lemma AckSmooth(c: Config, p: Pid, q: Proc, m: Intents, h: Hist)
    requires Local(c, p, q, m, h) && q.task.value.pc.AckUpdate?
    ensures var r := q.task.value.reply.value; Smooth(c, p, q, m, h, Next(Acknowledging(q, r, AckCount), h))
  {
    var r := q.task.value.reply.value;
    var n := Next(Acknowledging(q, r, AckCount), h);
    if n.q.task.Some? { OwnedTask(c, p, q.task.value, n.q.task.value, m, h); }
  }

  lemma AckCountSmooth(c: Config, p: Pid, q: Proc, m: Intents, h: Hist)
    requires Local(c, p, q, m, h) && q.task.value.pc.AckCount?
    ensures var r := q.task.value.reply.value; Smooth(c, p, q, m, h, Next(AckCounted(q, r), h))
  {
    var r := q.task.value.reply.value;
    var n := Next(AckCounted(q, r), h);
    if n.q.task.Some? { OwnedTask(c, p, q.task.value, n.q.task.value, m, h); }
  }

  lemma ObservePlaceSmooth(c: Config, p: Pid, q: Proc, m: Intents, h: Hist)
    requires Local(c, p, q, m, h) && q.task.value.pc.Observe?
    requires q.task.value.op.Writer? && q.task.value.op.kind.Place?
    ensures var r := q.task.value.reply.value;
      Smooth(c, p, q, m, h, Next(if r.Observed? then WriteObserved(q, r.obs) else End(q), h))
  {
    var r := q.task.value.reply.value;
    var n := Next(if r.Observed? then WriteObserved(q, r.obs) else End(q), h);
    if n.q.task.Some? { OwnedTask(c, p, q.task.value, n.q.task.value, m, h); }
  }

  lemma ObserveOtherSmooth(c: Config, p: Pid, q: Proc, m: Intents, h: Hist)
    requires Local(c, p, q, m, h) && q.task.value.pc.Observe?
    requires !(q.task.value.op.Writer? && q.task.value.op.kind.Place?)
    ensures var r := q.task.value.reply.value;
      Smooth(c, p, q, m, h, Next(if r.Observed? then WriteObserved(q, r.obs) else End(q), h))
  {
    var r := q.task.value.reply.value;
    var n := Next(if r.Observed? then WriteObserved(q, r.obs) else End(q), h);
    if n.q.task.Some? { OwnedTask(c, p, q.task.value, n.q.task.value, m, h); }
  }

  lemma ObserveSmooth(c: Config, p: Pid, q: Proc, m: Intents, h: Hist)
    requires Local(c, p, q, m, h) && q.task.value.pc.Observe?
    ensures var r := q.task.value.reply.value;
      Smooth(c, p, q, m, h, Next(if r.Observed? then WriteObserved(q, r.obs) else End(q), h))
  {
    if q.task.value.op.Writer? && q.task.value.op.kind.Place? {
      ObservePlaceSmooth(c, p, q, m, h);
    } else {
      ObserveOtherSmooth(c, p, q, m, h);
    }
  }

  lemma ObserveLatchSmooth(c: Config, p: Pid, q: Proc, m: Intents, h: Hist)
    requires Local(c, p, q, m, h) && q.task.value.pc.ObserveLatch?
    ensures var r := q.task.value.reply.value;
      Smooth(c, p, q, m, h, Next(ObservationLatched(q, q.task.value.pc.ok, r), h))
  {
    var r := q.task.value.reply.value;
    var n := Next(ObservationLatched(q, q.task.value.pc.ok, r), h);
    if n.q.task.Some? { OwnedTask(c, p, q.task.value, n.q.task.value, m, h); }
  }

  lemma FinalSmooth(c: Config, p: Pid, q: Proc, m: Intents, h: Hist)
    requires Local(c, p, q, m, h) && q.task.value.pc.FinalUpdate?
    ensures var r := q.task.value.reply.value;
      Smooth(c, p, q, m, h, Next(Acknowledging(q, r, FinalCount(q.task.value.pc.ok)), h))
  {
    var r := q.task.value.reply.value;
    var n := Next(Acknowledging(q, r, FinalCount(q.task.value.pc.ok)), h);
    if n.q.task.Some? { OwnedTask(c, p, q.task.value, n.q.task.value, m, h); }
  }

  lemma PolledTask(c: Config, p: Pid, t: Task, t': Task, m: Intents, h: Hist, x: Poll)
    requires TaskInv(c, p, t, m, h) && t.op.Clear? && t.pc.ClearPoll?
    requires x.snap.Flat() && x.orders.Some? && SameAsFirst(t.polls, x)
    requires t' == t.(polls := t.polls + [x], pc := t'.pc, reply := None)
    requires t'.pc == if |t.polls| + 1 < c.flatPolls then ClearPoll else ClearMark
    ensures TaskInv(c, p, t', m, h)
  {
    assert Rows(m) == t.op.expected;
    forall k | k in t.op.expected ensures k in m && IsUnresolved(m[k]) { assert k in Rows(m); }
    ClearTask(c, p, t', m, h);
  }

  lemma PollSmooth(c: Config, p: Pid, q: Proc, m: Intents, h: Hist)
    requires Local(c, p, q, m, h) && q.task.value.pc.ClearPoll?
    ensures var r := q.task.value.reply.value; Smooth(c, p, q, m, h, Next(PollSeen(c, q, r), h))
  {
    var n := PollSeen(c, q, q.task.value.reply.value);
    if n.task.Some? { PolledTask(c, p, q.task.value, n.task.value, m, h, q.task.value.reply.value.poll); }
  }

  lemma ClearStartSmooth(c: Config, p: Pid, now: int, q: Proc, d: Durable, h: Hist)
    requires Local(c, p, q, d.intents, h) && (q.task.value.pc.ClearLatchRead? || q.task.value.pc.ClearIntentRead?)
    ensures Smooth(c, p, q, d.intents, h, Continue(c, p, now, q, d, h))
  {
    var n := Continue(c, p, now, q, d, h).q;
    if n.task.Some? { ClearTask(c, p, n.task.value, d.intents, h); }
  }

  lemma ClearMarkSmooth(c: Config, p: Pid, now: int, q: Proc, d: Durable, h: Hist)
    requires Local(c, p, q, d.intents, h) && q.task.value.pc.ClearMark?
    ensures Smooth(c, p, q, d.intents, h, Continue(c, p, now, q, d, h))
  {
    var n := Continue(c, p, now, q, d, h).q;
    if n.task.Some? { ClearTask(c, p, n.task.value, d.intents, h); }
  }

  lemma ClearEndSmooth(c: Config, p: Pid, now: int, q: Proc, d: Durable, h: Hist)
    requires Local(c, p, q, d.intents, h) && (q.task.value.pc.ClearRemaining? || q.task.value.pc.ClearLatch?)
    ensures Smooth(c, p, q, d.intents, h, Continue(c, p, now, q, d, h))
  {
    var n := Continue(c, p, now, q, d, h).q;
    if n.task.Some? { ClearTask(c, p, n.task.value, d.intents, h); }
  }

  lemma ArmingOk(c: Config, p: Pid, q: Proc, d: Durable, h: Hist, q': Proc)
    requires Ready(c, p, q, d, h) && Holds(q) && q'.task.None? && q'.arm == h.arms && !q'.stop
    ensures NextOk(c, p, q, d, h, Next(q', h.(arms := h.arms + 1)))
  {
    var h' := h.(arms := h.arms + 1);
    forall i | 0 <= i < |h.calls| ensures CallInv(c, h'.calls[i], d.intents, h') && h.calls[i].arm < h.arms {
      assert CallInv(c, h.calls[i], d.intents, h);
    }
    forall x | Escaped(h, x) ensures Escaped(h', x) { }
  }

  lemma IntentsSmooth(c: Config, p: Pid, now: int, q: Proc, m: Intents, h: Hist, r: Reply)
    requires Local(c, p, q, m, h) && q.task.value.pc.IntentRead? && q.task.value.reply == Some(r)
    requires IntentsWereRead(now, q, h, r).h == h
    ensures Smooth(c, p, q, m, h, IntentsWereRead(now, q, h, r))
  {
    var n := IntentsWereRead(now, q, h, r);
    if n.q.task.Some? { FreeTask(c, p, n.q.task.value, m, h); }
  }

  lemma IntentsSeen(c: Config, p: Pid, now: int, q: Proc, d: Durable, h: Hist, r: Reply)
    requires Resuming(c, p, q, d, h) && q.task.value.pc.IntentRead? && q.task.value.reply == Some(r)
    ensures NextOk(c, p, q, d, h, IntentsWereRead(now, q, h, r))
  {
    var n := IntentsWereRead(now, q, h, r);
    if n.h != h {
      ArmingOk(c, p, q, d, h, n.q);
    } else {
      IntentsSmooth(c, p, now, q, d.intents, h, r);
      SmoothOk(c, p, q, d, h, n);
    }
  }

  lemma IntentsResumed(c: Config, p: Pid, now: int, q: Proc, d: Durable, h: Hist)
    requires Resuming(c, p, q, d, h) && q.task.value.pc.IntentRead?
    ensures NextOk(c, p, q, d, h, Continue(c, p, now, q, d, h))
  {
    IntentsSeen(c, p, now, q, d, h, q.task.value.reply.value);
  }

  lemma IssueHistory(c: Config, p: Pid, q: Proc, d: Durable, h: Hist)
    requires Ready(c, p, q, d, h) && Owns(q.task.value) && BeforeWrite(q.task.value.pc)
    requires q.task.value.op.kind.Place? ==> q.armedUntil.Some?
    ensures HistInv(c, d.intents, Issue(p, q, d, h).h)
  {
    var k := q.task.value.op.key;
    var h' := Issue(p, q, d, h).h;
    assert IsUnresolved(d.intents[k]);
    if q.task.value.op.kind.Place? { assert Rows(d.intents).Keys == {k}; }
    forall i | 0 <= i < |h'.calls| ensures CallInv(c, h'.calls[i], d.intents, h') {
      if i < |h.calls| { assert CallInv(c, h.calls[i], d.intents, h); }
    }
    forall i, j | 0 <= i < j < |h'.calls| && h'.calls[i].pid == h'.calls[j].pid && h'.calls[i].arm == h'.calls[j].arm
      ensures Escaped(h', h'.calls[i])
    {
      if j < |h.calls| {
        assert Escaped(h, h.calls[i]);
      } else {
        assert Settled(h.calls[i], q, d.intents, h);
        assert h.calls[i].key != k;
        assert h.calls[i].key !in Rows(d.intents);
      }
    }
  }

  lemma IssueTask(c: Config, p: Pid, q: Proc, d: Durable, h: Hist)
    requires q.task.Some? && TaskInv(c, p, q.task.value, d.intents, h)
    requires Owns(q.task.value) && BeforeWrite(q.task.value.pc)
    ensures var n := Issue(p, q, d, h); TaskInv(c, p, n.q.task.value, d.intents, n.h)
  { }

  lemma IssueArm(c: Config, p: Pid, q: Proc, d: Durable, h: Hist)
    requires q.task.Some? && ArmInv(p, q, d.intents, h) && TaskInv(c, p, q.task.value, d.intents, h)
    requires Owns(q.task.value) && BeforeWrite(q.task.value.pc)
    ensures var n := Issue(p, q, d, h); ArmInv(p, n.q, d.intents, n.h)
  {
    var n := Issue(p, q, d, h);
    if n.q.armedUntil.Some? {
      forall i | 0 <= i < |n.h.calls| && n.h.calls[i].pid == p && n.h.calls[i].arm == n.q.arm
        ensures Settled(n.h.calls[i], n.q, d.intents, n.h)
      {
        if i < |h.calls| { assert Settled(h.calls[i], q, d.intents, h); }
      }
    }
  }

  /** The write is issued by `q`, which is `q0` after an optional disarm. */
  lemma IssueOk(c: Config, p: Pid, q: Proc, d: Durable, h: Hist, q0: Proc)
    requires Ready(c, p, q0, d, h) && Holds(q0) && Owns(q0.task.value) && BeforeWrite(q0.task.value.pc)
    requires q.task == q0.task && ArmShrinks(q0, q)
    requires q.task.value.op.kind.Place? ==> q == q0 && q.armedUntil.Some?
    ensures NextOk(c, p, q0, d, h, Issue(p, q, d, h))
  {
    SettledSame(p, q0, q, d.intents, h);
    IssueHistory(c, p, q, d, h);
    IssueTask(c, p, q, d, h);
    IssueArm(c, p, q, d, h);
  }

  lemma CountedSmooth(c: Config, p: Pid, q: Proc, d: Durable, h: Hist, r: Reply)
    requires Local(c, p, q, d.intents, h) && q.task.value.pc.ReserveCount? && q.task.value.reply == Some(r)
    requires ReservationCounted(p, q, d, h, r).h == h
    ensures Smooth(c, p, q, d.intents, h, ReservationCounted(p, q, d, h, r))
  {
    var n := ReservationCounted(p, q, d, h, r).q;
    if n.task.Some? { OwnedTask(c, p, q.task.value, n.task.value, d.intents, h); }
  }

  lemma ReservationSeen(c: Config, p: Pid, q: Proc, d: Durable, h: Hist, r: Reply)
    requires Resuming(c, p, q, d, h) && q.task.value.pc.ReserveCount? && q.task.value.reply == Some(r)
    ensures NextOk(c, p, q, d, h, ReservationCounted(p, q, d, h, r))
  {
    var n := ReservationCounted(p, q, d, h, r);
    if n.h == h {
      CountedSmooth(c, p, q, d, h, r);
      SmoothOk(c, p, q, d, h, n);
    } else {
      IssueOk(c, p, Disarm(q, false), d, h, q);
    }
  }

  lemma ReservationResumed(c: Config, p: Pid, now: int, q: Proc, d: Durable, h: Hist)
    requires Resuming(c, p, q, d, h) && q.task.value.pc.ReserveCount?
    ensures NextOk(c, p, q, d, h, Continue(c, p, now, q, d, h))
  {
    ReservationSeen(c, p, q, d, h, q.task.value.reply.value);
  }

  lemma FinalLatchSmooth(c: Config, p: Pid, now: int, q: Proc, d: Durable, h: Hist, r: Reply)
    requires Local(c, p, q, d.intents, h) && q.task.value.pc.FinalLatchRead? && q.task.value.reply == Some(r)
    requires FinallyLatchRead(p, now, q, d, h, r).h == h
    ensures Smooth(c, p, q, d.intents, h, FinallyLatchRead(p, now, q, d, h, r))
  {
    OwnedTask(c, p, q.task.value, FinallyLatchRead(p, now, q, d, h, r).q.task.value, d.intents, h);
  }

  lemma FinalLatchSeen(c: Config, p: Pid, now: int, q: Proc, d: Durable, h: Hist, r: Reply)
    requires Resuming(c, p, q, d, h) && q.task.value.pc.FinalLatchRead? && q.task.value.reply == Some(r)
    ensures NextOk(c, p, q, d, h, FinallyLatchRead(p, now, q, d, h, r))
  {
    var n := FinallyLatchRead(p, now, q, d, h, r);
    if n.h == h {
      FinalLatchSmooth(c, p, now, q, d, h, r);
      SmoothOk(c, p, q, d, h, n);
    } else {
      IssueOk(c, p, q, d, h, q);
    }
  }

  lemma FinalLatchResumed(c: Config, p: Pid, now: int, q: Proc, d: Durable, h: Hist)
    requires Resuming(c, p, q, d, h) && q.task.value.pc.FinalLatchRead?
    ensures NextOk(c, p, q, d, h, Continue(c, p, now, q, d, h))
  {
    FinalLatchSeen(c, p, now, q, d, h, q.task.value.reply.value);
  }

  /** The operation ends while recording a failure, possibly cutting a stored rejection short. */
  lemma CutOk(c: Config, p: Pid, q: Proc, d: Durable, h: Hist, q': Proc)
    requires Ready(c, p, q, d, h) && q'.task.None? && ArmShrinks(q, q')
    requires var t := q.task.value;
      (t.pc.FailUpdate? || t.pc.FailCount?) && (t.pc.to.Ambiguous? ==> q'.armedUntil.None?)
    ensures NextOk(c, p, q, d, h, Next(q', CutRejection(h, d, q.task.value)))
  {
    CutHistory(c, d, h, q.task.value);
    CutArm(c, p, q, d, h, q');
    RelyCut(p, d, h, q.task.value, q');
  }

  lemma CutHistory(c: Config, d: Durable, h: Hist, t: Task)
    requires HistInv(c, d.intents, h)
    ensures HistInv(c, d.intents, CutRejection(h, d, t))
  {
    var h' := CutRejection(h, d, t);
    forall i | 0 <= i < |h.calls| ensures CallInv(c, h'.calls[i], d.intents, h') {
      assert CallInv(c, h.calls[i], d.intents, h);
    }
    forall x | Escaped(h, x) ensures Escaped(h', x) { }
  }

  lemma CutArm(c: Config, p: Pid, q: Proc, d: Durable, h: Hist, q': Proc)
    requires Ready(c, p, q, d, h) && q'.task.None? && ArmShrinks(q, q')
    requires var t := q.task.value;
      (t.pc.FailUpdate? || t.pc.FailCount?) && (t.pc.to.Ambiguous? ==> q'.armedUntil.None?)
    ensures ArmInv(p, q', d.intents, CutRejection(h, d, q.task.value))
  {
    var h' := CutRejection(h, d, q.task.value);
    assert Owns(q.task.value);
    if q'.armedUntil.Some? {
      forall i | 0 <= i < |h.calls| && h.calls[i].pid == p && h.calls[i].arm == q'.arm
        ensures Settled(h'.calls[i], q', d.intents, h')
      {
        assert Settled(h.calls[i], q, d.intents, h);
      }
    }
  }

  lemma RelyCut(p: Pid, d: Durable, h: Hist, t: Task, q': Proc)
    ensures d.lock.None? || d.lock == Some(p) ==> Rely(p, d, h, Unlock(d, p, q'), CutRejection(h, d, t))
  { }

  lemma FailureResumed(c: Config, p: Pid, now: int, q: Proc, d: Durable, h: Hist)
    requires Resuming(c, p, q, d, h) && (q.task.value.pc.FailUpdate? || q.task.value.pc.FailCount?)
    ensures NextOk(c, p, q, d, h, Continue(c, p, now, q, d, h))
  {
    var t := q.task.value;
    var n := Continue(c, p, now, q, d, h);
    assert Owns(t);
    if n.q.task.Some? { GoOk(c, p, q, d, h, n.q); }
    else if t.pc.FailUpdate? { CutOk(c, p, q, d, h, n.q); }
    else { FailureCountedOk(c, p, q, d, h, n.q); }
  }

  /** The failure is recorded: an order disarms, other writes own no order of the arm. */
  lemma FailureCountedOk(c: Config, p: Pid, q: Proc, d: Durable, h: Hist, q': Proc)
    requires Ready(c, p, q, d, h) && q'.task.None? && ArmShrinks(q, q') && q.task.value.pc.FailCount?
    requires Owns(q.task.value) && (q.task.value.op.kind.Place? ==> q'.armedUntil.None?)
    ensures NextOk(c, p, q, d, h, Next(q', h))
  {
    if q'.armedUntil.Some? {
      forall i | 0 <= i < |h.calls| && h.calls[i].pid == p && h.calls[i].arm == q'.arm
        ensures Settled(h.calls[i], q', d.intents, h)
      {
        assert Settled(h.calls[i], q, d.intents, h);
      }
    }
    RelySame(p, d, h, Unlock(d, p, q'));
  }

  lemma Smoothly(c: Config, p: Pid, now: int, q: Proc, d: Durable, h: Hist)
    requires Local(c, p, q, d.intents, h)
    requires var pc := q.task.value.pc;
      !pc.IntentRead? && !pc.ReserveCount? && !pc.FinalLatchRead? && !pc.FailUpdate? && !pc.FailCount?
    ensures Smooth(c, p, q, d.intents, h, Continue(c, p, now, q, d, h))
  {
    match q.task.value.pc
    case Acquire => AcquireSmooth(c, p, q, d.intents, h);
    case LatchRead => LatchSmooth(c, p, q, d.intents, h);
    case SurveyLatch => SurveyLatchSmooth(c, p, q, d.intents, h);
    case Market => MarketSmooth(c, p, q, d.intents, h);
    case Reserve => ReserveSmooth(c, p, q, d.intents, h);
    case Survey => SurveySmooth(c, p, q, d.intents, h);
    case Preflight => PreflightSmooth(c, p, q, d.intents, h);
    case FinalSurvey => FinalSurveySmooth(c, p, q, d.intents, h);
    case FinalSurveyLatch => FinalSurveyLatchSmooth(c, p, q, d.intents, h);
    case FinalMarket => FinalMarketSmooth(c, p, q, d.intents, h);
    case Write => WriteSmooth(c, p, q, d.intents, h);
    case BadAckUpdate => BadAckSmooth(c, p, q, d.intents, h);
    case BadAckCount => BadAckCountSmooth(c, p, q, d.intents, h);
    case AckUpdate => AckSmooth(c, p, q, d.intents, h);
    case AckCount => AckCountSmooth(c, p, q, d.intents, h);
    case Observe => ObserveSmooth(c, p, q, d.intents, h);
    case ObserveLatch(_) => ObserveLatchSmooth(c, p, q, d.intents, h);
    case FinalUpdate(_) => FinalSmooth(c, p, q, d.intents, h);
    case FinalCount(_) => BadAckCountSmooth(c, p, q, d.intents, h);
    case ClearPoll => PollSmooth(c, p, q, d.intents, h);
    case ClearLatchRead => ClearStartSmooth(c, p, now, q, d, h);
    case ClearIntentRead => ClearStartSmooth(c, p, now, q, d, h);
    case ClearMark => ClearMarkSmooth(c, p, now, q, d, h);
    case ClearRemaining => ClearEndSmooth(c, p, now, q, d, h);
    case ClearLatch => ClearEndSmooth(c, p, now, q, d, h);
  }

  lemma ContinueOk(c: Config, p: Pid, now: int, q: Proc, d: Durable, h: Hist)
    requires Resuming(c, p, q, d, h)
    ensures NextOk(c, p, q, d, h, Continue(c, p, now, q, d, h))
  {
    match q.task.value.pc
    case IntentRead => IntentsResumed(c, p, now, q, d, h);
    case ReserveCount => ReservationResumed(c, p, now, q, d, h);
    case FinalLatchRead => FinalLatchResumed(c, p, now, q, d, h);
    case FailUpdate(_) => FailureResumed(c, p, now, q, d, h);
    case FailCount(_) => FailureResumed(c, p, now, q, d, h);
    case _ =>
      Smoothly(c, p, now, q, d, h);
      SmoothOk(c, p, q, d, h, Continue(c, p, now, q, d, h));
  }
}
