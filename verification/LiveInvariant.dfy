/**
 The inductive invariant of the live write protocol and the proof that every step keeps it.
 */
module LiveInvariant {
  import opened Options
  import opened LiveProtocol

  type Intents = map<Key, Intent>

  // ---------------------------------------------------------------- what the history must look like

  /** At least two flat account reads in a row with one account identity and one set of order states. */
  predicate StableFlat(c: Config, polls: seq<Poll>) {
    |polls| >= c.flatPolls && Steady(polls)
  }

  predicate Steady(polls: seq<Poll>) {
    forall i :: 0 <= i < |polls| ==>
      polls[i].snap.Flat() && polls[i].orders.Some?
      && polls[i].snap.identity == polls[0].snap.identity && polls[i].orders == polls[0].orders
  }

  /** Why the end of a sent order is known: refused, seen final, or resolved on a flat account. */
  ghost predicate EndKnown(c: Config, k: Key, m: Intents, h: Hist) {
    k in m
    && (m[k].status.Rejected? ==> k in h.answers && h.answers[k].Refused?)
    && (m[k].status.Confirmed? ==> k in h.observed && ConfirmsOrder(h.observed[k]))
    && (m[k].reconciled ==> k in h.cleared && StableFlat(c, h.cleared[k].polls))
  }

  ghost predicate CallInv(c: Config, x: Call, m: Intents, h: Hist) {
    x.key in h.writes && x.arm < h.arms && x.unresolved == {x.key} && EndKnown(c, x.key, m, h)
  }

  /** The only ways in which a sent order stops blocking further orders of its own arm. */
  ghost predicate Escaped(h: Hist, x: Call) {
    x.key in h.rejectionCut
    || (x.key in h.cleared && (h.cleared[x.key].who != x.pid || x.key in h.clearCut))
  }

  ghost predicate OncePerArm(h: Hist) {
    forall i, j :: 0 <= i < j < |h.calls| && h.calls[i].pid == h.calls[j].pid && h.calls[i].arm == h.calls[j].arm
      ==> Escaped(h, h.calls[i])
  }

  ghost predicate HistInv(c: Config, m: Intents, h: Hist) {
    && (forall i :: 0 <= i < |h.calls| ==> CallInv(c, h.calls[i], m, h))
    && (forall i, j :: 0 <= i < j < |h.calls| ==> h.calls[i].key != h.calls[j].key)
    && (forall i, j :: 0 <= i < j < |h.writes| ==> h.writes[i] != h.writes[j])
    && (forall i :: 0 <= i < |h.writes| ==> h.writes[i] in m)
    && (forall k :: k in h.rejectionCut ==> k in m && m[k].status.Rejected?)
    && (forall k :: k in h.cleared ==> k in m && m[k].reconciled)
    && OncePerArm(h)
  }

  // ---------------------------------------------------------------- what a task must look like

  predicate AfterReserve(pc: Pc) {
    pc.ReserveCount? || BeforeWrite(pc) || pc.Write? || AfterWrite(pc)
  }

  predicate BeforeWrite(pc: Pc) {
    || pc.ReserveCount? || pc.Preflight? || pc.FinalSurvey? || pc.FinalSurveyLatch?
    || pc.FinalMarket? || pc.FinalLatchRead?
  }

  predicate AfterWrite(pc: Pc) {
    pc.FailUpdate? || pc.FailCount? || pc.BadAckUpdate? || pc.BadAckCount? || pc.AckUpdate? || pc.AckCount?
    || pc.Observe? || pc.ObserveLatch? || pc.FinalUpdate? || pc.FinalCount?
  }

  predicate Clearing(pc: Pc) {
    pc.ClearLatchRead? || pc.ClearIntentRead? || pc.ClearPoll? || pc.ClearMark? || pc.ClearRemaining? || pc.ClearLatch?
  }

  predicate PcFits(t: Task) {
    match t.op
    case Arm(_) => t.pc.Acquire? || t.pc.Survey? || t.pc.SurveyLatch? || t.pc.LatchRead? || t.pc.IntentRead?
    case Clear(_) => t.pc.Acquire? || Clearing(t.pc)
    case Writer(kind, _) =>
      !Clearing(t.pc)
      && (t.pc.Market? || t.pc.Preflight? || t.pc.FinalSurvey? || t.pc.FinalSurveyLatch? || t.pc.FinalMarket?
          ==> kind.Place?)
      && (t.pc.FinalLatchRead? || t.pc.LatchRead? || t.pc.IntentRead? ==> kind.Place? || kind.Leverage?)
  }

  predicate Owns(t: Task) {
    t.op.Writer? && ((t.pc.Reserve? && t.reply == Some(Done)) || AfterReserve(t.pc))
  }

  predicate Exclusive(t: Task) { t.op.Writer? && (t.op.kind.Place? || t.op.kind.Leverage?) }

  predicate Holds(q: Proc) {
    q.task.Some? && (!q.task.value.pc.Acquire? || q.task.value.reply == Some(LockTaken))
  }

  /** An order or leverage change runs while its own intent is the only unresolved one. */
  ghost predicate AloneInv(t: Task, m: Intents) {
    && (t.pc.IntentRead? && t.reply.Some? && t.reply.value.RowsAre? ==> t.reply.value.rows == Rows(m))
    && (Exclusive(t) && (t.pc.Survey? || t.pc.SurveyLatch? || t.pc.Market? || (t.pc.Reserve? && t.reply.None?))
        ==> Rows(m) == map[])
    && (Exclusive(t) && Owns(t) ==> Rows(m).Keys <= {t.op.key})
  }

  ghost predicate OwnInv(p: Pid, t: Task, m: Intents, h: Hist) {
    Owns(t) ==>
      var k := t.op.key;
      && k in m && !m[k].reconciled
      && (forall i :: 0 <= i < |h.calls| && h.calls[i].key == k ==>
            h.calls[i].pid == p && t.op.kind.Place? && !BeforeWrite(t.pc) && !t.pc.Reserve?)
      && (BeforeWrite(t.pc) || t.pc.Reserve? ==> k !in h.writes && m[k].status.Reserved?)
      && (t.pc.Write? ==> m[k].status.Reserved?)
      && (t.pc.FailUpdate? || t.pc.FailCount? ==> FailInv(t, m, h))
      && (t.pc.AckUpdate? ==> (m[k].status.Reserved? && t.reply != Some(Done)) || m[k].status.Acknowledged?)
      && (t.pc.AckCount? || t.pc.Observe? || t.pc.ObserveLatch? ==> m[k].status.Acknowledged?)
      && (t.pc.BadAckUpdate? || t.pc.BadAckCount? ==> m[k].status.Reserved? || m[k].status.Ambiguous?)
      && (t.pc.Write? && t.reply.Some? && t.reply.value.Answered? ==>
            k in h.answers && h.answers[k] == t.reply.value.answer)
      && (t.pc.Observe? && t.reply.Some? && t.reply.value.Observed? ==>
            k in h.observed && h.observed[k] == t.reply.value.obs)
      && (t.op.kind.Place? && ((t.pc.ObserveLatch? && t.pc.ok) || (t.pc.FinalUpdate? && t.pc.ok)) ==>
            k in h.observed && ConfirmsOrder(h.observed[k]))
  }

  ghost predicate FailInv(t: Task, m: Intents, h: Hist)
    requires t.op.Writer? && t.op.key in m && (t.pc.FailUpdate? || t.pc.FailCount?)
  {
    && (t.pc.to.Rejected? || t.pc.to.Ambiguous?)
    && (m[t.op.key].status.Reserved? || m[t.op.key].status == t.pc.to)
    && (t.pc.to.Rejected? ==>
          (exists i :: 0 <= i < |h.calls| && h.calls[i].key == t.op.key) ==>
            t.op.key in h.answers && h.answers[t.op.key].Refused?)
  }

  ghost predicate ClearInv(c: Config, t: Task, m: Intents, h: Hist) {
    t.op.Clear? ==>
      && Steady(t.polls)
      && (t.pc.ClearIntentRead? && t.reply.Some? && t.reply.value.RowsAre? ==> t.reply.value.rows == Rows(m))
      && (t.pc.ClearPoll? || (t.pc.ClearMark? && t.reply.None?) ==> Rows(m) == t.op.expected)
      && (t.pc.ClearMark? || t.pc.ClearRemaining? || t.pc.ClearLatch? ==> |t.polls| >= c.flatPolls)
      && ((t.pc.ClearMark? && t.reply == Some(Done)) || t.pc.ClearRemaining? || t.pc.ClearLatch? ==> Rows(m) == map[])
      && (t.pc.ClearMark? || t.pc.ClearRemaining? || t.pc.ClearLatch? ==>
            forall k :: k in t.op.expected ==> k in m && (IsUnresolved(m[k]) || k in h.cleared))
      && (t.pc.ClearLatch? && t.reply.Some? && t.reply.value.LatchIs? && t.firstLatched ==>
            !t.reply.value.latched && t.reply.value.version == t.firstVersion + 1)
  }

  ghost predicate TaskInv(c: Config, p: Pid, t: Task, m: Intents, h: Hist) {
    PcFits(t) && AloneInv(t, m) && OwnInv(p, t, m, h) && ClearInv(c, t, m, h)
  }

  // ---------------------------------------------------------------- what an armed process must look like

  predicate Finishing(q: Proc, k: Key) {
    q.task.Some?
    && var t := q.task.value;
       (t.op.Writer? && t.op.key == k && (t.pc.FailUpdate? || t.pc.FailCount?))
       || (t.op.Clear? && k in t.op.expected && (t.pc.ClearMark? || t.pc.ClearRemaining? || t.pc.ClearLatch?))
  }

  ghost predicate Settled(x: Call, q: Proc, m: Intents, h: Hist) {
    (x.key in m && IsUnresolved(m[x.key])) || Escaped(h, x) || Finishing(q, x.key)
  }

  ghost predicate ArmInv(p: Pid, q: Proc, m: Intents, h: Hist) {
    q.armedUntil.Some? ==>
      q.arm < h.arms
      && forall i :: 0 <= i < |h.calls| && h.calls[i].pid == p && h.calls[i].arm == q.arm
           ==> Settled(h.calls[i], q, m, h)
  }

  /** An acknowledged order has already cost its process the arm. */
  predicate PastDisarm(t: Task) {
    t.op.Writer? && t.op.kind.Place? && (t.pc.Observe? || t.pc.ObserveLatch? || t.pc.FinalUpdate? || t.pc.FinalCount?)
  }

  ghost predicate ProcInv(c: Config, p: Pid, q: Proc, d: Durable, h: Hist) {
    && (q.stop ==> q.armedUntil.None?)
    && (q.task.Some? && PastDisarm(q.task.value) ==> q.armedUntil.None?)
    && (Holds(q) <==> d.lock == Some(p))
    && (q.task.Some? ==> TaskInv(c, p, q.task.value, d.intents, h))
    && ArmInv(p, q, d.intents, h)
  }

  ghost predicate Inv(c: Config, s: State) {
    && HistInv(c, s.d.intents, s.h)
    && (forall p :: p in s.procs ==> ProcInv(c, p, s.procs[p], s.d, s.h))
    && (s.d.lock.Some? ==> s.d.lock.value in s.procs)
  }

  // ---------------------------------------------------------------- other processes

  /** What one step of process `p` may do to the shared state. */
  ghost predicate Rely(p: Pid, d: Durable, h: Hist, d': Durable, h': Hist) {
    && (d.lock.Some? && d.lock.value != p ==> d'.lock == d.lock && d'.intents == d.intents && h' == h)
    && (d'.lock == d.lock || d'.lock == Some(p) || d'.lock == None)
    && h.arms <= h'.arms && h.calls <= h'.calls
    && (forall i :: |h.calls| <= i < |h'.calls| ==> h'.calls[i].pid == p)
    && h.rejectionCut <= h'.rejectionCut && h.clearCut <= h'.clearCut
    && (forall k :: k in h.cleared ==> k in h'.cleared && h'.cleared[k] == h.cleared[k])
    && (forall k :: k in d.intents && IsUnresolved(d.intents[k]) ==>
          k in d'.intents && (IsUnresolved(d'.intents[k]) || (k in h'.cleared && h'.cleared[k].who == p)
             || (forall i :: 0 <= i < |h.calls| && h.calls[i].key == k ==> h.calls[i].pid == p)))
  }

  lemma OtherKept(c: Config, p: Pid, o: Pid, q: Proc, d: Durable, h: Hist, d': Durable, h': Hist)
    requires o != p && ProcInv(c, o, q, d, h) && Rely(p, d, h, d', h')
    ensures ProcInv(c, o, q, d', h')
  {
    if Holds(q) {
    } else {
      forall i | 0 <= i < |h'.calls| && h'.calls[i].pid == o && q.armedUntil.Some? && h'.calls[i].arm == q.arm
        ensures Settled(h'.calls[i], q, d'.intents, h')
      {
        assert h'.calls[i] == h.calls[i];
        assert Settled(h.calls[i], q, d.intents, h);
      }
    }
  }

  /** Putting the pieces of one process's step together. */
  lemma StepOf(c: Config, s: State, s': State, p: Pid)
    requires Inv(c, s) && p in s.procs && s'.procs.Keys == s.procs.Keys
    requires forall o :: o in s.procs && o != p ==> s'.procs[o] == s.procs[o]
    requires Rely(p, s.d, s.h, s'.d, s'.h)
    requires HistInv(c, s'.d.intents, s'.h) && ProcInv(c, p, s'.procs[p], s'.d, s'.h)
    ensures Inv(c, s')
  {
    forall o | o in s'.procs ensures ProcInv(c, o, s'.procs[o], s'.d, s'.h) {
      if o != p { OtherKept(c, p, o, s.procs[o], s.d, s.h, s'.d, s'.h); }
    }
  }

  // ---------------------------------------------------------------- effects

  function Replied(q: Proc, r: Reply): Proc
    requires q.task.Some?
  {
    q.(task := Some(q.task.value.(reply := Some(r))))
  }

  ghost predicate EffectOk(c: Config, p: Pid, q: Proc, d: Durable, h: Hist, a: Applied)
    requires q.task.Some?
  {
    HistInv(c, a.d.intents, a.h) && ProcInv(c, p, Replied(q, a.reply), a.d, a.h) && Rely(p, d, h, a.d, a.h)
  }

  ghost predicate Ready(c: Config, p: Pid, q: Proc, d: Durable, h: Hist) {
    ValidConfig(c) && HistInv(c, d.intents, h) && ProcInv(c, p, q, d, h) && q.task.Some?
  }

  predicate TouchesIntents(pc: Pc) {
    pc.Reserve? || StatusWrite(pc).Some? || pc.Write? || pc.Observe? || pc.ClearMark?
  }

  /** A reply that tells its receiver nothing wrong about the intents. */
  predicate HonestReply(t: Task, m: Intents, r: Reply) {
    && (r.RowsAre? ==> r.rows == Rows(m))
    && (t.pc.ClearLatch? && t.firstLatched && r.LatchIs? ==> !r.latched && r.version == t.firstVersion + 1)
  }

  predicate QuietShape(p: Pid, t: Task, d: Durable, h: Hist, a: Applied) {
      && a.h == h && a.d.intents == d.intents && HonestReply(t, d.intents, a.reply)
      && (if t.pc.Acquire? && a.reply.LockTaken? then d.lock.None? && a.d.lock == Some(p) else a.d.lock == d.lock)
  }

  lemma ReplyKept(c: Config, p: Pid, t: Task, m: Intents, h: Hist, r: Reply)
    requires TaskInv(c, p, t, m, h) && !TouchesIntents(t.pc) && HonestReply(t, m, r)
    ensures TaskInv(c, p, t.(reply := Some(r)), m, h)
  { }

  lemma RelySame(p: Pid, d: Durable, h: Hist, d': Durable)
    requires d'.intents == d.intents
    requires d'.lock == d.lock || ((d.lock == Some(p) || d.lock.None?) && (d'.lock.None? || d'.lock == Some(p)))
    ensures Rely(p, d, h, d', h)
  { }

  lemma EffectQuiet(c: Config, p: Pid, q: Proc, d: Durable, h: Hist, a: Applied)
    requires Ready(c, p, q, d, h) && q.task.value.reply.None? && !TouchesIntents(q.task.value.pc)
    requires QuietShape(p, q.task.value, d, h, a)
    ensures EffectOk(c, p, q, d, h, a)
  {
    ReplyKept(c, p, q.task.value, d.intents, h, a.reply);
    SettledSame(p, q, Replied(q, a.reply), d.intents, h);
    RelySame(p, d, h, a.d);
  }

  /** Only the running task and the clock-side fields of a process changed, not what it finishes. */
  lemma SettledSame(p: Pid, q: Proc, q': Proc, m: Intents, h: Hist)
    requires ArmInv(p, q, m, h)
    requires q'.armedUntil.Some? ==> q'.armedUntil == q.armedUntil && q'.arm == q.arm
    requires q'.armedUntil.Some? ==> forall k :: Finishing(q, k) ==> Finishing(q', k)
    ensures ArmInv(p, q', m, h)
  {
    if q'.armedUntil.Some? {
      forall i | 0 <= i < |h.calls| && h.calls[i].pid == p && h.calls[i].arm == q'.arm
        ensures Settled(h.calls[i], q', m, h)
      {
        assert Settled(h.calls[i], q, m, h);
      }
    }
  }

  lemma HistAfterIntentChange(c: Config, m: Intents, m': Intents, h: Hist, k: Key)
    requires HistInv(c, m, h) && m.Keys <= m'.Keys && (forall o :: o in m && o != k ==> m'[o] == m[o])
    requires forall i :: 0 <= i < |h.calls| && h.calls[i].key == k ==> EndKnown(c, k, m', h)
    requires k in m ==> m'[k].reconciled == m[k].reconciled
    requires k in m && m[k].status.Rejected? ==> m'[k].status.Rejected?
    ensures HistInv(c, m', h)
  {
    forall i | 0 <= i < |h.calls| ensures CallInv(c, h.calls[i], m', h) {
      assert CallInv(c, h.calls[i], m, h);
    }
  }

  predicate ReserveShape(now: int, t: Task, d: Durable, h: Hist, a: Applied)
    requires t.op.Writer?
  {
      && a.h == h && a.d == d.(intents := a.d.intents) && (a.reply.Done? || a.reply.Failed?)
      && (if t.op.key in d.intents then a.d == d && a.reply.Failed?
          else a.d.intents == d.intents[t.op.key := Intent(Reserved, now, false)] || (a.d == d && a.reply.Failed?))
  }

  lemma ReserveKeepsTask(c: Config, p: Pid, t: Task, m: Intents, h: Hist, now: int, r: Reply)
    requires HistInv(c, m, h) && TaskInv(c, p, t, m, h) && t.pc.Reserve? && t.op.Writer? && t.reply.None?
    requires t.op.key !in m && (r.Done? || r.Failed?)
    ensures TaskInv(c, p, t.(reply := Some(r)), m[t.op.key := Intent(Reserved, now, false)], h)
  {
    var m' := m[t.op.key := Intent(Reserved, now, false)];
    assert Rows(m').Keys == Rows(m).Keys + {t.op.key};
    forall i | 0 <= i < |h.calls| ensures h.calls[i].key != t.op.key {
      assert CallInv(c, h.calls[i], m, h);
    }
  }

  lemma RelyIntent(c: Config, p: Pid, d: Durable, h: Hist, m': Intents, k: Key)
    requires HistInv(c, d.intents, h) && d.lock == Some(p) && d.intents.Keys <= m'.Keys
    requires forall o :: o in d.intents && o != k ==> m'[o] == d.intents[o]
    requires forall i :: 0 <= i < |h.calls| && h.calls[i].key == k ==> h.calls[i].pid == p
    ensures Rely(p, d, h, d.(intents := m'), h)
  { }

  lemma EffectReserve(c: Config, p: Pid, now: int, q: Proc, d: Durable, h: Hist, a: Applied)
    requires Ready(c, p, q, d, h) && q.task.value.reply.None? && q.task.value.pc.Reserve?
    requires ReserveShape(now, q.task.value, d, h, a)
    ensures EffectOk(c, p, q, d, h, a)
  {
    var t := q.task.value;
    var k := t.op.key;
    if a.d != d {
      forall i | 0 <= i < |h.calls| ensures h.calls[i].key != k {
        assert CallInv(c, h.calls[i], d.intents, h);
      }
      HistAfterIntentChange(c, d.intents, a.d.intents, h, k);
      ReserveKeepsTask(c, p, t, d.intents, h, now, a.reply);
      ArmAfterUpdate(p, q, d.intents, a.d.intents, h, k);
      RelyIntent(c, p, d, h, a.d.intents, k);
    } else {
      RelySame(p, d, h, d);
    }
    SettledSame(p, q, Replied(q, a.reply), a.d.intents, h);
  }

  lemma ArmAfterUpdate(p: Pid, q: Proc, m: Intents, m': Intents, h: Hist, k: Key)
    requires ArmInv(p, q, m, h) && m.Keys <= m'.Keys
    requires forall o :: o in m && o != k ==> m'[o] == m[o]
    requires k in m && IsUnresolved(m[k]) && !IsUnresolved(m'[k]) ==>
      Finishing(q, k) || q.armedUntil.None? || forall i :: 0 <= i < |h.calls| ==> h.calls[i].key != k
    ensures ArmInv(p, q, m', h)
  {
    if q.armedUntil.Some? {
      forall i | 0 <= i < |h.calls| && h.calls[i].pid == p && h.calls[i].arm == q.arm
        ensures Settled(h.calls[i], q, m', h)
      {
        assert Settled(h.calls[i], q, m, h);
      }
    }
  }

  function WithStatus(m: Intents, k: Key, to: Status, now: int): Intents
    requires k in m
  {
    m[k := m[k].(status := to, stamp := now)]
  }

  /** The status a task writes at its own stage, from a status that stage can find. */
  lemma UpdateFits(c: Config, p: Pid, t: Task, m: Intents, h: Hist)
    requires HistInv(c, m, h) && TaskInv(c, p, t, m, h) && StatusWrite(t.pc).Some?
    requires t.op.key in m && TransitionAllowed(m[t.op.key].status, StatusWrite(t.pc).value)
    ensures var m' := WithStatus(m, t.op.key, StatusWrite(t.pc).value, 0);
      forall i :: 0 <= i < |h.calls| && h.calls[i].key == t.op.key ==> EndKnown(c, t.op.key, m', h)
  {
    var k := t.op.key;
    forall i | 0 <= i < |h.calls| && h.calls[i].key == k
      ensures EndKnown(c, k, WithStatus(m, k, StatusWrite(t.pc).value, 0), h)
    {
      assert CallInv(c, h.calls[i], m, h);
    }
  }

  lemma UpdateKeepsTask(c: Config, p: Pid, t: Task, m: Intents, h: Hist, now: int, r: Reply)
    requires TaskInv(c, p, t, m, h) && StatusWrite(t.pc).Some? && (r.Done? || r.Failed?)
    requires t.op.key in m && TransitionAllowed(m[t.op.key].status, StatusWrite(t.pc).value)
    ensures TaskInv(c, p, t.(reply := Some(r)), WithStatus(m, t.op.key, StatusWrite(t.pc).value, now), h)
  {
    var m' := WithStatus(m, t.op.key, StatusWrite(t.pc).value, now);
    assert Rows(m').Keys <= Rows(m).Keys;
  }

  predicate UpdateShape(now: int, t: Task, d: Durable, h: Hist, a: Applied)
    requires StatusWrite(t.pc).Some? && t.op.Writer? && t.op.key in d.intents
  {
      var to := StatusWrite(t.pc).value;
      && a.h == h && (a.reply.Done? || a.reply.Failed?)
      && (|| (a.d == d && a.reply.Failed?)
          || (TransitionAllowed(d.intents[t.op.key].status, to)
              && a.d == d.(intents := WithStatus(d.intents, t.op.key, to, now))))
  }

  lemma UpdateAnswered(c: Config, p: Pid, t: Task, m: Intents, h: Hist, r: Reply)
    requires TaskInv(c, p, t, m, h) && StatusWrite(t.pc).Some? && r.Failed?
    ensures TaskInv(c, p, t.(reply := Some(r)), m, h)
  { }

  lemma EffectAssembled(c: Config, p: Pid, q: Proc, d: Durable, h: Hist, a: Applied)
    requires ProcInv(c, p, q, d, h) && q.task.Some? && q.task.value.reply.None? && !q.task.value.pc.Acquire?
    requires a.d.lock == d.lock && HistInv(c, a.d.intents, a.h) && Rely(p, d, h, a.d, a.h)
    requires TaskInv(c, p, q.task.value.(reply := Some(a.reply)), a.d.intents, a.h)
    requires ArmInv(p, q, a.d.intents, a.h)
    ensures EffectOk(c, p, q, d, h, a)
  {
    SettledSame(p, q, Replied(q, a.reply), a.d.intents, a.h);
  }

  lemma EffectUpdate(c: Config, p: Pid, now: int, q: Proc, d: Durable, h: Hist, a: Applied)
    requires Ready(c, p, q, d, h) && q.task.value.reply.None? && StatusWrite(q.task.value.pc).Some?
    requires UpdateShape(now, q.task.value, d, h, a)
    ensures EffectOk(c, p, q, d, h, a)
  {
    var t := q.task.value;
    assert Owns(t);
    var k := t.op.key;
    if a.d != d || a.reply.Done? {
      UpdateFits(c, p, t, d.intents, h);
      HistAfterIntentChange(c, d.intents, a.d.intents, h, k);
      UpdateKeepsTask(c, p, t, d.intents, h, now, a.reply);
      ArmAfterUpdate(p, q, d.intents, a.d.intents, h, k);
      RelyIntent(c, p, d, h, a.d.intents, k);
    } else {
      UpdateAnswered(c, p, t, d.intents, h, a.reply);
      RelySame(p, d, h, d);
    }
    EffectAssembled(c, p, q, d, h, a);
  }

  lemma EffectWrite(c: Config, p: Pid, q: Proc, d: Durable, h: Hist, w: World)
    requires Ready(c, p, q, d, h) && q.task.value.reply.None? && q.task.value.pc.Write?
    ensures var t := q.task.value;
      t.op.Writer? && EffectOk(c, p, q, d, h,
                               Applied(d, h.(answers := h.answers[t.op.key := w.answer]), Answered(w.answer)))
  {
    var t := q.task.value;
    var a := Applied(d, h.(answers := h.answers[t.op.key := w.answer]), Answered(w.answer));
    assert Owns(t);
    forall i | 0 <= i < |h.calls| ensures CallInv(c, a.h.calls[i], d.intents, a.h) {
      assert CallInv(c, h.calls[i], d.intents, h);
    }
    HistoryGrew(p, q, d.intents, h, a.h);
    EffectAssembled(c, p, q, d, h, a);
  }

  /** Adding an answer or an observation to the history touches no arm. */
  lemma HistoryGrew(p: Pid, q: Proc, m: Intents, h: Hist, h': Hist)
    requires ArmInv(p, q, m, h) && h' == h.(answers := h'.answers, observed := h'.observed)
    ensures ArmInv(p, q, m, h') && (OncePerArm(h) ==> OncePerArm(h'))
  {
    forall x | Escaped(h, x) ensures Escaped(h', x) { }
    if q.armedUntil.Some? {
      forall i | 0 <= i < |h'.calls| && h'.calls[i].pid == p && h'.calls[i].arm == q.arm
        ensures Settled(h'.calls[i], q, m, h')
      {
        assert Settled(h.calls[i], q, m, h);
      }
    }
  }

  lemma EffectObserve(c: Config, p: Pid, q: Proc, d: Durable, h: Hist, w: World)
    requires Ready(c, p, q, d, h) && q.task.value.reply.None? && q.task.value.pc.Observe?
    ensures var t := q.task.value;
      t.op.Writer? && EffectOk(c, p, q, d, h,
                               Applied(d, h.(observed := h.observed[t.op.key := w.obs]), Observed(w.obs)))
  {
    var t := q.task.value;
    var a := Applied(d, h.(observed := h.observed[t.op.key := w.obs]), Observed(w.obs));
    assert Owns(t);
    forall i | 0 <= i < |h.calls| ensures CallInv(c, a.h.calls[i], d.intents, a.h) {
      assert CallInv(c, h.calls[i], d.intents, h);
    }
    HistoryGrew(p, q, d.intents, h, a.h);
    EffectAssembled(c, p, q, d, h, a);
  }

  lemma MarkKeepsHistory(c: Config, p: Pid, now: int, t: Task, d: Durable, h: Hist, f: Fault)
    requires ValidConfig(c) && HistInv(c, d.intents, h) && t.op.Clear? && Rows(d.intents) == t.op.expected
    requires StableFlat(c, t.polls)
    ensures var a := Marking(p, now, t, d, h, f); HistInv(c, a.d.intents, a.h)
  {
    var a := Marking(p, now, t, d, h, f);
    if !f.Before? {
      var e := t.op.expected;
      assert forall k :: k in e ==> k in d.intents && IsUnresolved(d.intents[k]);
      forall i | 0 <= i < |h.calls| ensures CallInv(c, a.h.calls[i], a.d.intents, a.h) {
        assert CallInv(c, h.calls[i], d.intents, h);
      }
      forall i, j | 0 <= i < j < |h.calls| && h.calls[i].pid == h.calls[j].pid && h.calls[i].arm == h.calls[j].arm
        ensures Escaped(a.h, a.h.calls[i])
      {
        assert Escaped(h, h.calls[i]);
      }
    }
  }

  lemma MarkKeepsArm(c: Config, p: Pid, now: int, q: Proc, d: Durable, h: Hist, f: Fault)
    requires HistInv(c, d.intents, h) && ArmInv(p, q, d.intents, h) && q.task.Some?
    requires q.task.value.op.Clear? && q.task.value.pc.ClearMark? && Rows(d.intents) == q.task.value.op.expected
    ensures var a := Marking(p, now, q.task.value, d, h, f); ArmInv(p, q, a.d.intents, a.h)
  {
    var t := q.task.value;
    var a := Marking(p, now, t, d, h, f);
    if !f.Before? && q.armedUntil.Some? {
      forall i | 0 <= i < |h.calls| && h.calls[i].pid == p && h.calls[i].arm == q.arm
        ensures Settled(a.h.calls[i], q, a.d.intents, a.h)
      {
        assert Settled(h.calls[i], q, d.intents, h);
        assert CallInv(c, h.calls[i], d.intents, h);
        if h.calls[i].key !in t.op.expected { assert Escaped(h, h.calls[i]) ==> Escaped(a.h, a.h.calls[i]); }
      }
    }
  }

  lemma MarkRelied(c: Config, p: Pid, now: int, q: Proc, d: Durable, h: Hist, f: Fault)
    requires Ready(c, p, q, d, h) && q.task.value.pc.ClearMark?
    ensures var a := Marking(p, now, q.task.value, d, h, f); Rely(p, d, h, a.d, a.h)
  {
    var a := Marking(p, now, q.task.value, d, h, f);
    if a.d != d { assert Rows(a.d.intents) == map[]; }
  }

  lemma MarkProc(c: Config, p: Pid, now: int, q: Proc, d: Durable, h: Hist, f: Fault)
    requires Ready(c, p, q, d, h) && q.task.value.reply.None? && q.task.value.pc.ClearMark?
    ensures var a := Marking(p, now, q.task.value, d, h, f); ProcInv(c, p, Replied(q, a.reply), a.d, a.h)
  {
    var a := Marking(p, now, q.task.value, d, h, f);
    MarkKeepsArm(c, p, now, q, d, h, f);
    SettledSame(p, q, Replied(q, a.reply), a.d.intents, a.h);
  }

  lemma EffectMark(c: Config, p: Pid, now: int, q: Proc, d: Durable, h: Hist, f: Fault)
    requires Ready(c, p, q, d, h) && q.task.value.reply.None? && q.task.value.pc.ClearMark?
    ensures EffectOk(c, p, q, d, h, Marking(p, now, q.task.value, d, h, f))
  {
    MarkKeepsHistory(c, p, now, q.task.value, d, h, f);
    MarkProc(c, p, now, q, d, h, f);
    MarkRelied(c, p, now, q, d, h, f);
  }

  lemma EffectShapes(p: Pid, now: int, t: Task, d: Durable, h: Hist, w: World)
    ensures var a := Remote(p, now, t, d, h, w);
      && (!TouchesIntents(t.pc) ==> QuietShape(p, t, d, h, a))
      && (t.pc.Reserve? && t.op.Writer? ==> ReserveShape(now, t, d, h, a))
      && (StatusWrite(t.pc).Some? && t.op.Writer? && t.op.key in d.intents ==> UpdateShape(now, t, d, h, a))
  { }

  lemma QuietEffectsOk(c: Config, p: Pid, now: int, q: Proc, d: Durable, h: Hist, w: World)
    requires Ready(c, p, q, d, h) && q.task.value.reply.None? && !TouchesIntents(q.task.value.pc)
    ensures EffectOk(c, p, q, d, h, Remote(p, now, q.task.value, d, h, w))
  {
    EffectShapes(p, now, q.task.value, d, h, w);
    EffectQuiet(c, p, q, d, h, Remote(p, now, q.task.value, d, h, w));
  }

  lemma WriteEffectOk(c: Config, p: Pid, now: int, q: Proc, d: Durable, h: Hist, w: World)
    requires Ready(c, p, q, d, h) && q.task.value.reply.None? && q.task.value.pc.Write?
    ensures EffectOk(c, p, q, d, h, Remote(p, now, q.task.value, d, h, w))
  {
    EffectWrite(c, p, q, d, h, w);
  }

  lemma ObserveEffectOk(c: Config, p: Pid, now: int, q: Proc, d: Durable, h: Hist, w: World)
    requires Ready(c, p, q, d, h) && q.task.value.reply.None? && q.task.value.pc.Observe?
    ensures EffectOk(c, p, q, d, h, Remote(p, now, q.task.value, d, h, w))
  {
    EffectObserve(c, p, q, d, h, w);
  }

  lemma MarkEffectOk(c: Config, p: Pid, now: int, q: Proc, d: Durable, h: Hist, w: World)
    requires Ready(c, p, q, d, h) && q.task.value.reply.None? && q.task.value.pc.ClearMark?
    ensures EffectOk(c, p, q, d, h, Remote(p, now, q.task.value, d, h, w))
  {
    EffectMark(c, p, now, q, d, h, w.fault);
  }

  lemma StatusEffectsOk(c: Config, p: Pid, now: int, q: Proc, d: Durable, h: Hist, w: World)
    requires Ready(c, p, q, d, h) && q.task.value.reply.None?
    requires q.task.value.pc.Reserve? || StatusWrite(q.task.value.pc).Some?
    ensures EffectOk(c, p, q, d, h, Remote(p, now, q.task.value, d, h, w))
  {
    var t := q.task.value;
    var a := Remote(p, now, t, d, h, w);
    EffectShapes(p, now, t, d, h, w);
    if t.pc.Reserve? { EffectReserve(c, p, now, q, d, h, a); } else { EffectUpdate(c, p, now, q, d, h, a); }
  }

  lemma EffectsOk(c: Config, p: Pid, now: int, q: Proc, d: Durable, h: Hist, w: World)
    requires Ready(c, p, q, d, h) && q.task.value.reply.None?
    ensures EffectOk(c, p, q, d, h, Remote(p, now, q.task.value, d, h, w))
  {
    var pc := q.task.value.pc;
    if !TouchesIntents(pc) { QuietEffectsOk(c, p, now, q, d, h, w); }
    else if pc.Reserve? || StatusWrite(pc).Some? { StatusEffectsOk(c, p, now, q, d, h, w); }
    else if pc.Write? { WriteEffectOk(c, p, now, q, d, h, w); }
    else if pc.Observe? { ObserveEffectOk(c, p, now, q, d, h, w); }
    else { MarkEffectOk(c, p, now, q, d, h, w); }
  }

  lemma EffectKept(c: Config, s: State, p: Pid, w: World)
    requires ValidConfig(c) && Inv(c, s)
    ensures Inv(c, Step(c, s, Effect(p, w)))
  {
    if p in s.procs && s.procs[p].task.Some? && s.procs[p].task.value.reply.None? {
      EffectsOk(c, p, s.now, s.procs[p], s.d, s.h, w);
      StepOf(c, s, Step(c, s, Effect(p, w)), p);
    }
  }
}
