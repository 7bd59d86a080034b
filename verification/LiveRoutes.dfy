/**
 The other ways in which one arm can yield two order calls: a refusal whose stored update loses its
 answer, and an order cut off in flight whose intent is then resolved by a clear, of another process or
 of the same one when that clear is cancelled after marking. Every route starts from any idle armed state.
 */
module LiveRoutes {
  import opened Options
  import opened LiveProtocol
  import opened LiveInvariant
  import opened LiveResume
  import opened LiveSafety
  import opened LiveExactness

  /** `s` after a first call for `k` that left the process armed and idle with nothing unresolved. */
  ghost predicate Escapes(c: Config, s: State, s0: State, p: Pid, k: Key, k2: Key) {
    && CanCall(c, s, p, k2) && p in s0.procs && s.procs[p] == s0.procs[p]
    && s.h.calls == s0.h.calls + [Call(p, s0.procs[p].arm, k, {k})]
  }

  /** From there the same arm calls again. */
  lemma CallsAgain(c: Config, s: State, s0: State, p: Pid, k: Key, k2: Key)
    requires Escapes(c, s, s0, p, k, k2)
    ensures Run(c, s, OrderRun(p, k2, s.procs[p].baseline.value)).h.calls
         == s0.h.calls + [Call(p, s0.procs[p].arm, k, {k}), Call(p, s0.procs[p].arm, k2, {k2})]
  {
    AnArmedProcessCanCall(c, s, p, k2);
  }

  // ---------------------------------------------------------------- a lost database answer

  /** The database stores the update and its answer is lost. */
  function Losing(equity: real): World { Calmly(equity).(fault := After) }

  function LostRun(p: Pid, equity: real): seq<Event> {
    Await(p, equity) + [Effect(p, Losing(equity)), Resume(p)]
  }

  lemma LostAnswerKeepsTheArm(c: Config, s0: State, s: State, p: Pid, k: Key)
    requires CanCall(c, s0, p, k) && Sent(s, s0, p, k)
    ensures var s' := Run(c, s, LostRun(p, s0.procs[p].baseline.value));
      && s'.now == s0.now && p in s'.procs && s'.procs[p] == s0.procs[p]
      && s'.d == s0.d.(intents := Refusal(s0.d.intents, k, s0.now))
      && s'.h.calls == s.h.calls
  {
    var e := s0.procs[p].baseline.value;
    RunAppend(c, s, Await(p, e), [Effect(p, Losing(e)), Resume(p)]);
    RefusalSeen(c, s0, s, p, k);
    RefusalLost(c, s0, Run(c, s, Await(p, e)), p, k);
  }

  lemma RefusalLost(c: Config, s0: State, s: State, p: Pid, k: Key)
    requires CanCall(c, s0, p, k) && Refusing(s, s0, p, k)
    ensures var s' := Run(c, s, [Effect(p, Losing(s0.procs[p].baseline.value)), Resume(p)]);
      && s'.now == s0.now && p in s'.procs && s'.procs[p] == s0.procs[p]
      && s'.d == s0.d.(intents := Refusal(s0.d.intents, k, s0.now)) && s'.h.calls == s.h.calls
  {
    var w := Losing(s0.procs[p].baseline.value);
    RunTwo(c, s, Effect(p, w), Resume(p));
    assert Step(c, s, Effect(p, w)).d.intents == Refusal(s0.d.intents, k, s0.now);
  }

  lemma TwoCallsByLostAnswer(c: Config, s: State, p: Pid, k: Key, k2: Key)
    requires CanCall(c, s, p, k) && CanCall(c, s, p, k2) && k != k2
    ensures var e := s.procs[p].baseline.value;
      Run(c, s, OrderRun(p, k, e) + LostRun(p, e) + OrderRun(p, k2, e)).h.calls
      == s.h.calls + [Call(p, s.procs[p].arm, k, {k}), Call(p, s.procs[p].arm, k2, {k2})]
  {
    var e := s.procs[p].baseline.value;
    RunAppend(c, s, OrderRun(p, k, e) + LostRun(p, e), OrderRun(p, k2, e));
    RunAppend(c, s, OrderRun(p, k, e), LostRun(p, e));
    AnArmedProcessCanCall(c, s, p, k);
    var s1 := Run(c, s, OrderRun(p, k, e));
    LostAnswerKeepsTheArm(c, s, s1, p, k);
    var s2 := Run(c, s1, LostRun(p, e));
    NothingLeft(s.d.intents, k, s.now);
    CallsAgain(c, s2, s, p, k, k2);
  }

  lemma NothingLeft(m: Intents, k: Key, now: int)
    requires Rows(m) == map[]
    ensures Rows(Refusal(m, k, now)) == map[]
  {
    forall o | o in Refusal(m, k, now) ensures !IsUnresolved(Refusal(m, k, now)[o]) {
      if o != k { assert o !in Rows(m); }
    }
  }

  // ---------------------------------------------------------------- an order cut off in flight

  /** The state after the order call for `k` was cut off while the exchange had not answered. */
  function InFlight(s: State, p: Pid, k: Key): State
    requires p in s.procs
  {
    s.(d := s.d.(intents := Booked(s.d.intents, k, s.now)),
       h := s.h.(calls := s.h.calls + [Call(p, s.procs[p].arm, k, {k})], writes := s.h.writes + [k]))
  }

  lemma CutInFlight(c: Config, s0: State, p: Pid, k: Key)
    requires CanCall(c, s0, p, k)
    ensures Run(c, s0, OrderRun(p, k, s0.procs[p].baseline.value) + [CancelTask(p)]) == InFlight(s0, p, k)
  {
    var e := s0.procs[p].baseline.value;
    RunAppend(c, s0, OrderRun(p, k, e), [CancelTask(p)]);
    AnArmedProcessCanCall(c, s0, p, k);
    var s := Run(c, s0, OrderRun(p, k, e));
    assert Run(c, s, [CancelTask(p)]) == Step(c, s, CancelTask(p)) by { assert [CancelTask(p)][1..] == []; }
  }

  // ---------------------------------------------------------------- a clear, up to its marking

  /** Some run leads from `s` to `t`. */
  ghost predicate Leads(c: Config, s: State, t: State) { exists es: seq<Event> :: Run(c, s, es) == t }

  lemma LeadsOn(c: Config, s: State, t: State, u: State)
    requires Leads(c, s, t) && Leads(c, t, u)
    ensures Leads(c, s, u)
  {
    var a: seq<Event> :| Run(c, s, a) == t;
    var b: seq<Event> :| Run(c, t, b) == u;
    RunAppend(c, s, a, b);
  }

  lemma LeadsStep(c: Config, s: State, e: Event)
    ensures Leads(c, s, Step(c, s, e))
  {
    assert [e][1..] == [];
    assert Run(c, s, [e]) == Step(c, s, e);
  }

  lemma LeadsTwo(c: Config, s: State, a: Event, b: Event)
    ensures Leads(c, s, Step(c, Step(c, s, a), b))
  {
    RunTwo(c, s, a, b);
  }

  /** A flat account whose recovery observations are usable and empty. */
  function Flatly(equity: real): World {
    World(NoFault, FlatAccount(equity), Unknown, IDLE, Poll(FlatAccount(equity), Some(map[])))
  }

  /** `s0` while process `o` holds the guard with task `t`. */
  function Holding(s0: State, o: Pid, t: Task): State
    requires o in s0.procs
  {
    s0.(d := s0.d.(lock := Some(o)), procs := s0.procs[o := s0.procs[o].(task := Some(t))])
  }

  /** An idle process on a clear latch that nobody locks. */
  predicate CanClear(s: State, o: Pid) { o in s.procs && s.procs[o].task.None? && s.d.lock.None? && !s.d.latched }

  function FlatPoll(equity: real): Poll { Poll(FlatAccount(equity), Some(map[])) }

  function FlatPolls(n: nat, equity: real): (ps: seq<Poll>)
    ensures |ps| == n && forall i :: 0 <= i < n ==> ps[i] == FlatPoll(equity)
  {
    if n == 0 then [] else FlatPolls(n - 1, equity) + [FlatPoll(equity)]
  }

  function Clearing(s: State, pc: Pc, polls: seq<Poll>): Task {
    Task(Clear(Rows(s.d.intents)), pc, None, None, polls, false, if pc.ClearLatchRead? then 0 else s.d.version)
  }

  lemma ClearBegins(c: Config, s0: State, o: Pid, e: real)
    requires CanClear(s0, o)
    ensures Leads(c, s0, Holding(s0, o, Clearing(s0, ClearLatchRead, [])))
  {
    var b := Begin(o, Clear(Rows(s0.d.intents)));
    var s1 := Step(c, s0, b);
    LeadsStep(c, s0, b);
    LeadsTwo(c, s1, Effect(o, Flatly(e)), Resume(o));
    LeadsOn(c, s0, s1, Step(c, Step(c, s1, Effect(o, Flatly(e))), Resume(o)));
  }

  lemma ClearLatchSeen(c: Config, s0: State, o: Pid, e: real)
    requires CanClear(s0, o)
    ensures Leads(c, Holding(s0, o, Clearing(s0, ClearLatchRead, [])),
                  Holding(s0, o, Clearing(s0, ClearIntentRead, [])))
  {
    LeadsTwo(c, Holding(s0, o, Clearing(s0, ClearLatchRead, [])), Effect(o, Flatly(e)), Resume(o));
  }

  lemma ClearRowsSeen(c: Config, s0: State, o: Pid, e: real)
    requires CanClear(s0, o)
    ensures Leads(c, Holding(s0, o, Clearing(s0, ClearIntentRead, [])), Holding(s0, o, Clearing(s0, ClearPoll, [])))
  {
    LeadsTwo(c, Holding(s0, o, Clearing(s0, ClearIntentRead, [])), Effect(o, Flatly(e)), Resume(o));
  }

  function PollPc(c: Config, n: nat): Pc { if n < c.flatPolls then ClearPoll else ClearMark }

  lemma PollAdds(c: Config, s0: State, q: Proc, t: Task, e: real, n: nat)
    requires n < c.flatPolls && t == Clearing(s0, ClearPoll, FlatPolls(n, e)).(reply := Some(Polled(FlatPoll(e))))
    requires q.task == Some(t)
    ensures PollSeen(c, q, Polled(FlatPoll(e)))
         == q.(task := Some(Clearing(s0, PollPc(c, n + 1), FlatPolls(n + 1, e))))
  { }

  lemma ClearPollSeen(c: Config, s0: State, o: Pid, e: real, n: nat)
    requires CanClear(s0, o) && n < c.flatPolls
    ensures Leads(c, Holding(s0, o, Clearing(s0, ClearPoll, FlatPolls(n, e))),
                  Holding(s0, o, Clearing(s0, PollPc(c, n + 1), FlatPolls(n + 1, e))))
  {
    var t := Clearing(s0, ClearPoll, FlatPolls(n, e));
    var t' := t.(reply := Some(Polled(FlatPoll(e))));
    LeadsTwo(c, Holding(s0, o, t), Effect(o, Flatly(e)), Resume(o));
    PollAdds(c, s0, s0.procs[o].(task := Some(t')), t', e, n);
  }

  lemma {:induction false} ClearReachesMark(c: Config, s0: State, o: Pid, e: real, n: nat)
    requires CanClear(s0, o) && n < c.flatPolls
    ensures Leads(c, Holding(s0, o, Clearing(s0, ClearPoll, FlatPolls(n, e))),
                  Holding(s0, o, Clearing(s0, ClearMark, FlatPolls(c.flatPolls, e))))
    decreases c.flatPolls - n
  {
    ClearPollSeen(c, s0, o, e, n);
    if n + 1 < c.flatPolls {
      ClearReachesMark(c, s0, o, e, n + 1);
      LeadsOn(c, Holding(s0, o, Clearing(s0, ClearPoll, FlatPolls(n, e))),
              Holding(s0, o, Clearing(s0, ClearPoll, FlatPolls(n + 1, e))),
              Holding(s0, o, Clearing(s0, ClearMark, FlatPolls(c.flatPolls, e))));
    }
  }

  /** From every idle process on a clear latch a clear of what is unresolved gets as far as marking. */
  lemma ClearGetsToMark(c: Config, s0: State, o: Pid, e: real)
    requires ValidConfig(c) && CanClear(s0, o)
    ensures Leads(c, s0, Holding(s0, o, Clearing(s0, ClearMark, FlatPolls(c.flatPolls, e))))
  {
    ClearBegins(c, s0, o, e);
    ClearLatchSeen(c, s0, o, e);
    ClearRowsSeen(c, s0, o, e);
    ClearReachesMark(c, s0, o, e, 0);
    var a, b := Holding(s0, o, Clearing(s0, ClearLatchRead, [])), Holding(s0, o, Clearing(s0, ClearIntentRead, []));
    var d := Holding(s0, o, Clearing(s0, ClearPoll, []));
    var m := Holding(s0, o, Clearing(s0, ClearMark, FlatPolls(c.flatPolls, e)));
    LeadsOn(c, s0, a, b);
    LeadsOn(c, s0, b, d);
    LeadsOn(c, s0, d, m);
  }

  // ---------------------------------------------------------------- what the marking leaves

  /** `s0` with every unresolved intent marked as reconciled on the evidence of `o`'s polls. */
  function Marked(s0: State, o: Pid, polls: seq<Poll>): State {
    var a := Marking(o, s0.now, Clearing(s0, ClearMark, polls), s0.d, s0.h, NoFault);
    s0.(d := a.d, h := a.h)
  }

  lemma MarkedResolves(s0: State, o: Pid, polls: seq<Poll>)
    ensures var m := Marked(s0, o, polls);
      && Rows(m.d.intents) == map[] && m.d.intents.Keys == s0.d.intents.Keys && m.d.lock == s0.d.lock
      && m.d.latched == s0.d.latched && m.procs == s0.procs && m.h.calls == s0.h.calls && m.now == s0.now
  {
    var m := Marked(s0, o, polls);
    forall k | k in m.d.intents ensures !IsUnresolved(m.d.intents[k]) { }
  }

  /**
   Cancelled right after the marking has taken effect, the clear ends without lifting, stopping or disarming
   anything.
   */
  lemma ClearCut(c: Config, s0: State, o: Pid, polls: seq<Poll>, e: real)
    requires CanClear(s0, o)
    ensures var m := Marked(s0, o, polls);
      Leads(c, Holding(s0, o, Clearing(s0, ClearMark, polls)),
            m.(h := m.h.(clearCut := m.h.clearCut + Rows(s0.d.intents).Keys)))
  {
    var s := Holding(s0, o, Clearing(s0, ClearMark, polls));
    var m := Marked(s0, o, polls);
    LeadsTwo(c, s, Effect(o, Flatly(e)), CancelTask(o));
    assert Step(c, Step(c, s, Effect(o, Flatly(e))), CancelTask(o)).procs == s0.procs;
  }

  lemma MarkSeen(c: Config, s0: State, o: Pid, polls: seq<Poll>, e: real)
    requires CanClear(s0, o)
    ensures Leads(c, Holding(s0, o, Clearing(s0, ClearMark, polls)),
                  Holding(Marked(s0, o, polls), o, Clearing(s0, ClearRemaining, polls)))
  {
    LeadsTwo(c, Holding(s0, o, Clearing(s0, ClearMark, polls)), Effect(o, Flatly(e)), Resume(o));
  }

  lemma RemainingSeen(c: Config, m: State, s0: State, o: Pid, polls: seq<Poll>, e: real)
    requires CanClear(s0, o) && m == Marked(s0, o, polls)
    ensures Leads(c, Holding(m, o, Clearing(s0, ClearRemaining, polls)), Holding(m, o, Clearing(s0, ClearLatch, polls)))
  {
    MarkedResolves(s0, o, polls);
    LeadsTwo(c, Holding(m, o, Clearing(s0, ClearRemaining, polls)), Effect(o, Flatly(e)), Resume(o));
  }

  lemma LatchSeen(c: Config, m: State, s0: State, o: Pid, polls: seq<Poll>, e: real)
    requires CanClear(s0, o) && m == Marked(s0, o, polls)
    ensures Leads(c, Holding(m, o, Clearing(s0, ClearLatch, polls)),
                  m.(procs := m.procs[o := Disarm(s0.procs[o].(stop := false), false)]))
  {
    LeadsTwo(c, Holding(m, o, Clearing(s0, ClearLatch, polls)), Effect(o, Flatly(e)), Resume(o));
  }

  /** Left alone, the clear ends with its own process disarmed and unstopped, and every other process as it was. */
  lemma ClearEnds(c: Config, s0: State, o: Pid, polls: seq<Poll>, e: real)
    requires CanClear(s0, o)
    ensures var m := Marked(s0, o, polls);
      Leads(c, Holding(s0, o, Clearing(s0, ClearMark, polls)),
            m.(procs := m.procs[o := Disarm(s0.procs[o].(stop := false), false)]))
  {
    var m := Marked(s0, o, polls);
    var u := m.(procs := m.procs[o := Disarm(s0.procs[o].(stop := false), false)]);
    MarkSeen(c, s0, o, polls, e);
    RemainingSeen(c, m, s0, o, polls, e);
    LatchSeen(c, m, s0, o, polls, e);
    LeadsOn(c, Holding(s0, o, Clearing(s0, ClearMark, polls)), Holding(m, o, Clearing(s0, ClearRemaining, polls)),
            Holding(m, o, Clearing(s0, ClearLatch, polls)));
    LeadsOn(c, Holding(s0, o, Clearing(s0, ClearMark, polls)), Holding(m, o, Clearing(s0, ClearLatch, polls)), u);
  }

  // ---------------------------------------------------------------- two more routes

  ghost predicate TwoCalls(c: Config, s: State, p: Pid, k: Key, k2: Key)
    requires p in s.procs
  {
    exists t: State :: Leads(c, s, t)
      && t.h.calls == s.h.calls + [Call(p, s.procs[p].arm, k, {k}), Call(p, s.procs[p].arm, k2, {k2})]
  }

  lemma InFlightReached(c: Config, s: State, p: Pid, k: Key)
    requires CanCall(c, s, p, k)
    ensures Leads(c, s, InFlight(s, p, k))
  {
    CutInFlight(c, s, p, k);
  }

  lemma EscapesCalls(c: Config, s: State, u: State, p: Pid, k: Key, k2: Key)
    requires p in s.procs && Leads(c, s, u) && Escapes(c, u, s, p, k, k2)
    ensures TwoCalls(c, s, p, k, k2)
  {
    CallsAgain(c, u, s, p, k, k2);
    var t := Run(c, u, OrderRun(p, k2, u.procs[p].baseline.value));
    assert Leads(c, u, t);
    LeadsOn(c, s, u, t);
  }

  /** The order is cut off in flight, and the process's own clear is cancelled after it has marked the intent. */
  lemma TwoCallsByCutClear(c: Config, s: State, p: Pid, k: Key, k2: Key)
    requires ValidConfig(c) && CanCall(c, s, p, k) && CanCall(c, s, p, k2) && k != k2
    ensures TwoCalls(c, s, p, k, k2)
  {
    var e := s.procs[p].baseline.value;
    var s1, polls := InFlight(s, p, k), FlatPolls(c.flatPolls, e);
    InFlightReached(c, s, p, k);
    ClearGetsToMark(c, s1, p, e);
    ClearCut(c, s1, p, polls, e);
    var m := Marked(s1, p, polls);
    var u := m.(h := m.h.(clearCut := m.h.clearCut + Rows(s1.d.intents).Keys));
    MarkedResolves(s1, p, polls);
    LeadsOn(c, s, s1, Holding(s1, p, Clearing(s1, ClearMark, polls)));
    LeadsOn(c, s, Holding(s1, p, Clearing(s1, ClearMark, polls)), u);
    EscapesCalls(c, s, u, p, k, k2);
  }

  /** The order is cut off in flight, and another process clears its intent and ends properly. */
  lemma TwoCallsByOtherClear(c: Config, s: State, p: Pid, o: Pid, k: Key, k2: Key)
    requires ValidConfig(c) && CanCall(c, s, p, k) && CanCall(c, s, p, k2) && k != k2
    requires o != p && o in s.procs && s.procs[o].task.None?
    ensures TwoCalls(c, s, p, k, k2)
  {
    var e := s.procs[p].baseline.value;
    var s1, polls := InFlight(s, p, k), FlatPolls(c.flatPolls, e);
    InFlightReached(c, s, p, k);
    ClearGetsToMark(c, s1, o, e);
    ClearEnds(c, s1, o, polls, e);
    var m := Marked(s1, o, polls);
    var u := m.(procs := m.procs[o := Disarm(s1.procs[o].(stop := false), false)]);
    MarkedResolves(s1, o, polls);
    LeadsOn(c, s, s1, Holding(s1, o, Clearing(s1, ClearMark, polls)));
    LeadsOn(c, s, Holding(s1, o, Clearing(s1, ClearMark, polls)), u);
    EscapesCalls(c, s, u, p, k, k2);
  }
}
