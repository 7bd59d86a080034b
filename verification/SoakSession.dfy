/**
 The controlled soak session above the demo automation: a bounded number of runs, a bounded number of
 order attempts over all of them, and an end that is recorded once.
 */
module SoakSession {
  import opened Options
  import Sizing = DemoSizing
  import Allocator = DemoAllocator

  datatype Phase = Running | Completed | Stopped | SafetyStopped | Failed

  datatype Reason =
    | SubmissionLimitReached | SubmissionLimitExceeded | DurationReached | MaxRunsReached | OpenExposure
    | Operator | UnsafeAccount | MissingProtection | LossLimit
    | ErrorThreshold | RunFailed | LoopFailed | LimitCheckFailed

  /** Counts of positions, orders and algo orders in a reconciled snapshot. */
  datatype Exposure = Exposure(positions: nat, orders: nat, algos: nat)

  predicate Flat(e: Exposure) { e.positions == 0 && e.orders == 0 && e.algos == 0 }

  /** What one automation run does: refused outright, ended before its scan, or scanned a ranked list. */
  datatype Run =
    | Refused
    | Unscanned(error: bool)
    | Ranked(g: Sizing.Budget, equity: real, available: real, portfolio: seq<Sizing.Trade>, items: seq<Allocator.Item>,
             error: bool, escapes: bool)

  predicate ValidRun(r: Run) {
    r.Ranked? ==>
      && Sizing.ValidBudget(r.g) && r.equity > 0.0 && r.available >= 0.0
      && forall i :: 0 <= i < |r.items| ==> Sizing.ValidTicket(r.items[i].ticket)
  }

  type CheckedRun = r: Run | ValidRun(r) witness Refused

  /**
   The outside world, read one step at a time: whether an external call fails, what a snapshot shows,
   whether a check on it trips, what a run does, and what the clock and the operator say.
   */
  datatype World = World(
    fails: nat -> bool, exposure: nat -> Exposure, unsafe: nat -> bool, silent: nat -> bool, unprotected: nat -> bool,
    lossHit: nat -> bool, run: nat -> CheckedRun, late: nat -> bool, stopping: nat -> bool)

  /** One automation run of the session: where its account check began, and the order attempts it made. */
  datatype RunNote = RunNote(at: nat, made: nat)

  function Made(notes: seq<RunNote>): nat {
    if notes == [] then 0 else Made(notes[..|notes| - 1]) + notes[|notes| - 1].made
  }

  lemma MadeNext(notes: seq<RunNote>, n: RunNote)
    ensures Made(notes + [n]) == Made(notes) + n.made
  {
    assert (notes + [n])[..|notes|] == notes;
  }

  predicate RunErrs(r: Run) { (r.Unscanned? && r.error) || (r.Ranked? && r.error) }

  /** How a step of the session ends. */
  datatype Signal = Go | Halt | Raised

  class Soak {
    const world: World
    const serviceAvailable: bool
    const execute: bool
    const autoDisarm: bool
    const requireProtection: bool
    const polls: nat
    const maxRuns: nat
    const maxSubmissions: nat
    const errorThreshold: nat

    /** Position in the world's answers. */
    var step: nat
    var phase: Phase
    var reason: Option<Reason>
    var completedRuns: nat
    var submitted: nat
    var errorRuns: nat
    var consecutiveErrors: nat
    var exposure: Exposure
    var autoDisarmed: bool
    var emergency: bool

    /** Order attempts made by all runs of the session, counted where the orders are sent. */
    ghost var attempts: nat
    /** How often the session has left `Running`. */
    ghost var exits: nat
    /** The runs of the session. */
    ghost var notes: seq<RunNote>

    /**
     The account check that begins at step `k` finds everything in order: the service is there, the account is read
     and safe, positions are protected where that is required, and the loss limit is not reached.
     */
    predicate SafeAt(k: nat) {
      && serviceAvailable && !world.fails(k) && !world.unsafe(k + 1) && !world.lossHit(k + 1)
      && (world.exposure(k).positions > 0 && requireProtection ==> !world.unprotected(k + 1))
    }

    /** Every attempt belongs to a run, and a run of an execute session that makes any began with a safe check. */
    ghost predicate Guarded()
      reads this
    {
      && attempts == Made(notes) && |notes| <= completedRuns + 1
      && (execute ==> forall i :: 0 <= i < |notes| && notes[i].made > 0 ==> SafeAt(notes[i].at))
    }

    /**
     Attempts stay within the session's budget, the session has left `Running` at most once, and a
     completed execute session ended on a flat snapshot.
     */
    ghost predicate Valid()
      reads this
    {
      && Guarded() && submitted <= attempts && attempts <= (if execute then maxSubmissions else 0)
      && exits == (if phase == Running then 0 else 1)
      && (phase == Running <==> reason.None?)
      && (execute && phase == Completed ==> Flat(exposure))
    }

    /** Valid, and the over-limit stop has not been taken. */
    ghost predicate WithinLimit()
      reads this
    {
      Valid() && reason != Some(SubmissionLimitExceeded)
    }

    constructor (world: World, serviceAvailable: bool, execute: bool, autoDisarm: bool, requireProtection: bool,
                 polls: nat, maxRuns: nat, maxSubmissions: nat, errorThreshold: nat)
      ensures WithinLimit() && phase == Running && attempts == 0 && notes == [] && completedRuns == 0
      ensures this.execute == execute && this.maxSubmissions == maxSubmissions && this.maxRuns == maxRuns
      ensures this.world == world && this.serviceAvailable == serviceAvailable
      ensures this.requireProtection == requireProtection && this.errorThreshold == errorThreshold
    {
      this.world, this.serviceAvailable := world, serviceAvailable;
      this.execute, this.autoDisarm, this.requireProtection := execute, autoDisarm, requireProtection;
      this.polls, this.maxRuns := polls, maxRuns;
      this.maxSubmissions, this.errorThreshold := maxSubmissions, errorThreshold;
      step, phase, reason, exposure := 0, Running, None, Exposure(0, 0, 0);
      completedRuns, submitted, errorRuns, consecutiveErrors := 0, 0, 0, 0;
      autoDisarmed, emergency, attempts, exits, notes := false, false, 0, 0, [];
    }

    /** One external call: a repository write, a reconcile, a request to the automation. */
    method Call() returns (ok: bool)
      modifies this`step
      ensures ok == !world.fails(old(step)) && step == old(step) + 1
    {
      ok := !world.fails(step);
      step := step + 1;
    }

    /** `_finish_soak`: takes effect exactly when the session is still running. */
    method Finish(end: Phase, why: Reason) returns (raised: bool)
      requires Valid() && end != Running
      requires end == Completed && execute ==> Flat(exposure)
      modifies this`step, this`autoDisarmed, this`phase, this`reason, this`exits
      ensures Valid() && phase != Running
      ensures if old(phase) == Running then phase == end && reason == Some(why)
              else phase == old(phase) && reason == old(reason) && step == old(step) && !raised
      ensures old(phase) == Running && execute && autoDisarm ==>
        (autoDisarmed <==> old(autoDisarmed) || !world.fails(old(step)))
    {
      raised := false;
      if phase != Running { return; }
      if execute && autoDisarm {
        var disarmed := Call();
        if disarmed { autoDisarmed := true; }
      }
      phase, reason, exits := end, Some(why), exits + 1;
      var saved := Call();
      if !saved { return true; }
      var told := Call();
      raised := !told;
    }

    /**
     `_safety_stop`. The event is written first, so a running session is stopped, and the emergency stop
     asked for, exactly when that write succeeds.
     */
    method SafetyStop(why: Reason, engage: bool) returns (r: Signal)
      requires Valid()
      modifies this`step, this`autoDisarmed, this`phase, this`reason, this`exits, this`emergency
      ensures Valid() && r != Go
      ensures old(phase) != Running ==>
        r == Halt && phase == old(phase) && reason == old(reason) && emergency == old(emergency)
      ensures old(phase) == Running ==> (phase == Running <==> world.fails(old(step)))
      ensures phase == Running ==> r == Raised && emergency == old(emergency) && autoDisarmed == old(autoDisarmed)
      ensures phase == Running ==> step == old(step) + 1
      ensures old(phase) == Running && phase != Running ==> phase == SafetyStopped && reason == Some(why)
      ensures old(phase) == Running && phase != Running && engage ==>
        (emergency <==> old(emergency) || !world.fails(old(step) + 1))
    {
      if phase != Running { return Halt; }
      var told := Call();
      if !told { return Raised; }
      if engage {
        var engaged := Call();
        if engaged { emergency := true; }
      }
      var raised := Finish(SafetyStopped, why);
      r := if raised then Raised else Halt;
    }

    method Reconcile() returns (ok: bool)
      modifies this`step, this`exposure
      ensures step == old(step) + 1 && ok == !world.fails(old(step))
      ensures exposure == if ok then world.exposure(old(step)) else old(exposure)
    {
      var here := step;
      ok := Call();
      if ok { exposure := world.exposure(here); }
    }

    /** Poll until protection shows up; the exposure is that of the last snapshot read. */
    method PollProtection() returns (ok: bool, protected: bool)
      modifies this`step, this`exposure
      ensures step >= old(step) && (ok && protected ==> !world.unprotected(step))
    {
      ok, protected := true, false;
      var i := 0;
      while i < polls && !protected
        invariant step >= old(step) && ok && (protected ==> !world.unprotected(step))
      {
        ok := Reconcile();
        if !ok { return; }
        protected := !world.unprotected(step);
        i := i + 1;
      }
    }

    /** `_refresh_execution_safety`: goes on only with the session still running. */
    method Refresh(poll: bool) returns (r: Signal)
      requires WithinLimit() && phase == Running
      modifies this`step, this`exposure, this`autoDisarmed, this`phase, this`reason, this`exits, this`emergency
      ensures WithinLimit()
      ensures r == Go ==> phase == Running && serviceAvailable
      ensures r == Halt ==> phase != Running
      ensures phase != Running ==> phase == SafetyStopped
      ensures !poll ==> (r == Go <==> SafeAt(old(step)) && !world.fails(old(step) + 1))
      ensures r == Go ==>
        && !world.fails(old(step)) && !world.unsafe(old(step) + 1) && step > old(step) && !world.lossHit(step - 1)
        && (world.exposure(old(step)).positions > 0 && requireProtection ==> !world.unprotected(step - 1))
      ensures phase != Running ==>
        if !serviceAvailable || world.unsafe(old(step) + 1) then reason == Some(UnsafeAccount)
        else reason == Some(MissingProtection) || reason == Some(LossLimit)
      ensures reason == Some(MissingProtection) ==>
        requireProtection && world.exposure(old(step)).positions > 0 && world.unprotected(old(step) + 1)
    {
      if !serviceAvailable { r := SafetyStop(UnsafeAccount, true); return; }
      var ok := Reconcile();
      if !ok { return Raised; }
      if world.unsafe(step) { r := SafetyStop(UnsafeAccount, !world.silent(step)); return; }
      if exposure.positions > 0 && requireProtection {
        var protected := !world.unprotected(step);
        if !protected && poll {
          ok, protected := PollProtection();
          if !ok { return Raised; }
        }
        if !protected {
          ok := Call();
          if !ok { return Raised; }
          r := SafetyStop(MissingProtection, true);
          return;
        }
      }
      r := CheckLoss();
    }

    method CheckLoss() returns (r: Signal)
      requires WithinLimit() && phase == Running
      modifies this`step, this`autoDisarmed, this`phase, this`reason, this`exits, this`emergency
      ensures WithinLimit()
      ensures r == Go <==> !world.lossHit(old(step)) && !world.fails(old(step))
      ensures r == Go ==> phase == Running && step == old(step) + 1
      ensures r == Halt ==> phase != Running
      ensures phase != Running ==> phase == SafetyStopped && reason == Some(LossLimit) && world.lossHit(old(step))
    {
      if world.lossHit(step) {
        var noted := Call();
        if !noted { return Raised; }
        r := SafetyStop(LossLimit, true);
        return;
      }
      var ok := Call();
      r := if ok then Go else Raised;
    }

    /**
     One automation run under the session's remaining budget. Order attempts are counted as the scan makes
     them, whether or not the run reports back.
     */
    method RunOnce(limit: Option<nat>) returns (reported: Option<nat>, error: bool)
      requires execute <==> limit.Some?
      modifies this`step, this`attempts
      ensures step == old(step) + 1
      ensures old(attempts) <= attempts <= old(attempts) + (if limit.Some? then limit.value else 0)
      ensures reported.Some? ==> attempts == old(attempts) + reported.value
      ensures error == RunErrs(world.run(old(step)))
    {
      var run := world.run(step);
      step := step + 1;
      match run
      case Refused => reported, error := None, false;
      case Unscanned(e) => reported, error := Some(0), e;
      case Ranked(g, equity, available, portfolio, items, e, escapes) =>
        var z := Allocator.Scan(g, equity, available, portfolio, items, execute, limit);
        Allocator.ScanStaysInBudget(g, equity, available, portfolio, items, execute, limit);
        attempts := attempts + z.attempts;
        reported, error := if escapes then None else Some(z.attempts), e;
    }

    /** The run and its note. */
    method RunNoted(budget: nat, ghost check: nat) returns (reported: Option<nat>, error: bool)
      requires WithinLimit() && submitted == attempts && (execute ==> submitted + budget <= maxSubmissions)
      requires |notes| <= completedRuns && (execute ==> SafeAt(check))
      modifies this`step, this`attempts, this`notes
      ensures WithinLimit() && |notes| == old(|notes|) + 1
      ensures old(attempts) <= attempts <= old(attempts) + (if execute then budget else 0)
      ensures reported.Some? ==> attempts == old(attempts) + reported.value
      ensures error == RunErrs(world.run(old(step)))
    {
      reported, error := RunOnce(if execute then Some(budget) else None);
      ghost var note := RunNote(check, attempts - old(attempts));
      MadeNext(notes, note);
      notes := notes + [note];
    }

    /** Check the account, and complete the session when the budget is spent and nothing is open. */
    method Checkpoint(poll: bool) returns (r: Signal)
      requires WithinLimit() && phase == Running && execute
      modifies this`step, this`exposure, this`autoDisarmed, this`phase, this`reason, this`exits, this`emergency
      ensures WithinLimit()
      ensures r == Go ==> phase == Running && (submitted < maxSubmissions || !Flat(exposure))
      ensures r == Halt ==> phase != Running
      ensures phase == Completed ==>
        submitted >= maxSubmissions && Flat(exposure) && reason == Some(SubmissionLimitReached)
      ensures r == Go && !poll ==> SafeAt(old(step))
    {
      r := Refresh(poll);
      if r != Go { return; }
      if submitted >= maxSubmissions && Flat(exposure) {
        var raised := Finish(Completed, SubmissionLimitReached);
        r := if raised then Raised else Halt;
      }
    }

    /** `_apply_run`. */
    method Apply(made: nat, error: bool)
      modifies this`completedRuns, this`submitted, this`errorRuns, this`consecutiveErrors
      ensures completedRuns == old(completedRuns) + 1 && submitted == old(submitted) + made
      ensures consecutiveErrors == (if error then old(consecutiveErrors) + 1 else 0)
      ensures errorRuns == old(errorRuns) + (if error then 1 else 0)
    {
      completedRuns, submitted := completedRuns + 1, submitted + made;
      if error {
        errorRuns, consecutiveErrors := errorRuns + 1, consecutiveErrors + 1;
      } else {
        consecutiveErrors := 0;
      }
    }

    /** The run itself under what is left of the budget, and `_apply_run`. */
    method RunAndCount(budget: nat, ghost check: nat) returns (r: Signal, made: nat)
      requires WithinLimit() && submitted == attempts && (execute ==> submitted + budget <= maxSubmissions)
      requires |notes| <= completedRuns && (execute ==> SafeAt(check))
      modifies this`step, this`attempts, this`completedRuns, this`submitted, this`errorRuns, this`consecutiveErrors,
               this`notes
      ensures WithinLimit() && r != Halt
      ensures r == Go ==>
        submitted == attempts && completedRuns == old(completedRuns) + 1 && made == attempts - old(attempts)
      ensures r == Go && execute ==> made <= budget
      ensures completedRuns >= old(completedRuns) && |notes| == old(|notes|) + 1
      ensures r == Go ==>
        && consecutiveErrors == (if RunErrs(world.run(old(step))) then old(consecutiveErrors) + 1 else 0)
        && errorRuns == old(errorRuns) + (if RunErrs(world.run(old(step))) then 1 else 0)
    {
      made := 0;
      var reported, error := RunNoted(budget, check);
      if reported.None? { return Raised, 0; }
      made := reported.value;
      Apply(made, error);
      var saved := Call();
      r := if saved then Go else Raised;
    }

    /** After a run: more attempts than were allowed stop the session, otherwise the account is checked. */
    method AfterRun(made: nat, budget: nat) returns (r: Signal)
      requires WithinLimit() && phase == Running && execute
      modifies this`step, this`exposure, this`autoDisarmed, this`phase, this`reason, this`exits, this`emergency
      ensures Valid() && (made <= budget ==> WithinLimit())
      ensures made > budget ==> r != Go && (reason == Some(SubmissionLimitExceeded) <==> !world.fails(old(step)))
      ensures r == Go ==> phase == Running
      ensures r == Halt ==> phase != Running
    {
      if made > budget {
        r := SafetyStop(SubmissionLimitExceeded, true);
        return;
      }
      r := Checkpoint(made > 0);
    }

    /** The guarded part of `_execute_soak_run`. */
    method RunGuarded() returns (r: Signal)
      requires WithinLimit() && submitted == attempts && (execute ==> phase == Running) && |notes| <= completedRuns
      modifies this
      ensures WithinLimit()
      ensures r == Go && execute ==> phase == Running
      ensures r == Go ==> submitted == attempts && completedRuns == old(completedRuns) + 1
      ensures r == Halt ==> phase != Running
      ensures completedRuns >= old(completedRuns) && |notes| <= old(|notes|) + 1
      ensures r == Go ==> consecutiveErrors < errorThreshold
    {
      ghost var check := step;
      if execute {
        r := Checkpoint(false);
        if r != Go { return; }
      }
      var budget := if submitted <= maxSubmissions then maxSubmissions - submitted else 0;
      var made;
      r, made := RunAndCount(budget, check);
      if r != Go { return; }
      if execute {
        r := AfterRun(made, budget);
        if r != Go { return; }
      }
      if consecutiveErrors >= errorThreshold { r := TooManyErrors(); }
    }

    method TooManyErrors() returns (r: Signal)
      requires WithinLimit()
      modifies this`step, this`autoDisarmed, this`phase, this`reason, this`exits, this`emergency
      ensures WithinLimit() && r != Go
      ensures r == Halt ==> phase != Running
      ensures old(phase) == Running && phase != Running ==>
        reason == Some(ErrorThreshold) && phase == if execute then SafetyStopped else Failed
      ensures old(phase) == Running ==> (phase == Running <==> world.fails(old(step)))
    {
      if execute { r := SafetyStop(ErrorThreshold, true); return; }
      var told := Call();
      if !told { return Raised; }
      var raised := Finish(Failed, ErrorThreshold);
      r := if raised then Raised else Halt;
    }

    /**
     `_execute_soak_run`: an exception ends an execute session; a dry session goes on. Either way the run
     is counted.
     */
    method ExecuteRun() returns (r: Signal)
      requires WithinLimit() && submitted == attempts && (execute ==> phase == Running) && |notes| <= completedRuns
      modifies this
      ensures WithinLimit()
      ensures r == Go ==> completedRuns > old(completedRuns) && submitted == attempts
      ensures |notes| <= old(|notes|) + 1
      ensures r == Go && execute ==> phase == Running
      ensures r == Halt ==> phase != Running
    {
      r := RunGuarded();
      if r == Raised { r := CountFailure(); }
    }

    /** The exception path of `_execute_soak_run`. */
    method CountFailure() returns (r: Signal)
      requires WithinLimit()
      modifies this`step, this`completedRuns, this`errorRuns, this`consecutiveErrors, this`autoDisarmed, this`phase,
               this`reason, this`exits, this`emergency
      ensures WithinLimit() && completedRuns == old(completedRuns) + 1 && errorRuns == old(errorRuns) + 1
      ensures consecutiveErrors == old(consecutiveErrors) + 1
      ensures r == Go ==> !execute && phase == old(phase)
      ensures r == Halt ==> phase != Running
      ensures old(phase) == Running && phase != Running ==> phase == SafetyStopped && reason == Some(RunFailed)
    {
      completedRuns, errorRuns, consecutiveErrors := completedRuns + 1, errorRuns + 1, consecutiveErrors + 1;
      var saved := Call();
      if !saved { return Raised; }
      var told := Call();
      if !told { return Raised; }
      if execute { r := SafetyStop(RunFailed, true); } else { r := Go; }
    }

    /** `_finish_for_limit`: an execute session completes only on a flat snapshot. */
    method FinishForLimit(why: Reason) returns (raised: bool)
      requires WithinLimit() && (why == DurationReached || why == MaxRunsReached) && (execute ==> phase == Running)
      modifies this`step, this`exposure, this`autoDisarmed, this`phase, this`reason, this`exits, this`emergency
      ensures WithinLimit()
      ensures !raised ==> phase != Running
      ensures old(phase) == Running && phase == Completed ==> reason == Some(why)
      ensures old(phase) == Running && phase == Stopped ==> reason == Some(OpenExposure) && !Flat(exposure)
      ensures old(phase) == Running && phase == SafetyStopped ==> execute && reason != Some(why)
    {
      if execute {
        var r := Refresh(false);
        if r == Halt { return false; }
        if r == Raised {
          r := SafetyStop(LimitCheckFailed, true);
          return r == Raised;
        }
        if !Flat(exposure) {
          raised := Finish(Stopped, OpenExposure);
          return;
        }
      }
      raised := Finish(Completed, why);
    }

    /** The session's main loop; it ends within `maxRuns` rounds. `Go` means that the operator's stop was seen first. */
    method Rounds() returns (r: Signal)
      requires WithinLimit() && submitted == attempts && (execute ==> phase == Running) && notes == []
      modifies this
      ensures WithinLimit() && |notes| <= maxRuns
      ensures r == Go ==> world.stopping(step)
      ensures r == Halt ==> phase != Running
    {
      while !world.stopping(step)
        invariant WithinLimit() && submitted == attempts && (execute ==> phase == Running)
        invariant |notes| <= completedRuns && |notes| <= maxRuns
        decreases maxRuns - completedRuns
      {
        if world.late(step) || completedRuns >= maxRuns {
          var raised := FinishForLimit(if world.late(step) then DurationReached else MaxRunsReached);
          return if raised then Raised else Halt;
        }
        r := ExecuteRun();
        if r != Go { return; }
        if completedRuns >= maxRuns {
          var raised := FinishForLimit(MaxRunsReached);
          return if raised then Raised else Halt;
        }
        step := step + 1;
        if world.stopping(step) {
          var raised := Finish(Stopped, Operator);
          return if raised then Raised else Halt;
        }
        step := step + 1;
      }
      r := Go;
    }

    /**
     `_soak_loop`. When it ends with the session still marked running, either the operator's stop came
     first, or the write of the event that announces the safety stop failed.
     */
    method Loop() returns (crashed: bool)
      requires WithinLimit() && submitted == attempts && phase == Running && notes == []
      modifies this
      ensures WithinLimit() && |notes| <= maxRuns
      ensures phase == Running ==> world.stopping(step) || (execute && crashed && step > 0 && world.fails(step - 1))
    {
      var r := Rounds();
      if r != Raised { return false; }
      if execute {
        r := SafetyStop(LoopFailed, true);
        return r == Raised;
      }
      crashed := Finish(Failed, LoopFailed);
      if crashed { return; }
      var told := Call();
      crashed := !told;
    }

    /** `stop_soak`, once the loop is over: whatever is still running becomes stopped, the rest stays as it ended. */
    method Stop() returns (raised: bool)
      requires WithinLimit()
      modifies this
      ensures WithinLimit() && phase != Running && attempts == old(attempts) && exposure == old(exposure)
      ensures notes == old(notes)
      ensures old(phase) != Running ==> phase == old(phase) && reason == old(reason)
      ensures old(phase) == Running ==> phase == Stopped
    {
      raised := Finish(Stopped, Operator);
    }
  }

  /**
   A whole session, in every world: at most `maxRuns` runs, at most `maxSubmissions` order attempts over all of them
   (none on a dry session), each made right after a check that found the account in order, the over-limit stop never
   taken, `Running` left exactly once, and `Completed` only flat.
   */
  method Session(world: World, serviceAvailable: bool, execute: bool, autoDisarm: bool, requireProtection: bool,
                 polls: nat, maxRuns: nat, maxSubmissions: nat, errorThreshold: nat)
    returns (soak: Soak)
    ensures fresh(soak) && soak.WithinLimit() && soak.phase != Running && soak.exits == 1
    ensures soak.attempts <= (if execute then maxSubmissions else 0)
    ensures soak.attempts == Made(soak.notes) && |soak.notes| <= maxRuns
    ensures execute ==> forall i :: 0 <= i < |soak.notes| && soak.notes[i].made > 0 ==>
      && serviceAvailable && !world.fails(soak.notes[i].at) && !world.unsafe(soak.notes[i].at + 1)
      && !world.lossHit(soak.notes[i].at + 1)
      && (world.exposure(soak.notes[i].at).positions > 0 && requireProtection ==>
            !world.unprotected(soak.notes[i].at + 1))
    ensures soak.reason != Some(SubmissionLimitExceeded)
    ensures execute && soak.phase == Completed ==> Flat(soak.exposure)
  {
    soak := new Soak(world, serviceAvailable, execute, autoDisarm, requireProtection, polls, maxRuns, maxSubmissions,
                     errorThreshold);
    var crashed := soak.Loop();
    var raised := soak.Stop();
  }
}
