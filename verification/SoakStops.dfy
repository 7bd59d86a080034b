/**
 Stops of one soak session that overlap. `stop_soak` checks that the session is running and then ends it; an
 execute session with automatic disarm awaits the disarm between that check and the write of the end, so
 another stop may pass the same check meanwhile.
 */
module SoakStops {
  import opened Options

  /** Where one stop is: not at the check yet, waiting for the disarm, or through. */
  datatype Stage = Waiting | Disarming | Through

  /** A session with its stops; `reason` names the stop that wrote the end last. */
  datatype Session = Session(reason: Option<nat>, ends: nat, stages: seq<Stage>)

  predicate Running(s: Session) { s.reason.None? }

  function Started(n: nat): Session { Session(None, 0, seq(n, _ => Waiting)) }

  /** The end as stop `i` writes it, whatever was written before. */
  function Ended(s: Session, i: nat): Session
    requires i < |s.stages|
  {
    Session(Some(i), s.ends + 1, s.stages[i := Through])
  }

  /** Stop `i` goes on to its next await; `disarms` is an execute session with automatic disarm. */
  function Next(disarms: bool, s: Session, i: nat): Session {
    if i >= |s.stages| then s
    else match s.stages[i]
      case Waiting =>
        if !Running(s) then s.(stages := s.stages[i := Through])
        else if disarms then s.(stages := s.stages[i := Disarming])
        else Ended(s, i)
      case Disarming => Ended(s, i)
      case Through => s
  }

  /** Any interleaving of the stops. */
  function Interleaved(disarms: bool, s: Session, turns: seq<nat>): Session
    decreases |turns|
  {
    if turns == [] then s else Interleaved(disarms, Next(disarms, s, turns[0]), turns[1..])
  }

  // ---------------------------------------------------------------- what every interleaving keeps

  function Pending(stages: seq<Stage>): nat {
    if stages == [] then 0 else Pending(stages[..|stages| - 1]) + (if stages[|stages| - 1].Disarming? then 1 else 0)
  }

  lemma {:induction false} PendingUpdate(stages: seq<Stage>, i: nat, x: Stage)
    requires i < |stages|
    ensures Pending(stages[i := x]) == Pending(stages) - (if stages[i].Disarming? then 1 else 0)
                                       + (if x.Disarming? then 1 else 0)
  {
    var n := |stages| - 1;
    if i < n {
      PendingUpdate(stages[..n], i, x);
      assert stages[i := x][..n] == stages[..n][i := x];
    } else {
      assert stages[i := x][..n] == stages[..n];
    }
  }

  /** The session runs until the first end is written; no stop is through before, and none waits without a disarm. */
  predicate Coherent(disarms: bool, s: Session) {
    && (Running(s) <==> s.ends == 0)
    && (Running(s) ==> forall i :: 0 <= i < |s.stages| ==> !s.stages[i].Through?)
    && (!disarms ==> s.ends <= 1 && forall i :: 0 <= i < |s.stages| ==> !s.stages[i].Disarming?)
    && (s.reason.Some? ==> s.reason.value < |s.stages| && s.stages[s.reason.value].Through?)
  }

  lemma NextCoherent(disarms: bool, s: Session, i: nat)
    requires Coherent(disarms, s)
    ensures var t := Next(disarms, s, i);
      Coherent(disarms, t) && |t.stages| == |s.stages| && (!Running(s) ==> !Running(t))
  { }

  lemma {:induction false} AlwaysCoherent(disarms: bool, s: Session, turns: seq<nat>)
    requires Coherent(disarms, s)
    ensures var t := Interleaved(disarms, s, turns);
      Coherent(disarms, t) && |t.stages| == |s.stages| && (!Running(s) ==> !Running(t))
    decreases |turns|
  {
    if turns != [] {
      NextCoherent(disarms, s, turns[0]);
      AlwaysCoherent(disarms, Next(disarms, s, turns[0]), turns[1..]);
    }
  }

  /** In every interleaving a stop that is through has left an ended session behind, and it stays ended. */
  lemma ThroughMeansEnded(disarms: bool, n: nat, turns: seq<nat>, more: seq<nat>, i: nat)
    requires var s := Interleaved(disarms, Started(n), turns); i < |s.stages| && s.stages[i].Through?
    ensures var s := Interleaved(disarms, Started(n), turns);
      !Running(s) && !Running(Interleaved(disarms, s, more))
  {
    AlwaysCoherent(disarms, Started(n), turns);
    AlwaysCoherent(disarms, Interleaved(disarms, Started(n), turns), more);
  }

  // ---------------------------------------------------------------- how often the end is written

  /** Once the session has ended, the stops still disarming are exactly those that will write an end again. */
  lemma AfterTheEnd(disarms: bool, s: Session, i: nat)
    requires !Running(s)
    ensures var t := Next(disarms, s, i); t.ends + Pending(t.stages) == s.ends + Pending(s.stages) && !Running(t)
  {
    if i < |s.stages| { PendingUpdate(s.stages, i, Through); }
  }

  lemma {:induction false} EndsAreSettled(disarms: bool, s: Session, turns: seq<nat>)
    requires !Running(s)
    ensures var t := Interleaved(disarms, s, turns); t.ends + Pending(t.stages) == s.ends + Pending(s.stages)
    decreases |turns|
  {
    if turns != [] {
      AfterTheEnd(disarms, s, turns[0]);
      EndsAreSettled(disarms, Next(disarms, s, turns[0]), turns[1..]);
    }
  }

  /**
   The stop that first ends the session decides how often its end is written: once if no other stop was
   disarming then, and once more for each that was, in every interleaving that lets them all finish.
   */
  lemma EndsExactly(disarms: bool, s: Session, i: nat, turns: seq<nat>)
    requires Coherent(disarms, s) && Running(s) && !Running(Next(disarms, s, i))
    requires Pending(Interleaved(disarms, Next(disarms, s, i), turns).stages) == 0
    ensures i < |s.stages|
    ensures var others := Pending(s.stages) - (if s.stages[i].Disarming? then 1 else 0);
      Interleaved(disarms, Next(disarms, s, i), turns).ends == 1 + others
  {
    PendingUpdate(s.stages, i, Through);
    EndsAreSettled(disarms, Next(disarms, s, i), turns);
  }

  /** Two stops at the check before either disarm is through: both end the session, and the later reason stays. */
  lemma TwoEnds(n: nat)
    requires n >= 2
    ensures var s := Interleaved(true, Started(n), [0, 1, 0, 1]); s.ends == 2 && s.reason == Some(1)
  {
    var s0 := Started(n);
    var s1 := Next(true, s0, 0);
    var s2 := Next(true, s1, 1);
    var s3 := Next(true, s2, 0);
    assert s2.stages[0].Disarming? && s2.stages[1].Disarming? && s3.stages[1].Disarming?;
    var turns := [0, 1, 0, 1];
    assert turns[1..] == [1, 0, 1] && turns[1..][1..] == [0, 1] && turns[1..][1..][1..] == [1];
    assert turns[1..][1..][1..][1..] == [];
    assert Interleaved(true, s3, [1]) == Interleaved(true, Next(true, s3, 1), [1][1..]);
  }

  ghost predicate EndsOnce(disarms: bool, n: nat) {
    forall turns {:trigger Interleaved(disarms, Started(n), turns)} ::
      Interleaved(disarms, Started(n), turns).ends <= 1
  }

  lemma {:induction false} OneStopEndsOnce(disarms: bool, s: Session, turns: seq<nat>)
    requires Coherent(disarms, s) && |s.stages| <= 1 && (s.ends == 0 || Pending(s.stages) == 0) && s.ends <= 1
    ensures Interleaved(disarms, s, turns).ends <= 1
    decreases |turns|
  {
    if turns != [] {
      NextCoherent(disarms, s, turns[0]);
      if turns[0] < |s.stages| { PendingUpdate(s.stages, 0, Through); }
      var t := Next(disarms, s, turns[0]);
      assert |s.stages| == 1 ==> s.stages[..0] == [] && t.stages[..0] == [];
      OneStopEndsOnce(disarms, t, turns[1..]);
    }
  }

  /** The end of a session is written at most once in every interleaving exactly when no two stops can overlap. */
  lemma EndsOnceExactly(disarms: bool, n: nat)
    ensures EndsOnce(disarms, n) <==> !disarms || n < 2
  {
    if disarms && n >= 2 {
      TwoEnds(n);
    } else {
      forall turns ensures Interleaved(disarms, Started(n), turns).ends <= 1 {
        if disarms { OneStopEndsOnce(disarms, Started(n), turns); } else { AlwaysCoherent(disarms, Started(n), turns); }
      }
    }
  }
}
