/**
 `PaperExecutionService`: paper mutations that are persisted or rolled back.

 A save commits and answers, or raises, or is cut off by the cancellation of the task that awaits it. It
 raises with nothing stored, or after its transaction was stored and only the answer was lost; memory is
 rolled back in both cases. Cancellation is not an `Exception`, so the rollback does not run then.
 */
module PaperService {
  import opened Options
  import opened PaperGrid
  import opened PaperBook
  import opened PaperLedger
  import opened PaperTick
  import opened PaperBroker

  datatype Save = Committed | Raised(stored: bool) | Cut(stored: bool)

  /** The transaction of the save took effect. */
  predicate Stored(save: Save) { save.Committed? || save.stored }

  /** Memory and the store end on different sides of the save. */
  predicate Parts(save: Save) { save == Raised(true) || save == Cut(false) }

  /** Both end on the new side. */
  predicate Lands(save: Save) { save.Committed? || save == Cut(true) }

  datatype Mutation =
    | MSubmit(q: Request) | MCancel(id: Id) | MClose(id: Id, price: real, why: string) | MReset

  function Mutated(r: Rates, b: Book, m: Mutation): Result<Book> {
    match m
    case MSubmit(q) => Submit(r, b, q)
    case MCancel(id) => Cancel(b, id)
    case MClose(id, price, why) => Close(r, b, id, price, why)
    case MReset => Ok(Reset(b))
  }

  // ---------------------------------------------------------------- agreement

  /** A position without the marks that a quiet tick may move. */
  function Bare(p: Position): Position { if p.open then p.(mark := 0.0, unrealized := 0.0) else p }

  /** The same restart-critical state, as the checksum compares it: quantized balances, orders, positions. */
  ghost predicate Agree(a: Book, b: Book) {
    && Q(a.starting) == Q(b.starting) && Q(a.cash) == Q(b.cash) && a.orders == b.orders
    && |a.positions| == |b.positions|
    && (forall j :: 0 <= j < |a.positions| ==> Bare(a.positions[j]) == Bare(b.positions[j]))
  }

  predicate Same(a: Book, b: Book) { a.(nextId := 0) == b.(nextId := 0) }

  /** Memory and the last durable state of the service. */
  datatype Service = Service(memory: Book, durable: Option<Book>)

  /** Formed, and an empty book holds its starting balance. */
  ghost predicate Rooted(b: Book) { Formed(b) && (b.positions == [] ==> b.cash == b.starting) }

  /** Both books are rooted and new identifiers are new, whether or not the books agree. */
  ghost predicate Sound(s: Service) {
    && Rooted(s.memory) && s.durable.Some? && Rooted(s.durable.value) && View(s.durable.value) == s.durable.value
    && s.durable.value.nextId <= s.memory.nextId
  }

  ghost predicate InSync(s: Service) { Sound(s) && Agree(s.memory, s.durable.value) }

  /** Both books are conserved, from a starting balance on the grid. */
  ghost predicate Conserving(s: Service) {
    Kept(s.memory) && OnGrid(s.memory.starting) && s.durable.Some? && Kept(s.durable.value)
  }

  // ---------------------------------------------------------------- calls on values

  datatype Call =
    | Mutate(m: Mutation, save: Save) | TickCall(symbol: string, price: real, due: bool, save: Save)
    | RestoreFromDatabase | PersistMemory(save: Save) | Restart(starting: real, save: Save)

  /** What a save attempt leaves when the mutation turned `before` into `after`. */
  function Persisted(s: Service, after: Book, save: Save): Service {
    match save
    case Committed => Service(after, Some(View(after)))
    case Raised(stored) => Service(Restore(after, s.memory), if stored then Some(View(after)) else s.durable)
    case Cut(stored) => Service(after, if stored then Some(View(after)) else s.durable)
  }

  function OpenCount(ps: seq<Position>): nat {
    if ps == [] then 0 else OpenCount(ps[1..]) + (if ps[0].open then 1 else 0)
  }

  predicate Material(r: Rates, b: Book, symbol: string, price: real) {
    FilledIds(b.orders, 0, symbol, price) != []
    || ClosedIds(FillFrom(r, b, 0, symbol, price).positions, 0, symbol, price) != []
  }

  /** A tick is saved when it filled or closed something, or when marks are due with a position open. */
  predicate Saves(r: Rates, b: Book, symbol: string, price: real, due: bool) {
    Material(r, b, symbol, price) || (OpenCount(Tick(r, b, symbol, price).positions) > 0 && due)
  }

  function NewBroker(starting: real): Book { Book(starting, starting, [], [], 0) }

  /** `recover` on a new broker: take over what is stored, or store the first state. */
  function Recovered(s: Service, save: Save): Service {
    if s.durable.Some? then s.(memory := Restore(s.memory, s.durable.value))
    else if Stored(save) then s.(durable := Some(View(s.memory))) else s
  }

  function Serve(r: Rates, s: Service, c: Call): Service {
    match c
    case Mutate(m, save) =>
      var x := Mutated(r, s.memory, m);
      if x.Err? then s else Persisted(s, x.value, save)
    case TickCall(symbol, price, due, save) =>
      var after := Tick(r, s.memory, symbol, price);
      if Saves(r, s.memory, symbol, price, due) then Persisted(s, after, save) else s.(memory := after)
    case RestoreFromDatabase =>
      if s.durable.Some? then s.(memory := Restore(s.memory, s.durable.value)) else s
    case PersistMemory(save) =>
      if Stored(save) then s.(durable := Some(View(s.memory))) else s
    case Restart(starting, save) => Recovered(Service(NewBroker(starting), s.durable), save)
  }

  function ServeAll(r: Rates, s: Service, cs: seq<Call>): Service
    decreases |cs|
  {
    if cs == [] then s else ServeAll(r, Serve(r, s, cs[0]), cs[1..])
  }

  // ---------------------------------------------------------------- quiet ticks

  lemma {:induction false} NoFills(r: Rates, b: Book, i: nat, symbol: string, price: real)
    requires i <= |b.orders| && FilledIds(b.orders, i, symbol, price) == []
    ensures FillFrom(r, b, i, symbol, price) == b
    decreases |b.orders| - i
  {
    if i < |b.orders| {
      assert !Marketable(b.orders[i], symbol, price);
      NoFills(r, b, i + 1, symbol, price);
    }
  }

  lemma {:induction false} NoCloses(r: Rates, b: Book, j: nat, symbol: string, price: real)
    requires j <= |b.positions| && ClosedIds(b.positions, j, symbol, price) == []
    ensures Agree(MarkFrom(r, b, j, symbol, price), b)
    decreases |b.positions| - j
  {
    if j < |b.positions| {
      var p := b.positions[j];
      assert !(Live(p, symbol) && Trigger(p, price).Some?);
      var b1 := MarkOne(r, b, j, symbol, price);
      ClosedIdsSame(b1.positions, b.positions, j + 1, symbol, price);
      NoCloses(r, b1, j + 1, symbol, price);
    }
  }

  lemma {:induction false} ClosedIdsSame(a: seq<Position>, b: seq<Position>, j: nat, symbol: string, price: real)
    requires |a| == |b| && j <= |a| && forall k :: j <= k < |a| ==> a[k] == b[k]
    ensures ClosedIds(a, j, symbol, price) == ClosedIds(b, j, symbol, price)
    decreases |a| - j
  {
    if j < |a| { ClosedIdsSame(a, b, j + 1, symbol, price); }
  }

  /** A tick that fills and closes nothing moves only marks. */
  lemma QuietTick(r: Rates, b: Book, symbol: string, price: real)
    requires !Material(r, b, symbol, price)
    ensures Agree(Tick(r, b, symbol, price), b)
  {
    NoFills(r, b, 0, symbol, price);
    NoCloses(r, b, 0, symbol, price);
  }

  // ---------------------------------------------------------------- all or nothing

  /** Whatever keeps the base and never drops a position keeps an empty book at its starting balance. */
  lemma FollowsRooted(b: Book, b': Book)
    requires Rooted(b) && Follows(b, b') && |b'.positions| >= |b.positions|
    ensures Rooted(b')
  { }

  lemma MutatedRooted(r: Rates, b: Book, m: Mutation)
    requires Rooted(b) && Mutated(r, b, m).Ok?
    ensures Rooted(Mutated(r, b, m).value) && Mutated(r, b, m).value.nextId >= b.nextId
    ensures Kept(b) ==> Kept(Mutated(r, b, m).value)
    ensures Mutated(r, b, m).value.starting == b.starting
  {
    var b' := Mutated(r, b, m).value;
    match m
    case MSubmit(q) => SubmitKept(r, b, q); FollowsRooted(b, b');
    case MCancel(id) => CancelKept(b, id); FollowsRooted(b, b');
    case MClose(id, price, why) =>
      CloseKept(r, b, FindPosition(b.positions, id, 0), price, Manual(why));
      FollowsRooted(b, b');
    case MReset =>
  }

  lemma TickRooted(r: Rates, b: Book, symbol: string, price: real)
    requires Rooted(b)
    ensures var b' := Tick(r, b, symbol, price);
      Rooted(b') && b'.nextId >= b.nextId && b'.starting == b.starting && (Kept(b) ==> Kept(b'))
  {
    TickKept(r, b, symbol, price);
    TickGrows(r, b, symbol, price);
    TickPosition(r, b, symbol, price, 0);
    FollowsRooted(b, Tick(r, b, symbol, price));
  }

  /** The stored view of a rooted book is rooted, agrees with it, and is its own view. */
  lemma ViewRooted(b: Book)
    requires Rooted(b)
    ensures Rooted(View(b)) && View(View(b)) == View(b) && Agree(b, View(b))
    ensures Kept(b) && OnGrid(b.starting) ==> View(b) == b
  {
    QOnGrid(b.starting);
    QOnGrid(b.cash);
    QSame(Q(b.starting));
    QSame(Q(b.cash));
    if Kept(b) && OnGrid(b.starting) {
      TallyOnGrid(b.positions);
      GridSum(b.starting, Tally(b.positions));
      QSame(b.starting);
      QSame(b.cash);
    }
  }

  /** A rollback gives back what memory showed, but for identifiers already used. */
  lemma RolledBack(before: Book, after: Book)
    requires Rooted(before) && after.nextId >= before.nextId
    ensures Restore(after, before) == View(before).(nextId := after.nextId)
    ensures Rooted(Restore(after, before)) && Agree(Restore(after, before), before)
    ensures Kept(before) && OnGrid(before.starting) ==> Same(Restore(after, before), before)
  {
    RestoreExact(after, before);
    ViewRooted(before);
  }

  lemma PersistedSound(s: Service, after: Book, save: Save)
    requires Sound(s) && Rooted(after) && after.nextId >= s.memory.nextId
    ensures Sound(Persisted(s, after, save)) && (Lands(save) ==> InSync(Persisted(s, after, save)))
    ensures save == Raised(false) ==> (InSync(Persisted(s, after, save)) <==> InSync(s))
    ensures save.Raised? ==> Same(Persisted(s, after, save).memory, View(s.memory))
  {
    ViewRooted(after);
    if save.Raised? { RolledBack(s.memory, after); }
  }

  lemma PersistedConserving(s: Service, after: Book, save: Save)
    requires Sound(s) && Conserving(s) && Rooted(after) && Kept(after)
    requires after.nextId >= s.memory.nextId && after.starting == s.memory.starting
    ensures Conserving(Persisted(s, after, save))
  {
    ViewRooted(after);
    if save.Raised? { RolledBack(s.memory, after); }
  }

  lemma AgreeAcross(a: Book, a': Book, b: Book, b': Book)
    requires Agree(a, a') && Agree(b, b')
    ensures Agree(a, b') <==> Agree(b, a')
  { }

  lemma PersistedInSync(s: Service, after: Book, save: Save)
    requires InSync(s) && Rooted(after) && after.nextId >= s.memory.nextId
    ensures !Parts(save) ==> InSync(Persisted(s, after, save))
    ensures Parts(save) ==> (InSync(Persisted(s, after, save)) <==> Agree(after, s.memory))
  {
    PersistedSound(s, after, save);
    if save == Raised(true) {
      RolledBack(s.memory, after);
      ViewRooted(after);
      AgreeAcross(Restore(after, s.memory), s.memory, after, View(after));
    } else if save == Cut(false) {
      AgreeTurns(after, s.memory, s.durable.value);
    }
  }

  // ---------------------------------------------------------------- recovery

  /** What a store can hold: a rooted book whose balances are as `state` shows them. */
  ghost predicate Storable(v: Book) { Rooted(v) && View(v) == v }

  /**
   Recovery brings memory and the stored state together whatever the new broker holds: from any stored book,
   and from an empty store once the first save is stored.
   */
  lemma RecoveryInSync(s: Service, save: Save)
    requires s.durable.Some? ==> Storable(s.durable.value)
    requires s.durable.None? ==> Rooted(s.memory) && Stored(save)
    ensures InSync(Recovered(s, save))
    ensures s.durable.Some? && Kept(s.durable.value) ==> Conserving(Recovered(s, save))
  {
    if s.durable.Some? {
      RestoreExact(s.memory, s.durable.value);
      QOnGrid(s.durable.value.starting);
    } else {
      ViewRooted(s.memory);
    }
  }

  // ---------------------------------------------------------------- what a parting save loses

  lemma {:induction false} FillsShow(r: Rates, b: Book, i: nat, symbol: string, price: real)
    requires i <= |b.orders| && FilledIds(b.orders, i, symbol, price) != []
    ensures |FillFrom(r, b, i, symbol, price).positions| > |b.positions|
    decreases |b.orders| - i
  {
    var b1 := FillOne(r, b, i, symbol, price);
    FilledPositions(r, b1, i + 1, symbol, price);
    if !Marketable(b.orders[i], symbol, price) { FillsShow(r, b, i + 1, symbol, price); }
  }

  lemma {:induction false} ClosedIdAt(ps: seq<Position>, j: nat, symbol: string, price: real) returns (k: nat)
    requires j <= |ps| && ClosedIds(ps, j, symbol, price) != []
    ensures k < |ps| && Live(ps[k], symbol) && Trigger(ps[k], price).Some?
    decreases |ps| - j
  {
    if Live(ps[j], symbol) && Trigger(ps[j], price).Some? {
      k := j;
    } else {
      k := ClosedIdAt(ps, j + 1, symbol, price);
    }
  }

  /** A tick changes more than marks exactly when it fills or closes something. */
  lemma TickShows(r: Rates, b: Book, symbol: string, price: real)
    ensures Agree(Tick(r, b, symbol, price), b) <==> !Material(r, b, symbol, price)
  {
    var b1 := FillFrom(r, b, 0, symbol, price);
    if !Material(r, b, symbol, price) {
      QuietTick(r, b, symbol, price);
    } else if FilledIds(b.orders, 0, symbol, price) != [] {
      FillsShow(r, b, 0, symbol, price);
    } else {
      NoFills(r, b, 0, symbol, price);
      var k := ClosedIdAt(b1.positions, 0, symbol, price);
      MarkFromShape(r, b1, 0, symbol, price);
      assert Bare(b.positions[k]).open && !Bare(Tick(r, b, symbol, price).positions[k]).open;
    }
  }

  lemma {:induction false} OpenCounted(ps: seq<Position>)
    ensures OpenCount(ps) > 0 <==> exists j :: 0 <= j < |ps| && ps[j].open
  {
    if ps != [] {
      OpenCounted(ps[1..]);
      assert forall j :: 1 <= j < |ps| ==> ps[j] == ps[1..][j - 1];
    }
  }

  /**
   A tick is stored exactly when it changed more than marks, or marks are due and a position is open; what is
   stored is what memory shows.
   */
  lemma TickSavesExactly(r: Rates, s: Service, symbol: string, price: real, due: bool, save: Save)
    requires Lands(save)
    ensures var s', after := Serve(r, s, TickCall(symbol, price, due, save)), Tick(r, s.memory, symbol, price);
      && s'.memory == after
      && (if !Agree(after, s.memory) || (due && exists j :: 0 <= j < |after.positions| && after.positions[j].open)
          then s'.durable == Some(View(after)) else s'.durable == s.durable)
  {
    TickShows(r, s.memory, symbol, price);
    OpenCounted(Tick(r, s.memory, symbol, price).positions);
  }

  /**
   The calls after which memory and the stored state differ: a visible change whose save was cut off before it
   was stored, or was stored with its answer lost.
   */
  predicate Loses(r: Rates, s: Service, c: Call) {
    match c
    case Mutate(m, save) =>
      && Parts(save) && Mutated(r, s.memory, m).Ok?
      && !(m.MReset? && s.memory.orders == [] && s.memory.positions == [])
    case TickCall(symbol, price, _, save) => Parts(save) && Material(r, s.memory, symbol, price)
    case _ => false
  }

  /** From agreement, a call ends in agreement if and only if it is not one of those. */
  lemma ServeExactly(r: Rates, s: Service, c: Call)
    requires InSync(s)
    ensures InSync(Serve(r, s, c)) <==> !Loses(r, s, c)
  {
    match c
    case Mutate(m, save) =>
      if Mutated(r, s.memory, m).Ok? {
        MutatedRooted(r, s.memory, m);
        MutationShows(r, s.memory, m);
        PersistedInSync(s, Mutated(r, s.memory, m).value, save);
      }
    case TickCall(symbol, price, due, save) => TickServed(r, s, symbol, price, due, save);
    case RestoreFromDatabase => RecoveryInSync(s, Committed);
    case PersistMemory(_) =>
    case Restart(starting, save) => RecoveryInSync(Service(NewBroker(starting), s.durable), save);
  }

  lemma TickServed(r: Rates, s: Service, symbol: string, price: real, due: bool, save: Save)
    requires InSync(s)
    ensures InSync(Serve(r, s, TickCall(symbol, price, due, save)))
       <==> !Loses(r, s, TickCall(symbol, price, due, save))
  {
    TickRooted(r, s.memory, symbol, price);
    TickShows(r, s.memory, symbol, price);
    var after := Tick(r, s.memory, symbol, price);
    PersistedInSync(s, after, save);
    AgreeTurns(after, s.memory, s.durable.value);
  }

  /** No call of the run loses anything when it is made. */
  predicate LosesNothing(r: Rates, s: Service, cs: seq<Call>)
    decreases |cs|
  {
    cs == [] || (!Loses(r, s, cs[0]) && LosesNothing(r, Serve(r, s, cs[0]), cs[1..]))
  }

  /**
   Over every run of mutations, ticks, saves, restores and restarts that loses nothing, memory and
   durable state agree after every call.
   */
  lemma {:induction false} AlwaysInSync(r: Rates, s: Service, cs: seq<Call>)
    requires InSync(s) && LosesNothing(r, s, cs)
    ensures InSync(ServeAll(r, s, cs))
    decreases |cs|
  {
    if cs != [] {
      ServeExactly(r, s, cs[0]);
      AlwaysInSync(r, Serve(r, s, cs[0]), cs[1..]);
    }
  }

  /** The same from construction: a new service, its recovery, and then any such run. */
  lemma InSyncAfterRecovery(r: Rates, starting: real, durable: Option<Book>, save: Save, cs: seq<Call>)
    requires if durable.Some? then Storable(durable.value) else Stored(save)
    requires LosesNothing(r, Recovered(Service(NewBroker(starting), durable), save), cs)
    ensures InSync(ServeAll(r, Recovered(Service(NewBroker(starting), durable), save), cs))
  {
    RecoveryInSync(Service(NewBroker(starting), durable), save);
    AlwaysInSync(r, Recovered(Service(NewBroker(starting), durable), save), cs);
  }

  // ---------------------------------------------------------------- every run, parting saves included

  /** The calls that leave the same state in memory and in the store, whatever each held before. */
  predicate Heals(r: Rates, s: Service, c: Call) {
    match c
    case Mutate(m, save) => Lands(save) && Mutated(r, s.memory, m).Ok?
    case TickCall(symbol, price, due, save) => Lands(save) && Saves(r, s.memory, symbol, price, due)
    case RestoreFromDatabase => true
    case PersistMemory(save) => Stored(save)
    case Restart(_, _) => true
  }

  /** The save of this call ends on two sides. */
  predicate PartsAgain(c: Call) { (c.Mutate? || c.TickCall?) && Parts(c.save) }

  /**
   Whatever saves do, both books stay rooted, and conserved from a start on the grid. A call that heals makes
   them agree; and once they differ, only such a call does, unless its own save parts them anew.
   */
  lemma ServeSound(r: Rates, s: Service, c: Call)
    requires Sound(s)
    ensures Sound(Serve(r, s, c)) && (Heals(r, s, c) ==> InSync(Serve(r, s, c)))
    ensures !InSync(s) && !PartsAgain(c) ==> (InSync(Serve(r, s, c)) <==> Heals(r, s, c))
    ensures Conserving(s) ==> Conserving(Serve(r, s, c))
  {
    match c
    case Mutate(m, save) => MutateSound(r, s, m, save);
    case TickCall(symbol, price, due, save) => TickSound(r, s, symbol, price, due, save);
    case RestoreFromDatabase => RecoveryInSync(s, Committed);
    case PersistMemory(_) => ViewRooted(s.memory);
    case Restart(starting, save) => RecoveryInSync(Service(NewBroker(starting), s.durable), save);
  }

  lemma MutateSound(r: Rates, s: Service, m: Mutation, save: Save)
    requires Sound(s)
    ensures var c := Mutate(m, save);
      && Sound(Serve(r, s, c)) && (Heals(r, s, c) ==> InSync(Serve(r, s, c)))
      && (!InSync(s) && !Parts(save) ==> (InSync(Serve(r, s, c)) <==> Heals(r, s, c)))
      && (Conserving(s) ==> Conserving(Serve(r, s, c)))
  {
    if Mutated(r, s.memory, m).Ok? {
      MutatedRooted(r, s.memory, m);
      PersistedSound(s, Mutated(r, s.memory, m).value, save);
      if Conserving(s) { PersistedConserving(s, Mutated(r, s.memory, m).value, save); }
    }
  }

  lemma TickSound(r: Rates, s: Service, symbol: string, price: real, due: bool, save: Save)
    requires Sound(s)
    ensures var c := TickCall(symbol, price, due, save);
      && Sound(Serve(r, s, c)) && (Heals(r, s, c) ==> InSync(Serve(r, s, c)))
      && (!InSync(s) && !Parts(save) ==> (InSync(Serve(r, s, c)) <==> Heals(r, s, c)))
      && (Conserving(s) ==> Conserving(Serve(r, s, c)))
  {
    var after := Tick(r, s.memory, symbol, price);
    TickRooted(r, s.memory, symbol, price);
    if Saves(r, s.memory, symbol, price, due) {
      PersistedSound(s, after, save);
      if Conserving(s) { PersistedConserving(s, after, save); }
    } else {
      QuietTick(r, s.memory, symbol, price);
      AgreeLeft(after, s.memory, s.durable.value);
    }
  }

  lemma {:induction false} AlwaysSound(r: Rates, s: Service, cs: seq<Call>)
    requires Sound(s)
    ensures Sound(ServeAll(r, s, cs)) && (Conserving(s) ==> Conserving(ServeAll(r, s, cs)))
    decreases |cs|
  {
    if cs != [] {
      ServeSound(r, s, cs[0]);
      AlwaysSound(r, Serve(r, s, cs[0]), cs[1..]);
    }
  }

  // ---------------------------------------------------------------- one mutation

  /**
   What one mutation leaves: nothing after a broker error; the new state on both sides or the old one on
   both after every save but a parting one; and after that exactly one side holds the new state.
   */
  lemma CommitsOrRollsBack(r: Rates, s: Service, m: Mutation, save: Save)
    requires InSync(s)
    ensures var x, s' := Mutated(r, s.memory, m), Serve(r, s, Mutate(m, save));
      if x.Err? then s' == s
      else if Lands(save) then s' == Service(x.value, Some(View(x.value)))
      else if save == Raised(false) then Same(s'.memory, View(s.memory)) && s'.durable == s.durable
      else if save == Raised(true) then Same(s'.memory, View(s.memory)) && s'.durable == Some(View(x.value))
      else s' == Service(x.value, s.durable)
  {
    if Mutated(r, s.memory, m).Ok? {
      MutatedRooted(r, s.memory, m);
      PersistedSound(s, Mutated(r, s.memory, m).value, save);
    }
  }

  lemma AgreeLeft(a: Book, b: Book, c: Book)
    requires Agree(a, b)
    ensures Agree(a, c) <==> Agree(b, c)
  { }

  lemma AgreeTurns(a: Book, b: Book, c: Book)
    requires Agree(b, c)
    ensures Agree(a, c) <==> Agree(a, b)
  { }

  /** Every accepted mutation but the reset of an empty book changes more than marks. */
  lemma MutationShows(r: Rates, b: Book, m: Mutation)
    requires Rooted(b) && Mutated(r, b, m).Ok?
    ensures Agree(Mutated(r, b, m).value, b) <==> m.MReset? && b.orders == [] && b.positions == []
  {
    var a := Mutated(r, b, m).value;
    match m
    case MSubmit(_) => assert |a.orders| == |b.orders| + 1;
    case MCancel(id) =>
      var i := FindOrder(b.orders, id, 0);
      assert a.orders[i].status.Cancelled? && b.orders[i].status.Pending?;
    case MClose(id, _, _) =>
      var j := FindPosition(b.positions, id, 0);
      assert !Bare(a.positions[j]).open && Bare(b.positions[j]).open;
    case MReset =>
  }

  /**
   The exact limit of that promise, for mutations: when the save of an accepted one is cut off before it
   is stored, memory and durable state still agree if and only if it was the reset of a book that had no
   order and no position.
   */
  lemma CutSaveExactly(r: Rates, s: Service, m: Mutation)
    requires InSync(s) && Mutated(r, s.memory, m).Ok?
    ensures InSync(Serve(r, s, Mutate(m, Cut(false)))) <==>
      m.MReset? && s.memory.orders == [] && s.memory.positions == []
  {
    ServeExactly(r, s, Mutate(m, Cut(false)));
  }

  /** And for ticks: a cut-off tick keeps agreement if and only if it filled and closed nothing. */
  lemma CutTickExactly(r: Rates, s: Service, symbol: string, price: real, due: bool)
    requires InSync(s)
    ensures InSync(Serve(r, s, TickCall(symbol, price, due, Cut(false)))) <==> !Material(r, s.memory, symbol, price)
  {
    TickServed(r, s, symbol, price, due, Cut(false));
  }

  /** The same limit when the save is stored and its answer lost: memory then goes back and the store does not. */
  lemma LostSaveExactly(r: Rates, s: Service, m: Mutation)
    requires InSync(s) && Mutated(r, s.memory, m).Ok?
    ensures InSync(Serve(r, s, Mutate(m, Raised(true)))) <==>
      m.MReset? && s.memory.orders == [] && s.memory.positions == []
  {
    ServeExactly(r, s, Mutate(m, Raised(true)));
  }

  lemma LostTickExactly(r: Rates, s: Service, symbol: string, price: real, due: bool)
    requires InSync(s)
    ensures InSync(Serve(r, s, TickCall(symbol, price, due, Raised(true)))) <==> !Material(r, s.memory, symbol, price)
  {
    TickServed(r, s, symbol, price, due, Raised(true));
  }

  // ---------------------------------------------------------------- the service object

  class PaperExecutionService {
    const broker: PaperBroker
    var durable: Option<Book>

    function State(): Service
      reads this, broker
    {
      Service(broker.Contents(), durable)
    }

    constructor (broker: PaperBroker, durable: Option<Book>)
      ensures this.broker == broker && State() == Service(broker.Contents(), durable)
    {
      this.broker := broker;
      this.durable := durable;
    }

    method Perform(m: Mutation) returns (ok: bool)
      requires m.MSubmit? ==> ValidRequest(m.q)
      modifies broker
      ensures ok <==> Mutated(broker.rates, old(broker.Contents()), m).Ok?
      ensures broker.Contents() == Or(Mutated(broker.rates, old(broker.Contents()), m), old(broker.Contents()))
    {
      match m
      case MSubmit(q) => var x := broker.SubmitOrder(q); return x.Ok?;
      case MCancel(id) => var x := broker.CancelOrder(id); return x.Ok?;
      case MClose(id, price, why) => var x := broker.ClosePosition(id, price, why); return x.Ok?;
      case MReset => broker.ResetAll(); return true;
    }

    /** Save what is in memory; when the save raises, restore `before`. */
    method Persist(before: Book, save: Save)
      modifies this, broker
      ensures State() == Persisted(Service(before, old(durable)), old(broker.Contents()), save)
    {
      if Stored(save) { durable := Some(View(broker.Contents())); }
      if save.Raised? { broker.RestoreFrom(before); }
    }

    method MutateOnce(m: Mutation, save: Save)
      requires m.MSubmit? ==> ValidRequest(m.q)
      modifies this, broker
      ensures State() == Serve(broker.rates, old(State()), Mutate(m, save))
    {
      var before := broker.Contents();
      var ok := Perform(m);
      if ok { Persist(before, save); }
    }

    method CountOpen(ps: seq<Position>) returns (n: nat)
      ensures n == OpenCount(ps)
    {
      n := 0;
      var i := |ps|;
      while i > 0
        invariant 0 <= i <= |ps| && n == OpenCount(ps[i..])
      {
        i := i - 1;
        assert ps[i..][1..] == ps[i + 1..];
        if ps[i].open { n := n + 1; }
      }
    }

    method TickAndPersist(symbol: string, price: real, due: bool, save: Save)
      modifies this, broker
      ensures State() == Serve(broker.rates, old(State()), TickCall(symbol, price, due, save))
    {
      var before := broker.Contents();
      var filled, closed := broker.TickOnce(symbol, price);
      var open := CountOpen(broker.positions);
      if filled != [] || closed != [] || (open > 0 && due) { Persist(before, save); }
    }

    method Recover(save: Save)
      modifies this, broker
      ensures State() == Recovered(old(State()), save)
      ensures old(durable).Some? && Storable(old(durable).value) ==> InSync(State())
      ensures old(durable).None? && Rooted(old(broker.Contents())) && Stored(save) ==> InSync(State())
    {
      ghost var before := State();
      if durable.Some? { broker.RestoreFrom(durable.value); }
      else if Stored(save) { durable := Some(View(broker.Contents())); }
      if (before.durable.Some? && Storable(before.durable.value))
        || (before.durable.None? && Rooted(before.memory) && Stored(save)) {
        RecoveryInSync(before, save);
      }
    }
  }
}
