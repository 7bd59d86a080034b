/**
 The list of realised profit-and-loss events: normalisation over a retention window, one event per id,
 and recording of a new one.
 */
module PnlEvents {
  import opened Ordering

  /** Times are in microseconds. */
  const FIVE_MINUTES: int := 300_000_000

  datatype Event = Event(id: nat, instrument: nat, started: int, closed: int, net: real, orders: set<nat>)

  function EventKey(e: Event): Key { (e.closed, e.id) }
  function EventId(e: Event): int { e.id }

  predicate Kept(e: Event, now: int, retention: int) { now - retention <= e.closed <= now + FIVE_MINUTES }

  /** Store under the event's id: a later event with the same id replaces the earlier one. */
  function Upsert(s: seq<Event>, e: Event): (t: seq<Event>)
  {
    if s == [] then [e]
    else if s[0].id == e.id then [e] + s[1..]
    else [s[0]] + Upsert(s[1..], e)
  }

  function Collect(raw: seq<Event>, now: int, retention: int): seq<Event> {
    if raw == [] then []
    else
      var front, e := Collect(raw[..|raw| - 1], now, retention), raw[|raw| - 1];
      if Kept(e, now, retention) then Upsert(front, e) else front
  }

  function Normalise(raw: seq<Event>, now: int, retention: int): seq<Event> {
    Sort(Collect(raw, now, retention), EventKey)
  }

  function Without(s: seq<Event>, id: nat): seq<Event> {
    if s == [] then [] else if s[0].id == id then Without(s[1..], id) else [s[0]] + Without(s[1..], id)
  }

  function Record(raw: seq<Event>, now: int, retention: int, e: Event): seq<Event> {
    Sort(Without(Normalise(raw, now, retention), e.id) + [e], EventKey)
  }

  // ---------------------------------------------------------------- what the list keeps

  lemma {:induction false} UpsertMembers(s: seq<Event>, e: Event, x: Event)
    ensures x in Upsert(s, e) ==> x == e || x in s
    ensures e in Upsert(s, e)
    ensures x in s && x.id != e.id ==> x in Upsert(s, e)
  {
    if s != [] && s[0].id != e.id { UpsertMembers(s[1..], e, x); }
  }

  lemma {:induction false} UpsertDistinct(s: seq<Event>, e: Event)
    requires DistinctBy(s, EventId)
    ensures DistinctBy(Upsert(s, e), EventId)
  {
    if s != [] {
      var rest := s[1..];
      if s[0].id != e.id {
        UpsertDistinct(rest, e);
        var t := Upsert(rest, e);
        forall i | 0 <= i < |t| ensures t[i].id != s[0].id { UpsertMembers(rest, e, t[i]); }
      }
    }
  }

  lemma {:induction false} CollectDistinct(raw: seq<Event>, now: int, retention: int)
    ensures DistinctBy(Collect(raw, now, retention), EventId)
  {
    if raw != [] {
      CollectDistinct(raw[..|raw| - 1], now, retention);
      UpsertDistinct(Collect(raw[..|raw| - 1], now, retention), raw[|raw| - 1]);
    }
  }

  lemma {:induction false} CollectMembers(raw: seq<Event>, now: int, retention: int, x: Event)
    ensures x in Collect(raw, now, retention) ==> x in raw && Kept(x, now, retention)
    ensures DistinctBy(raw, EventId) && x in raw && Kept(x, now, retention) ==> x in Collect(raw, now, retention)
  {
    if raw != [] {
      var front, e := raw[..|raw| - 1], raw[|raw| - 1];
      CollectMembers(front, now, retention, x);
      UpsertMembers(Collect(front, now, retention), e, x);
      SplitLast(raw, x);
      if DistinctBy(raw, EventId) && x in front {
        var i :| 0 <= i < |front| && front[i] == x;
        assert raw[i] == x && EventId(raw[i]) != EventId(raw[|raw| - 1]);
      }
    }
  }

  lemma {:induction false} WithoutMembers(s: seq<Event>, id: nat, x: Event)
    ensures x in Without(s, id) <==> x in s && x.id != id
  {
    if s != [] { WithoutMembers(s[1..], id, x); }
  }

  lemma {:induction false} WithoutDistinct(s: seq<Event>, id: nat)
    requires DistinctBy(s, EventId)
    ensures DistinctBy(Without(s, id), EventId)
  {
    if s != [] {
      WithoutDistinct(s[1..], id);
      var t := Without(s[1..], id);
      forall i | 0 <= i < |t| ensures t[i].id != s[0].id { WithoutMembers(s[1..], id, t[i]); }
    }
  }

  lemma NormaliseKeeps(raw: seq<Event>, now: int, retention: int, x: Event)
    ensures DistinctBy(Normalise(raw, now, retention), EventId)
    ensures x in Normalise(raw, now, retention) ==> x in raw && Kept(x, now, retention)
    ensures DistinctBy(raw, EventId) && x in raw && Kept(x, now, retention) ==> x in Normalise(raw, now, retention)
  {
    CollectDistinct(raw, now, retention);
    CollectMembers(raw, now, retention, x);
    SortDistinct(Collect(raw, now, retention), EventKey, EventId);
    SortMembers(Collect(raw, now, retention), EventKey, x);
  }

  /** Normalising a list that is already sorted, distinct and inside the window finds the same events. */
  lemma NormaliseIdempotent(raw: seq<Event>, now: int, retention: int, x: Event)
    ensures var once := Normalise(raw, now, retention); x in Normalise(once, now, retention) <==> x in once
  {
    NormaliseKeeps(raw, now, retention, x);
    NormaliseKeeps(Normalise(raw, now, retention), now, retention, x);
  }

  /** After recording, the new event is there, alone under its id, and ids stay distinct and events sorted. */
  lemma RecordExactly(raw: seq<Event>, now: int, retention: int, e: Event, x: Event)
    ensures DistinctBy(Record(raw, now, retention, e), EventId) && InOrder(Record(raw, now, retention, e), EventKey)
    ensures x in Record(raw, now, retention, e) <==> x == e || (x in Normalise(raw, now, retention) && x.id != e.id)
  {
    var others := Without(Normalise(raw, now, retention), e.id);
    NormaliseKeeps(raw, now, retention, x);
    WithoutDistinct(Normalise(raw, now, retention), e.id);
    WithoutMembers(Normalise(raw, now, retention), e.id, x);
    forall i | 0 <= i < |others| ensures others[i].id != e.id {
      WithoutMembers(Normalise(raw, now, retention), e.id, others[i]);
    }
    SortMembers(others + [e], EventKey, x);
    SortDistinct(others + [e], EventKey, EventId);
    SortOrdered(others + [e], EventKey);
  }
}
