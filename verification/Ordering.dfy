/** Stable sorting by a pair of integers, as the service sorts trades, outcomes and events. */
module Ordering {

  type Key = (int, int)

  predicate NotAfter(a: Key, b: Key) { a.0 < b.0 || (a.0 == b.0 && a.1 <= b.1) }

  predicate InOrder<T>(s: seq<T>, key: T -> Key) {
    forall i, j :: 0 <= i < j < |s| ==> NotAfter(key(s[i]), key(s[j]))
  }

  /** No two elements share an identity. */
  predicate DistinctBy<T>(s: seq<T>, id: T -> int) {
    forall i, j :: 0 <= i < j < |s| ==> id(s[i]) != id(s[j])
  }

  /** Put `x` behind everything that does not come after it. */
  function Place<T>(x: T, s: seq<T>, key: T -> Key): (t: seq<T>)
    ensures |t| == |s| + 1
  {
    if s == [] || NotAfter(key(s[|s| - 1]), key(x)) then s + [x]
    else Place(x, s[..|s| - 1], key) + [s[|s| - 1]]
  }

  function Sort<T>(s: seq<T>, key: T -> Key): (t: seq<T>)
    ensures |t| == |s|
  {
    if s == [] then [] else Place(s[|s| - 1], Sort(s[..|s| - 1], key), key)
  }

  lemma SplitLast<T>(s: seq<T>, y: T)
    requires s != []
    ensures y in s <==> y in s[..|s| - 1] || y == s[|s| - 1]
  {
    assert s == s[..|s| - 1] + [s[|s| - 1]];
  }

  lemma {:induction false} PlaceMembers<T>(x: T, s: seq<T>, key: T -> Key, y: T)
    ensures y in Place(x, s, key) <==> y == x || y in s
  {
    if s != [] && !NotAfter(key(s[|s| - 1]), key(x)) {
      PlaceMembers(x, s[..|s| - 1], key, y);
      SplitLast(s, y);
    }
  }

  lemma {:induction false} PlaceOrdered<T>(x: T, s: seq<T>, key: T -> Key)
    requires InOrder(s, key)
    ensures InOrder(Place(x, s, key), key)
  {
    if s != [] && !NotAfter(key(s[|s| - 1]), key(x)) {
      var front, last := s[..|s| - 1], s[|s| - 1];
      PlaceOrdered(x, front, key);
      var t := Place(x, front, key);
      forall i | 0 <= i < |t| ensures NotAfter(key(t[i]), key(last)) {
        PlaceMembers(x, front, key, t[i]);
      }
    } else if s != [] {
      forall i | 0 <= i < |s| ensures NotAfter(key(s[i]), key(x)) {
        assert i < |s| - 1 ==> NotAfter(key(s[i]), key(s[|s| - 1]));
      }
    }
  }

  lemma {:induction false} PlaceDistinct<T>(x: T, s: seq<T>, key: T -> Key, id: T -> int)
    requires DistinctBy(s, id) && forall y :: y in s ==> id(y) != id(x)
    ensures DistinctBy(Place(x, s, key), id)
  {
    if s != [] && !NotAfter(key(s[|s| - 1]), key(x)) {
      var front, last := s[..|s| - 1], s[|s| - 1];
      PlaceDistinct(x, front, key, id);
      var t := Place(x, front, key);
      forall i | 0 <= i < |t| ensures id(t[i]) != id(last) {
        PlaceMembers(x, front, key, t[i]);
      }
    }
  }

  /** Sorting keeps the elements, orders them, and keeps identities distinct. */
  lemma {:induction false} SortMembers<T>(s: seq<T>, key: T -> Key, y: T)
    ensures y in Sort(s, key) <==> y in s
  {
    if s != [] {
      SortMembers(s[..|s| - 1], key, y);
      PlaceMembers(s[|s| - 1], Sort(s[..|s| - 1], key), key, y);
      SplitLast(s, y);
    }
  }

  lemma {:induction false} SortOrdered<T>(s: seq<T>, key: T -> Key)
    ensures InOrder(Sort(s, key), key)
  {
    if s != [] {
      SortOrdered(s[..|s| - 1], key);
      PlaceOrdered(s[|s| - 1], Sort(s[..|s| - 1], key), key);
    }
  }

  lemma {:induction false} SortDistinct<T>(s: seq<T>, key: T -> Key, id: T -> int)
    requires DistinctBy(s, id)
    ensures DistinctBy(Sort(s, key), id)
  {
    if s != [] {
      var front, last := s[..|s| - 1], s[|s| - 1];
      SortDistinct(front, key, id);
      forall y | y in Sort(front, key) ensures id(y) != id(last) { SortMembers(front, key, y); }
      PlaceDistinct(last, Sort(front, key), key, id);
    }
  }
}
