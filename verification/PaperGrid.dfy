/**
 The 1e-8 money grid of the paper broker: `_q` quantizes toward zero.
 */
module PaperGrid {

  const UNIT: real := 100000000.0

  function Trunc(x: real): int { if x >= 0.0 then x.Floor else -((-x).Floor) }

  function Q(x: real): real { Trunc(x * UNIT) as real / UNIT }

  predicate OnGrid(x: real) { x * UNIT == (x * UNIT).Floor as real }

  lemma WholeFloor(n: int)
    ensures (n as real).Floor == n
  { }

  lemma Scale(n: int)
    ensures (n as real / UNIT) * UNIT == n as real && OnGrid(n as real / UNIT)
  {
    WholeFloor(n);
  }

  lemma QOnGrid(x: real)
    ensures OnGrid(Q(x))
  {
    Scale(Trunc(x * UNIT));
  }

  lemma QSame(x: real)
    requires OnGrid(x)
    ensures Q(x) == x
  {
    var n := (x * UNIT).Floor;
    WholeFloor(n);
    WholeFloor(-n);
    assert -(x * UNIT) == (-n) as real;
    assert Trunc(x * UNIT) == n;
    assert x == n as real / UNIT;
  }

  lemma GridSum(x: real, y: real)
    requires OnGrid(x) && OnGrid(y)
    ensures OnGrid(x + y) && OnGrid(x - y)
  {
    var m, n := (x * UNIT).Floor, (y * UNIT).Floor;
    assert (x + y) * UNIT == (m + n) as real && (x - y) * UNIT == (m - n) as real;
    WholeFloor(m + n);
    WholeFloor(m - n);
  }

  lemma GridZero()
    ensures OnGrid(0.0)
  {
    WholeFloor(0);
  }

  /** Quantizing never grows an amount and never changes its sign. */
  lemma QTowardZero(x: real)
    ensures x >= 0.0 ==> 0.0 <= Q(x) <= x < Q(x) + 1.0 / UNIT
    ensures x <= 0.0 ==> Q(x) - 1.0 / UNIT < x <= Q(x) <= 0.0
  {
    var y := x * UNIT;
    var t := Trunc(y);
    assert x == y / UNIT;
  }

  /**
   Adding a grid amount commutes with quantizing exactly when nothing is truncated or both amounts are
   truncated downwards.
   */
  lemma QShift(x: real, g: real)
    requires (x >= 0.0 || OnGrid(x)) && OnGrid(g)
    ensures Q(x + g) == Q(x) + g <==> OnGrid(x) || x + g >= 0.0
  {
    var y, n := x * UNIT, (g * UNIT).Floor;
    assert (x + g) * UNIT == y + n as real;
    TruncShift(y, n);
    assert Q(x) + g == (Trunc(y) + n) as real / UNIT;
    SameUnits(Trunc(y + n as real), Trunc(y) + n);
  }

  lemma SameUnits(a: int, b: int)
    ensures a as real / UNIT == b as real / UNIT <==> a == b
  { }

  lemma FloorShift(y: real, n: int)
    ensures (y + n as real).Floor == y.Floor + n
  { }

  lemma FloorOpposite(y: real)
    ensures (-y).Floor == if y == y.Floor as real then -y.Floor else -y.Floor - 1
  { }

  lemma TruncShift(y: real, n: int)
    requires y >= 0.0 || y == y.Floor as real
    ensures Trunc(y + n as real) == Trunc(y) + n <==> y == y.Floor as real || y + n as real >= 0.0
  {
    var w := y + n as real;
    FloorShift(y, n);
    FloorOpposite(y);
    FloorOpposite(w);
  }

  lemma QMonotone(a: real, b: real)
    requires a <= b
    ensures Q(a) <= Q(b)
  {
    var x, y := a * UNIT, b * UNIT;
    assert x <= y;
    TruncMonotone(x, y);
  }

  lemma TruncMonotone(x: real, y: real)
    requires x <= y
    ensures Trunc(x) <= Trunc(y)
  { }
}
