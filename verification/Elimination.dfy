/**
 Gauss-Jordan elimination with row pivoting on three equations in three unknowns, as `_solve_3x3` runs it.
 */
module Elimination {
  import opened Options
  import opened Reals
  import opened Matrices

  /** The equation a x + b y + c z = d. */
  datatype Row = Row(a: real, b: real, c: real, d: real)

  predicate Three(s: seq<Row>) { |s| == 3 }

  function At(r: Row, j: nat): real { if j == 0 then r.a else if j == 1 then r.b else if j == 2 then r.c else r.d }

  /** How far `v` is from satisfying the equation. */
  function Residual(r: Row, v: Vec): real { r.a * v.x + r.b * v.y + r.c * v.z - r.d }

  predicate Solves(s: seq<Row>, v: Vec) { forall i :: 0 <= i < |s| ==> Residual(s[i], v) == 0.0 }

  // ---------------------------------------------------------------- row operations

  function Divided(r: Row, p: real): Row
    requires p != 0.0
  {
    Row(r.a / p, r.b / p, r.c / p, r.d / p)
  }

  function Minus(r: Row, f: real, s: Row): Row { Row(r.a - f * s.a, r.b - f * s.b, r.c - f * s.c, r.d - f * s.d) }

  lemma DividedResidual(r: Row, p: real, v: Vec)
    requires p != 0.0
    ensures Residual(Divided(r, p), v) == 0.0 <==> Residual(r, v) == 0.0
  {
    var q := Divided(r, p);
    assert q.a * p == r.a && q.b * p == r.b && q.c * p == r.c && q.d * p == r.d;
    ScaledResidual(q, r, p, v);
  }

  lemma ScaledResidual(q: Row, r: Row, p: real, v: Vec)
    requires p != 0.0 && q.a * p == r.a && q.b * p == r.b && q.c * p == r.c && q.d * p == r.d
    ensures Residual(q, v) == 0.0 <==> Residual(r, v) == 0.0
  {
    assert Residual(q, v) * p == Residual(r, v);
  }

  lemma MinusResidual(r: Row, f: real, s: Row, v: Vec)
    ensures Residual(Minus(r, f, s), v) == Residual(r, v) - f * Residual(s, v)
  { }

  // ---------------------------------------------------------------- one column

  /** The first row, from `column` on, whose entry in `column` is largest in size. */
  function PivotRow(s: seq<Row>, column: nat): (p: nat)
    requires Three(s) && column < 3
    ensures column <= p < 3
    ensures forall r :: column <= r < 3 ==> Abs(At(s[r], column)) <= Abs(At(s[p], column))
    ensures forall r :: column <= r < p ==> Abs(At(s[r], column)) < Abs(At(s[p], column))
  {
    var later := if column < 2 && Abs(At(s[2], column)) > Abs(At(s[1], column)) then 2 else if column < 2 then 1 else 2;
    if later > column && Abs(At(s[later], column)) > Abs(At(s[column], column)) then later else column
  }

  function Swapped(s: seq<Row>, i: nat, j: nat): seq<Row>
    requires i < |s| && j < |s|
  {
    s[i := s[j]][j := s[i]]
  }

  function ClearOne(s: seq<Row>, column: nat, row: nat): seq<Row>
    requires Three(s) && column < 3 && row < 3
  {
    if row == column || At(s[row], column) == 0.0 then s
    else s[row := Minus(s[row], At(s[row], column), s[column])]
  }

  /** Rows before `upto` cleared of their entry in `column`. */
  function Cleared(s: seq<Row>, column: nat, upto: nat): (t: seq<Row>)
    requires Three(s) && column < 3 && upto <= 3
    ensures Three(t)
  {
    if upto == 0 then s else ClearOne(Cleared(s, column, upto - 1), column, upto - 1)
  }

  function Normalised(s: seq<Row>, column: nat): (t: seq<Row>)
    requires Three(s) && column < 3 && At(s[column], column) != 0.0
    ensures Three(t)
  {
    s[column := Divided(s[column], At(s[column], column))]
  }

  function Reduce(s: seq<Row>, column: nat): (t: Option<seq<Row>>)
    requires Three(s) && column < 3
    ensures t.Some? ==> Three(t.value)
  {
    var p := PivotRow(s, column);
    if Abs(At(s[p], column)) <= EPSILON then None
    else Some(Cleared(Normalised(Swapped(s, column, p), column), column, 3))
  }

  function SolveFrom(s: seq<Row>, column: nat): Option<Vec>
    requires Three(s) && column <= 3
    decreases 3 - column
  {
    if column == 3 then Some(Vec(s[0].d, s[1].d, s[2].d))
    else match Reduce(s, column)
      case None => None
      case Some(t) => SolveFrom(t, column + 1)
  }

  function Solve(s: seq<Row>): Option<Vec>
    requires Three(s)
  {
    SolveFrom(s, 0)
  }

  // ---------------------------------------------------------------- what a column step keeps

  /** Columns before `column` already look like the identity. */
  predicate Reduced(s: seq<Row>, column: nat) {
    && Three(s)
    && forall r: nat, j: nat :: r < 3 && j < column && j < 3 ==> At(s[r], j) == (if r == j then 1.0 else 0.0)
  }

  lemma SwapKeeps(s: seq<Row>, column: nat, p: nat, v: Vec)
    requires Reduced(s, column) && column <= p < 3
    ensures Reduced(Swapped(s, column, p), column)
    ensures Solves(Swapped(s, column, p), v) <==> Solves(s, v)
  {
    var t := Swapped(s, column, p);
    assert forall i: nat :: i < 3 ==> t[i] == s[if i == column then p else if i == p then column else i];
    assert forall i: nat :: i < 3 ==> s[i] == t[if i == column then p else if i == p then column else i];
  }

  lemma DividedAt(r: Row, p: real, j: nat)
    requires p != 0.0
    ensures At(Divided(r, p), j) == At(r, j) / p
  { }

  lemma DividedRow(r: Row, column: nat, j: nat)
    requires At(r, column) != 0.0
    ensures At(Divided(r, At(r, column)), column) == 1.0
    ensures At(r, j) == 0.0 ==> At(Divided(r, At(r, column)), j) == 0.0
  {
    DividedAt(r, At(r, column), column);
    DividedAt(r, At(r, column), j);
    OneAndZero(At(r, column));
  }

  lemma OneAndZero(p: real)
    requires p != 0.0
    ensures p / p == 1.0 && 0.0 / p == 0.0
  {
    UniqueQuotient(1.0, p, p);
    UniqueQuotient(0.0, p, 0.0);
  }

  /** Replacing one equation by an equivalent one keeps the solutions. */
  lemma SolvesEquivalent(s: seq<Row>, row: nat, r: Row, v: Vec)
    requires Three(s) && row < 3 && (Residual(r, v) == 0.0 <==> Residual(s[row], v) == 0.0)
    ensures Solves(s[row := r], v) <==> Solves(s, v)
  {
    var t := s[row := r];
    if Solves(s, v) { assert Residual(s[row], v) == 0.0; }
    if Solves(t, v) {
      assert Residual(t[row], v) == 0.0;
      forall i | 0 <= i < 3 ensures Residual(s[i], v) == 0.0 { if i != row { assert t[i] == s[i]; } }
    }
  }

  lemma NormaliseKeeps(s: seq<Row>, column: nat, v: Vec)
    requires Reduced(s, column) && column < 3 && At(s[column], column) != 0.0
    ensures Reduced(Normalised(s, column), column) && At(Normalised(s, column)[column], column) == 1.0
    ensures Solves(Normalised(s, column), v) <==> Solves(s, v)
  {
    var r := s[column];
    forall j: nat | j < column ensures At(Divided(r, At(r, column)), j) == 0.0 {
      DividedRow(r, column, j);
      assert At(s[column], j) == 0.0;
    }
    DividedRow(r, column, 0);
    DividedResidual(r, At(r, column), v);
    SolvesEquivalent(s, column, Divided(r, At(r, column)), v);
  }

  /** The state inside the clearing loop. */
  predicate Clearing(s: seq<Row>, column: nat, row: nat) {
    && Reduced(s, column) && column < 3
    && At(s[column], column) == 1.0
    && forall r: nat :: r < row && r < 3 && r != column ==> At(s[r], column) == 0.0
  }

  lemma MinusAt(r: Row, f: real, s: Row, j: nat)
    ensures At(Minus(r, f, s), j) == At(r, j) - f * At(s, j)
  { }

  lemma ClearKeeps(s: seq<Row>, column: nat, row: nat, v: Vec)
    requires Clearing(s, column, row) && row < 3
    ensures Clearing(ClearOne(s, column, row), column, row + 1)
    ensures Solves(ClearOne(s, column, row), v) <==> Solves(s, v)
  {
    var t := ClearOne(s, column, row);
    if row != column && At(s[row], column) != 0.0 {
      var f := At(s[row], column);
      forall j: nat ensures At(t[row], j) == At(s[row], j) - f * At(s[column], j) { MinusAt(s[row], f, s[column], j); }
      MinusResidual(s[row], f, s[column], v);
      assert t[row] == Minus(s[row], f, s[column]) && t[column] == s[column];
      SolvesOneChanged(s, t, row, column, v);
    }
  }

  lemma SolvesOneChanged(s: seq<Row>, t: seq<Row>, row: nat, column: nat, v: Vec)
    requires Three(s) && Three(t) && row < 3 && column < 3 && row != column
    requires forall i: nat :: i < 3 && i != row ==> t[i] == s[i]
    requires Residual(s[column], v) == 0.0 ==> Residual(t[row], v) == Residual(s[row], v)
    ensures Solves(t, v) <==> Solves(s, v)
  {
    if Solves(s, v) { assert Residual(s[column], v) == 0.0; assert Residual(s[row], v) == 0.0; }
    if Solves(t, v) {
      assert Residual(t[column], v) == 0.0;
      assert Residual(t[row], v) == 0.0;
      forall i | 0 <= i < 3 ensures Residual(s[i], v) == 0.0 { if i != row { assert Residual(t[i], v) == 0.0; } }
    }
  }

  lemma {:induction false} ClearedKeeps(s: seq<Row>, column: nat, upto: nat, v: Vec)
    requires Clearing(s, column, 0) && upto <= 3
    ensures Clearing(Cleared(s, column, upto), column, upto)
    ensures Solves(Cleared(s, column, upto), v) <==> Solves(s, v)
  {
    if upto > 0 {
      ClearedKeeps(s, column, upto - 1, v);
      ClearKeeps(Cleared(s, column, upto - 1), column, upto - 1, v);
    }
  }

  /** A column step keeps exactly the same solutions and turns one more column into the identity's. */
  lemma ReduceKeeps(s: seq<Row>, column: nat, v: Vec)
    requires Reduced(s, column) && column < 3 && Reduce(s, column).Some?
    ensures Reduced(Reduce(s, column).value, column + 1)
    ensures Solves(Reduce(s, column).value, v) <==> Solves(s, v)
  {
    var p := PivotRow(s, column);
    var swapped := Swapped(s, column, p);
    SwapKeeps(s, column, p, v);
    NormaliseKeeps(swapped, column, v);
    var t := Normalised(swapped, column);
    ClearedKeeps(t, column, 3, v);
  }

  lemma {:induction false} SolvedFrom(s: seq<Row>, column: nat, v: Vec)
    requires Reduced(s, column) && column <= 3 && SolveFrom(s, column).Some?
    ensures Solves(s, v) <==> v == SolveFrom(s, column).value
    decreases 3 - column
  {
    if column < 3 {
      ReduceKeeps(s, column, v);
      SolvedFrom(Reduce(s, column).value, column + 1, v);
    } else {
      IdentitySolves(s, v);
    }
  }

  lemma IdentitySolves(s: seq<Row>, v: Vec)
    requires Reduced(s, 3)
    ensures Solves(s, v) <==> v == Vec(s[0].d, s[1].d, s[2].d)
  {
    assert forall r: nat :: r < 3 ==> At(s[r], 0) == (if r == 0 then 1.0 else 0.0);
    assert forall r: nat :: r < 3 ==> At(s[r], 1) == (if r == 1 then 1.0 else 0.0);
    assert forall r: nat :: r < 3 ==> At(s[r], 2) == (if r == 2 then 1.0 else 0.0);
    assert Residual(s[0], v) == v.x - s[0].d;
    assert Residual(s[1], v) == v.y - s[1].d;
    assert Residual(s[2], v) == v.z - s[2].d;
    if Solves(s, v) { assert Residual(s[0], v) == 0.0 && Residual(s[1], v) == 0.0 && Residual(s[2], v) == 0.0; }
  }

  /** Whatever elimination returns is the one and only solution of the system it was given. */
  lemma SolveIsTheSolution(s: seq<Row>, v: Vec)
    requires Three(s) && Solve(s).Some?
    ensures Solves(s, v) <==> v == Solve(s).value
  {
    SolvedFrom(s, 0, v);
  }

  // ---------------------------------------------------------------- the loops

  /** One column, in place: swap the pivot up, normalise, clear the others. */
  method ReduceInPlace(rows: array<Row>, column: nat) returns (ok: bool)
    requires rows.Length == 3 && column < 3
    modifies rows
    ensures ok <==> Reduce(old(rows[..]), column).Some?
    ensures ok ==> rows[..] == Reduce(old(rows[..]), column).value
  {
    ghost var before := rows[..];
    var pivot := PivotRow(rows[..], column);
    if Abs(At(rows[pivot], column)) <= EPSILON { return false; }
    if pivot != column { rows[column], rows[pivot] := rows[pivot], rows[column]; }
    assert rows[..] == Swapped(before, column, pivot);
    rows[column] := Divided(rows[column], At(rows[column], column));
    ghost var start := rows[..];
    assert start == Normalised(Swapped(before, column, pivot), column);
    for row := 0 to 3
      invariant rows[..] == Cleared(start, column, row)
    {
      if row != column {
        var factor := At(rows[row], column);
        if factor != 0.0 { rows[row] := Minus(rows[row], factor, rows[column]); }
      }
    }
    ok := true;
  }

  /** `_solve_3x3` on its augmented rows, rewritten in place column by column. */
  method SolveInPlace(rows: array<Row>) returns (v: Option<Vec>)
    requires rows.Length == 3
    modifies rows
    ensures v == Solve(old(rows[..]))
  {
    for column := 0 to 3
      invariant Solve(old(rows[..])) == SolveFrom(rows[..], column)
    {
      var ok := ReduceInPlace(rows, column);
      if !ok { return None; }
    }
    v := Some(Vec(rows[0].d, rows[1].d, rows[2].d));
  }
}
