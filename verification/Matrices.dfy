/**
 Three-by-three real matrices and positive semidefiniteness, as the causal state filter needs them.
 */
module Matrices {
  import opened Reals

  datatype Vec = Vec(x: real, y: real, z: real)

  /** A matrix by rows. */
  datatype Mat = Mat(r: Vec, s: Vec, t: Vec)

  function Dot(u: Vec, v: Vec): real { u.x * v.x + u.y * v.y + u.z * v.z }

  function Apply(m: Mat, v: Vec): Vec { Vec(Dot(m.r, v), Dot(m.s, v), Dot(m.t, v)) }

  function Transpose(m: Mat): Mat {
    Mat(Vec(m.r.x, m.s.x, m.t.x), Vec(m.r.y, m.s.y, m.t.y), Vec(m.r.z, m.s.z, m.t.z))
  }

  function Multiply(a: Mat, b: Mat): Mat {
    var c := Transpose(b);
    Mat(Vec(Dot(a.r, c.r), Dot(a.r, c.s), Dot(a.r, c.t)),
        Vec(Dot(a.s, c.r), Dot(a.s, c.s), Dot(a.s, c.t)),
        Vec(Dot(a.t, c.r), Dot(a.t, c.s), Dot(a.t, c.t)))
  }

  function AddVec(u: Vec, v: Vec): Vec { Vec(u.x + v.x, u.y + v.y, u.z + v.z) }

  function Add(a: Mat, b: Mat): Mat { Mat(AddVec(a.r, b.r), AddVec(a.s, b.s), AddVec(a.t, b.t)) }

  function Scale(k: real, v: Vec): Vec { Vec(k * v.x, k * v.y, k * v.z) }

  /** The matrix k u u' of rank one. */
  function Outer(k: real, u: Vec): Mat { Mat(Scale(u.x * k, u), Scale(u.y * k, u), Scale(u.z * k, u)) }

  function Quad(m: Mat, v: Vec): real { Dot(v, Apply(m, v)) }

  predicate Symmetric(m: Mat) { m.r.y == m.s.x && m.r.z == m.t.x && m.s.z == m.t.y }

  /** Symmetric, and no direction has negative variance. */
  ghost predicate Psd(m: Mat) { Symmetric(m) && forall v :: Quad(m, v) >= 0.0 }

  // ---------------------------------------------------------------- products

  /** A row times a product, one entry at a time. */
  lemma RowProduct(a: Vec, b: Mat, v: Vec)
    ensures var c := Transpose(b); Dot(Vec(Dot(a, c.r), Dot(a, c.s), Dot(a, c.t)), v) == Dot(a, Apply(b, v))
  { }

  lemma ApplyProduct(a: Mat, b: Mat, v: Vec)
    ensures Apply(Multiply(a, b), v) == Apply(a, Apply(b, v))
  {
    RowProduct(a.r, b, v);
    RowProduct(a.s, b, v);
    RowProduct(a.t, b, v);
  }

  lemma Move(a: Mat, u: Vec, v: Vec)
    ensures Dot(u, Apply(a, v)) == Dot(Apply(Transpose(a), u), v)
  { }

  /** The quadratic form of A P A' is that of P along A'v. */
  lemma CongruenceForm(a: Mat, p: Mat, v: Vec)
    ensures Quad(Multiply(Multiply(a, p), Transpose(a)), v) == Quad(p, Apply(Transpose(a), v))
  {
    var w := Apply(Transpose(a), v);
    ApplyProduct(Multiply(a, p), Transpose(a), v);
    ApplyProduct(a, p, w);
    Move(a, v, Apply(p, w));
  }

  /** A symmetric bilinear form reads the same from both sides. */
  lemma Swap(p: Mat, u: Vec, v: Vec)
    requires Symmetric(p)
    ensures Dot(u, Apply(p, v)) == Dot(v, Apply(p, u))
  { }

  function Unit(i: nat): Vec {
    if i == 0 then Vec(1.0, 0.0, 0.0) else if i == 1 then Vec(0.0, 1.0, 0.0) else Vec(0.0, 0.0, 1.0)
  }

  function Row(m: Mat, i: nat): Vec { if i == 0 then m.r else if i == 1 then m.s else m.t }

  function Part(v: Vec, i: nat): real { if i == 0 then v.x else if i == 1 then v.y else v.z }

  function Entry(m: Mat, i: nat, j: nat): real { Part(Row(m, i), j) }

  lemma EntryOfCongruence(a: Mat, p: Mat, i: nat, j: nat)
    requires i < 3 && j < 3
    ensures Entry(Multiply(Multiply(a, p), Transpose(a)), i, j) == Dot(Row(a, i), Apply(p, Row(a, j)))
  {
    RowProduct(Row(a, i), p, Row(a, j));
  }

  lemma CongruenceSymmetric(a: Mat, p: Mat)
    requires Symmetric(p)
    ensures Symmetric(Multiply(Multiply(a, p), Transpose(a)))
  {
    EntryOfCongruence(a, p, 0, 1);
    EntryOfCongruence(a, p, 1, 0);
    EntryOfCongruence(a, p, 0, 2);
    EntryOfCongruence(a, p, 2, 0);
    EntryOfCongruence(a, p, 1, 2);
    EntryOfCongruence(a, p, 2, 1);
    Swap(p, a.r, a.s);
    Swap(p, a.r, a.t);
    Swap(p, a.s, a.t);
  }

  lemma CongruencePsd(a: Mat, p: Mat)
    requires Psd(p)
    ensures Psd(Multiply(Multiply(a, p), Transpose(a)))
  {
    CongruenceSymmetric(a, p);
    var m := Multiply(Multiply(a, p), Transpose(a));
    forall v ensures Quad(m, v) >= 0.0 { CongruenceForm(a, p, v); }
  }

  lemma DotAdd(r: Vec, s: Vec, v: Vec)
    ensures Dot(AddVec(r, s), v) == Dot(r, v) + Dot(s, v) && Dot(v, AddVec(r, s)) == Dot(v, r) + Dot(v, s)
  { }

  lemma ApplyAdd(a: Mat, b: Mat, v: Vec)
    ensures Apply(Add(a, b), v) == AddVec(Apply(a, v), Apply(b, v))
  {
    DotAdd(a.r, b.r, v);
    DotAdd(a.s, b.s, v);
    DotAdd(a.t, b.t, v);
  }

  lemma QuadAdd(a: Mat, b: Mat, v: Vec)
    ensures Quad(Add(a, b), v) == Quad(a, v) + Quad(b, v)
  {
    ApplyAdd(a, b, v);
    DotAdd(Apply(a, v), Apply(b, v), v);
  }

  lemma AddPsd(a: Mat, b: Mat)
    requires Psd(a) && Psd(b)
    ensures Psd(Add(a, b))
  {
    forall v ensures Quad(Add(a, b), v) >= 0.0 { QuadAdd(a, b, v); }
  }

  lemma ScaledDot(e: real, u: Vec, v: Vec)
    ensures Dot(Scale(e, u), v) == Times(e, Dot(u, v)) && Dot(v, Scale(e, u)) == Times(e, Dot(u, v))
  { }

  /** A product that is not multiplied out. */
  function Times(a: real, b: real): real { a * b }

  lemma Reordered(a: real, k: real, d: real)
    ensures Times(a * k, d) == Times(k, d) * a
  { }

  /** One row of the rank-one matrix, applied. */
  lemma OuterRow(a: real, k: real, u: Vec, v: Vec)
    ensures Dot(Scale(a * k, u), v) == Times(k, Dot(u, v)) * a
  {
    ScaledDot(a * k, u, v);
    Reordered(a, k, Dot(u, v));
  }

  lemma OuterApply(k: real, u: Vec, v: Vec)
    ensures Apply(Outer(k, u), v) == Scale(Times(k, Dot(u, v)), u)
  {
    OuterRow(u.x, k, u, v);
    OuterRow(u.y, k, u, v);
    OuterRow(u.z, k, u, v);
  }

  lemma SquareOut(k: real, d: real)
    ensures Times(Times(k, d), d) == k * (d * d)
  { }

  lemma OuterForm(k: real, u: Vec, v: Vec)
    ensures Quad(Outer(k, u), v) == Times(Times(k, Dot(u, v)), Dot(u, v))
  {
    OuterApply(k, u, v);
    ScaledDot(Times(k, Dot(u, v)), u, v);
  }

  lemma OuterSign(k: real, d: real)
    requires k >= 0.0
    ensures Times(Times(k, d), d) >= 0.0
  {
    SquareOut(k, d);
    Square(d);
    Product(k, d * d);
  }

  lemma OuterPsd(k: real, u: Vec)
    requires k >= 0.0
    ensures Psd(Outer(k, u))
  {
    forall v ensures Quad(Outer(k, u), v) >= 0.0 {
      OuterForm(k, u, v);
      OuterSign(k, Dot(u, v));
    }
  }

  lemma DiagonalNonnegative(m: Mat)
    requires Psd(m)
    ensures m.r.x >= 0.0 && m.s.y >= 0.0 && m.t.z >= 0.0
  {
    assert Quad(m, Unit(0)) == m.r.x;
    assert Quad(m, Unit(1)) == m.s.y;
    assert Quad(m, Unit(2)) == m.t.z;
  }

  function Diagonal(a: real, b: real, c: real): Mat { Mat(Vec(a, 0.0, 0.0), Vec(0.0, b, 0.0), Vec(0.0, 0.0, c)) }

  lemma DiagonalPsd(a: real, b: real, c: real)
    requires a >= 0.0 && b >= 0.0 && c >= 0.0
    ensures Psd(Diagonal(a, b, c))
  {
    forall v ensures Quad(Diagonal(a, b, c), v) >= 0.0 {
      assert Quad(Diagonal(a, b, c), v) == a * (v.x * v.x) + b * (v.y * v.y) + c * (v.z * v.z);
      Square(v.x); Square(v.y); Square(v.z);
      Product(a, v.x * v.x); Product(b, v.y * v.y); Product(c, v.z * v.z);
    }
  }
}
