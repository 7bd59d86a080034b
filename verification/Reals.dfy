/**
 Real arithmetic shared by the estimators: clamps, products of signs, and a square root given by its
 defining property.
 */
module Reals {

  const EPSILON: real := 0.000000000000000000000000000001

  ghost predicate IsRoot(root: real -> real) {
    forall x: real {:trigger root(x)} :: x >= 0.0 ==> root(x) >= 0.0 && root(x) * root(x) == x
  }

  function Max(a: real, b: real): real { if a >= b then a else b }
  function Min(a: real, b: real): real { if a <= b then a else b }
  function Abs(a: real): real { if a < 0.0 then -a else a }
  function Clamp(v: real, lo: real, hi: real): real { Min(hi, Max(lo, v)) }

  lemma Square(x: real)
    ensures x * x >= 0.0
  { }

  lemma Product(a: real, b: real)
    requires a >= 0.0 && b >= 0.0
    ensures a * b >= 0.0
  { }

  lemma Scaling(x: real, y: real, b: real)
    requires x <= y && b >= 0.0
    ensures x * b <= y * b
  { }

  lemma StrictScaling(x: real, y: real, b: real)
    requires x < y && b > 0.0
    ensures x * b < y * b
  { }

  lemma StrictProduct(a: real, b: real)
    requires a > 0.0 && b > 0.0
    ensures a * b > 0.0
  { }

  lemma ProductIs(a: real, b: real, q: real)
    requires a > 0.0 && b > 0.0 && q == a * b
    ensures q > 0.0
  {
    StrictProduct(a, b);
  }

  lemma SquareIs(a: real, q: real)
    requires a != 0.0 && q == a * a
    ensures q > 0.0
  {
    if a > 0.0 { ProductIs(a, a, q); } else { ProductIs(-a, -a, q); }
  }

  lemma UnitProduct(a: real, b: real)
    requires 0.0 <= a <= 1.0 && 0.0 <= b <= 1.0
    ensures 0.0 <= a * b <= 1.0
  {
    Product(a, b);
    Product(a, 1.0 - b);
  }

  lemma RootPositive(root: real -> real, x: real)
    requires IsRoot(root) && x > 0.0
    ensures root(x) > 0.0
  {
    assert root(x) * root(x) == x;
  }

  lemma UniqueQuotient(n: real, q: real, v: real)
    requires q != 0.0 && n * q == v
    ensures v / q == n
  { }

  /** A part of a positive whole is a fraction between zero and one. */
  lemma Fraction(a: real, b: real)
    requires b > 0.0 && 0.0 <= a <= b
    ensures 0.0 <= a / b <= 1.0
  { }

  lemma NegatedFraction(a: real, b: real)
    requires b > 0.0
    ensures (-a) / b == -(a / b)
  { }
}
