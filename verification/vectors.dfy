/** Points and gradient vectors of the plane, the fixed-step update and the
    stopping test of the descent loop. Scalars are mathematical reals: the
    model does not follow floating-point rounding or overflow. */
module Vectors {

  /** A point (x, y), or a gradient vector (df/dx, df/dy). */
  datatype Vec = Vec(x: real, y: real)

  /** One descent step: the point moved by -lr times the gradient. */
  function Step(p: Vec, lr: real, g: Vec): Vec
  {
    Vec(p.x - lr * g.x, p.y - lr * g.y)
  }

  // ---------------------------------------------------------------------
  // Facts about squares of reals, proved from small steps.

  /** A product with a non-zero factor is zero only if the other factor is. */
  lemma ProductZero(a: real, b: real)
    requires a != 0.0 && a * b == 0.0
    ensures b == 0.0
  {
    assert b == (a * b) / a;
  }

  /** A square is never negative, and zero only at zero. */
  lemma SquareZero(a: real)
    ensures a * a >= 0.0
    ensures a * a == 0.0 ==> a == 0.0
  {
    if a != 0.0 && a * a == 0.0 {
      ProductZero(a, a);
    }
  }

  /** Multiplying by a non-negative factor keeps an order. */
  lemma ScaleLeq(c: real, a: real, b: real)
    requires c >= 0.0 && a <= b
    ensures c * a <= c * b
  {
  }

  /** Squaring is monotone on the non-negative reals. */
  lemma SquareLeq(a: real, b: real)
    requires 0.0 <= a <= b
    ensures a * a <= b * b
  {
    ScaleLeq(a, a, b);
    ScaleLeq(b, a, b);
    assert a * b == b * a;
  }

  /** Moving a non-negative base up by d > 0 strictly increases its square. */
  lemma SquareGrows(a: real, d: real)
    requires 0.0 <= a && d > 0.0
    ensures a * a < (a + d) * (a + d)
  {
    assert (a + d) * (a + d) == a * a + d * (2.0 * a + d);
    assert d * (2.0 * a + d) > 0.0;
  }

  /** Squaring is strictly monotone on the non-negative reals. */
  lemma SquareLess(a: real, b: real)
    requires 0.0 <= a < b
    ensures a * a < b * b
  {
    SquareGrows(a, b - a);
    assert a + (b - a) == b;
  }

  // ---------------------------------------------------------------------
  // The norm test.

  /** The square of the Euclidean norm: zero exactly at the zero vector. */
  function SquaredNorm(g: Vec): (r: real)
    ensures r >= 0.0
    ensures r == 0.0 <==> g == Vec(0.0, 0.0)
  {
    SquareZero(g.x);
    SquareZero(g.y);
    g.x * g.x + g.y * g.y
  }

  /** The stopping test "norm of g is below tol", stated without a square
      root: a norm is never negative, so it can only be below a positive
      tolerance, and then comparing squares is the same as comparing norms. */
  predicate Below(g: Vec, tol: real)
  {
    tol > 0.0 && SquaredNorm(g) < tol * tol
  }

  /** Below agrees with comparing the true norm n (the non-negative square
      root of the squared norm) against the tolerance. */
  lemma BelowMatchesNorm(g: Vec, tol: real, n: real)
    requires n >= 0.0 && n * n == SquaredNorm(g)
    ensures Below(g, tol) <==> n < tol
  {
    if tol > 0.0 {
      if n < tol {
        SquareLess(n, tol);
      } else {
        SquareLeq(tol, n);
      }
    }
  }
}
