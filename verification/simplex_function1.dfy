/** The quadratic test function f(x, y) = 2x^2 + 3y^2 + 4xy - 6x - 3y
    (class SimplexFunction1) and its analytic gradient. */
module SimplexFunction1 {
  import opened Vectors

  /** The value. With u = x - 3 and v = y + 1.5 it equals
      2(u + v)^2 + v^2 - 6.75, a sum of squares less 6.75, so its least
      value is -6.75, taken at (3, -1.5) and nowhere else. */
  function CalculateFunc(x: real, y: real): (r: real)
    ensures r >= -6.75
    ensures r == -6.75 <==> x == 3.0 && y == -1.5
  {
    var v := y + 1.5;
    var w := x - 3.0 + v;
    assert x == w - v + 3.0 && y == v - 1.5;
    SquareZero(w);
    SquareZero(v);
    assert 2.0 * x * x + 3.0 * y * y + 4.0 * x * y - 6.0 * x - 3.0 * y + 6.75 == 2.0 * (w * w) + v * v;
    2.0 * x * x + 3.0 * y * y + 4.0 * x * y - 6.0 * x - 3.0 * y
  }

  /** The gradient. It vanishes at (3, -1.5) and nowhere else: the linear
      system 4x + 4y = 6, 4x + 6y = 3 has determinant 8. */
  function CalculateGradient(x: real, y: real): (g: Vec)
    ensures g == Vec(0.0, 0.0) <==> x == 3.0 && y == -1.5
  {
    Vec(4.0 * x + 4.0 * y - 6.0, 4.0 * x + 6.0 * y - 3.0)
  }

  /** The first gradient component is the exact x-partial: moving x by h
      changes f by h times it, plus the curvature term 2h^2. */
  lemma PartialX(x: real, y: real, h: real)
    ensures CalculateFunc(x + h, y) - CalculateFunc(x, y)
         == h * CalculateGradient(x, y).x + 2.0 * h * h
  {
    assert (x + h) * (x + h) == x * x + 2.0 * x * h + h * h;
    assert (x + h) * y == x * y + h * y;
  }

  /** The second gradient component is the exact y-partial: moving y by k
      changes f by k times it, plus the curvature term 3k^2. */
  lemma PartialY(x: real, y: real, k: real)
    ensures CalculateFunc(x, y + k) - CalculateFunc(x, y)
         == k * CalculateGradient(x, y).y + 3.0 * k * k
  {
    assert (y + k) * (y + k) == y * y + 2.0 * y * k + k * k;
    assert x * (y + k) == x * y + x * k;
  }
}
