/** The linear test function f(x, y) = x + y (class Test) with its constant
    gradient (1, 1). */
module Test {
  import opened Vectors

  function CalculateFunc(x: real, y: real): real
  {
    x + y
  }

  function CalculateGradient(x: real, y: real): (g: Vec)
    ensures SquaredNorm(g) == 2.0
  {
    Vec(1.0, 1.0)
  }

  /** The gradient agrees with the function exactly: f is affine, so moving
      by (h, k) changes f by the gradient's inner product with (h, k). */
  lemma GradientAgrees(x: real, y: real, h: real, k: real)
    ensures CalculateFunc(x + h, y + k) - CalculateFunc(x, y)
         == h * CalculateGradient(x, y).x + k * CalculateGradient(x, y).y
    ensures CalculateGradient(x + h, y + k) == CalculateGradient(x, y)
  {
  }
}
