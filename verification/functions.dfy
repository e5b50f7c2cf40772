/** The test functions a strategy can hold, as a closed set, and the
    dispatch from the held function to its value and gradient. */
module Functions {
  import opened Vectors
  import BealeFunction
  import SimplexFunction1
  import Test

  /** The function classes: BealeFunction, SimplexFunction1 and Test. */
  datatype Func = Beale | Quadratic | Linear

  /** The value of f at (x, y). */
  function Value(f: Func, x: real, y: real): real
  {
    match f
    case Beale => BealeFunction.CalculateFunc(x, y)
    case Quadratic => SimplexFunction1.CalculateFunc(x, y)
    case Linear => Test.CalculateFunc(x, y)
  }

  /** The gradient of f at (x, y). */
  function Gradient(f: Func, x: real, y: real): Vec
  {
    match f
    case Beale => BealeFunction.CalculateGradient(x, y)
    case Quadratic => SimplexFunction1.CalculateGradient(x, y)
    case Linear => Test.CalculateGradient(x, y)
  }

  /** The gradient at a point. */
  function GradientAt(f: Func, p: Vec): Vec
  {
    Gradient(f, p.x, p.y)
  }
}
