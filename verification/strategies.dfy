/** The optimisation strategies: an object holding the current test
    function, which can be replaced, with the value and gradient of that
    function and the fixed-step gradient-descent loop. */
module Strategies {
  import opened Vectors
  import opened Functions
  import BealeFunction
  import SimplexFunction1
  import Test
  import Descent

  /** A strategy and its one piece of state, the current function.
      GradientDescentStrategy and SimplexStrategy are the two named
      constructors: they differ only in the function they start with, and
      their optimize loops are the same loop, Optimize. */
  class OptimizationStrategy {
    var currentFunc: Func

    /** OptimizationStrategy(func_class) */
    constructor (funcClass: Func)
      ensures currentFunc == funcClass
    {
      currentFunc := funcClass;
    }

    /** GradientDescentStrategy(): starts with the Beale function. */
    constructor GradientDescentStrategy()
      ensures currentFunc == Beale
    {
      currentFunc := Beale;
    }

    /** SimplexStrategy(): starts with the quadratic SimplexFunction1. */
    constructor SimplexStrategy()
      ensures currentFunc == Quadratic
    {
      currentFunc := Quadratic;
    }

    /** set_func: replaces the current function, whatever it was; nothing
        else of the strategy changes. */
    method SetFunc(funcClass: Func)
      modifies this
      ensures currentFunc == funcClass
    {
      currentFunc := funcClass;
    }

    /** calculate_func: the value of the current function. */
    function CalculateFunc(x: real, y: real): (r: real)
      reads this
      ensures currentFunc == Beale ==> r == BealeFunction.CalculateFunc(x, y) && r >= 0.0
      ensures currentFunc == Quadratic ==> r == SimplexFunction1.CalculateFunc(x, y)
      ensures currentFunc == Linear ==> r == x + y
    {
      Value(currentFunc, x, y)
    }

    /** calculate_gradient: the gradient of the current function. */
    function CalculateGradient(x: real, y: real): (g: Vec)
      reads this
      ensures currentFunc == Beale ==> g == BealeFunction.CalculateGradient(x, y)
      ensures currentFunc == Quadratic ==> g == Vec(4.0 * x + 4.0 * y - 6.0, 4.0 * x + 6.0 * y - 3.0)
      ensures currentFunc == Linear ==> g == Vec(1.0, 1.0)
    {
      Gradient(currentFunc, x, y)
    }

    /** optimize: starting from a copy of the two-element initial point, run
        at most max_iters passes; each takes the gradient at the working
        point, moves the working point by -lr times it, appends a copy, and
        stops the loop when the gradient's norm is below the tolerance. The
        caller's array is only read. The result is Descent.Path, which
        Descent.PathCharacterized shows is the one sequence meeting the
        loop's point-by-point promises. */
    method Optimize(initialPoint: array<real>, lr: real, maxIters: int, tolerance: real)
      returns (path: seq<Vec>)
      requires initialPoint.Length == 2
      ensures path == Descent.Path(currentFunc, Vec(initialPoint[0], initialPoint[1]), lr, maxIters, tolerance)
      ensures Descent.IsDescentPath(currentFunc, Vec(initialPoint[0], initialPoint[1]), lr, maxIters, tolerance, path)
    {
      var start := Vec(initialPoint[0], initialPoint[1]);
      path := [start];
      var currentPoint := new real[2];
      currentPoint[0], currentPoint[1] := initialPoint[0], initialPoint[1];
      var i := 0;
      while i < maxIters
        invariant path + Descent.Steps(currentFunc, Vec(currentPoint[0], currentPoint[1]), lr, maxIters - i, tolerance)
               == Descent.Path(currentFunc, start, lr, maxIters, tolerance)
        decreases maxIters - i
      {
        ghost var before := Vec(currentPoint[0], currentPoint[1]);
        var gradient := CalculateGradient(currentPoint[0], currentPoint[1]);
        // move the working point in place
        var moved := Step(Vec(currentPoint[0], currentPoint[1]), lr, gradient);
        currentPoint[0], currentPoint[1] := moved.x, moved.y;
        assert gradient == GradientAt(currentFunc, before);
        Descent.StepsUnfold(currentFunc, before, lr, maxIters - i, tolerance, path);
        // append a copy of it
        path := path + [Vec(currentPoint[0], currentPoint[1])];
        if Below(gradient, tolerance) {
          break;
        }
        i := i + 1;
      }
      Descent.PathCharacterized(currentFunc, start, lr, maxIters, tolerance, path);
    }
  }
}
