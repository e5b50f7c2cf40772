# Fixed-step gradient descent over three test functions

This project models the computational core of a small desktop application.
The application animates fixed-step gradient descent on closed-form test
functions. The model covers three parts:

- **The test functions.** These are the quadratic `SimplexFunction1`, the
  Beale function and the linear `Test` function. Each has a value and an
  analytic gradient, written as exact functions over `real`. Beale's value
  clamps `y^3` into `[-1e5, 1e5]` in its third term. Its gradient never
  clamps.
- **The strategy object.** Its one piece of state is the current function.
  The constructor sets it, `set_func` replaces it, and `calculate_func` and
  `calculate_gradient` dispatch to it. The current function is the closed
  datatype `Functions.Func = Beale | Quadratic | Linear`.
- **The `optimize` loop.** It starts the path with a copy of the initial
  point. Then it runs at most `max_iters` passes. Each pass takes the
  gradient at the working point, moves the point in place by `-lr` times that
  gradient, appends a copy, and breaks when the gradient's norm is below the
  tolerance.

The loop is `Strategies.OptimizationStrategy.Optimize`, a `while` loop over a
fresh two-element working array. It is proved equal to the recursive
specification `Descent.Path`. `Descent.PathCharacterized` shows that `Path`
is the one sequence that meets the loop's point-by-point promises
(`Descent.IsDescentPath`):

- it starts at the initial point;
- each point is the previous one moved by `-lr` times the gradient there;
- no earlier gradient passed the norm test;
- a path shorter than `max_iters + 1` stopped because of the gradient at its
  second-to-last point.

The norm test `np.linalg.norm(g) < tol` is modelled by `Vectors.Below`, which
is `tol > 0 && gx^2 + gy^2 < tol^2`. `Vectors.BelowMatchesNorm` shows this
agrees with comparing the true norm.

`GradientDescentStrategy` and `SimplexStrategy` are two subclasses. Their
`optimize` and `calculate_gradient` bodies are the same text
(OptimizationStrategy/GradientDescentStrategy.py:11-23 and
MethodsStrategy/SimplexStrategy.py:11-23), and they differ only in the
function their constructor passes to the base class. So they are modelled as
the two named constructors of one class, `OptimizationStrategy`, which shares
one `Optimize` and one `CalculateGradient`. The same current function and
arguments therefore give the same path under both.

Three facts about the test functions, as the code has them:

- **The quadratic's stationary point.** The gradient of `SimplexFunction1`,
  `(4x + 4y - 6, 4x + 6y - 3)`, vanishes at (3, -1.5) and nowhere else. There
  the value is -6.75, its least value (`SimplexFunction1.CalculateGradient`,
  `SimplexFunction1.CalculateFunc`).
- **Beale's clamp.** The code clamps only the cube in the third term; the
  first two terms still use the raw `y` and `y^2`. So where `y^3` exceeds
  `1e5` the value is the formula with `1e5` in place of `y^3` in that one
  term (`BealeFunction.ValueClamped`), which in general is not the value at
  the `y` whose cube is `1e5`. The gradient keeps the raw cube. There the
  value's x-partial is `G`, the x-component built with `1e5` in place of
  `y^3` (`BealeFunction.ClampedPartialX`). `df_dx - G` is
  `2 (y^3 - 1e5) (x (y^3 + 1e5 - 2) + 2.625)` at every point
  (`BealeFunction.GradientClampGap`). So where the clamp bites, `df_dx`
  matches the value's x-partial only on the curve
  `x (y^3 + 1e5 - 2) = -2.625`, and differs everywhere else, for example at
  (0, 100) (`BealeFunction.GradientIgnoresClamp`).
- **The `Test` function's docstring.** It repeats Beale's: it calls the
  class the Beale function, with a global minimum at (3, 0.5)
  (TestFunctions/Test.py:5-7). The code computes `x + y`, which has no
  minimum, so that documented property does not hold, and nothing is proved
  about it. The model follows the code.

## Model

| member | source | states |
|---|---|---|
| `Vectors.SquaredNorm` | OptimizationStrategy/GradientDescentStrategy.py:18 | the squared norm is never negative, and it is zero exactly for the zero vector |
| `Vectors.BelowMatchesNorm` | OptimizationStrategy/GradientDescentStrategy.py:18 | for n >= 0 with n^2 equal to the squared norm, the square-free test Below(g, tol) holds exactly when n < tol, in both directions |
| `SimplexFunction1.PartialX` | TestFunctions/SimplexFunction1.py:13-18 | f(x + h, y) - f(x, y) = h (4x + 4y - 6) + 2h^2 exactly, so the first gradient component is the x-partial |
| `SimplexFunction1.PartialY` | TestFunctions/SimplexFunction1.py:13-18 | f(x, y + k) - f(x, y) = k (4x + 6y - 3) + 3k^2 exactly, so the second gradient component is the y-partial |
| `SimplexFunction1.CalculateFunc` | TestFunctions/SimplexFunction1.py:13-14 | the value is never below -6.75, and equals -6.75 exactly at (3, -1.5) |
| `SimplexFunction1.CalculateGradient` | TestFunctions/SimplexFunction1.py:17-18 | the gradient is (0, 0) exactly at (3, -1.5), in both directions |
| `BealeFunction.Clip` | TestFunctions/BealeFunction.py:15 | the clipped cube lies in [-1e5, 1e5]; it is the cube itself inside the range, 1e5 above it and -1e5 below it |
| `BealeFunction.CalculateFunc` | TestFunctions/BealeFunction.py:13-19 | the value, a sum of three squares, is never negative, clamped or not |
| `BealeFunction.ValueInRange` | TestFunctions/BealeFunction.py:15-19 | when -1e5 <= y^3 <= 1e5 the value equals the unclamped three-term formula |
| `BealeFunction.ValueClamped` | TestFunctions/BealeFunction.py:15-19 | when y^3 > 1e5 the value is the formula with 1e5 in place of y^3 in the third term; when y^3 < -1e5, with -1e5 |
| `BealeFunction.GradientAtMinimum` | TestFunctions/BealeFunction.py:21-35 | both components of the gradient are 0 at the documented minimum (3, 0.5) |
| `BealeFunction.MinimumAt` | TestFunctions/BealeFunction.py:5-19 | the value is 0 at the documented minimum (3, 0.5), and no value is below it |
| `BealeFunction.PartialX` | TestFunctions/BealeFunction.py:14-27 | f_u(x + h, y) - f_u(x, y) = h df_dx + h^2 ((y - 1)^2 + (y^2 - 1)^2 + (y^3 - 1)^2) exactly, where f_u is the unclamped formula, at every y |
| `BealeFunction.ClampedPartialX` | TestFunctions/BealeFunction.py:15-27 | where y^3 > 1e5, f(x + h, y) - f(x, y) = h G + h^2 ((y - 1)^2 + (y^2 - 1)^2 + (1e5 - 1)^2) exactly, where f is the clamped value and G is df_dx with 1e5 in place of y^3 |
| `BealeFunction.GradientClampGap` | TestFunctions/BealeFunction.py:15-27 | at every point, df_dx minus the clamped value's x-partial G (G uses 1e5 in place of y^3) is 2 (y^3 - 1e5) (x (y^3 + 1e5 - 2) + 2.625); so above the clamp the gap is zero only on the curve x (y^3 + 1e5 - 2) = -2.625 |
| `BealeFunction.GradientIgnoresClamp` | TestFunctions/BealeFunction.py:15-27 | at (0, 100), where y^3 = 1e6 is clamped, df_dx differs from the x-partial G of the clamped value, because df_dx uses the raw cube |
| `Test.CalculateGradient` | TestFunctions/Test.py:17-19 | the gradient (1, 1) has squared norm 2 at every point |
| `Test.GradientAgrees` | TestFunctions/Test.py:13-19 | f(x + h, y + k) - f(x, y) = h + k, the gradient's inner product with (h, k), and the gradient is the same at every point |
| `Descent.Steps` | OptimizationStrategy/GradientDescentStrategy.py:14-19 | n passes append no point when n <= 0, and between 1 and n points otherwise |
| `Descent.Path` | MethodsStrategy/SimplexStrategy.py:11-20 | the path starts with the initial point and has between 1 and max_iters + 1 points; the same specification serves both strategies |
| `Descent.StepsCharacterized` | OptimizationStrategy/GradientDescentStrategy.py:14-19 | the points after the start are the one continuation meeting IsDescentPath, in both directions |
| `Descent.PathCharacterized` | OptimizationStrategy/GradientDescentStrategy.py:12-19 | a sequence meets IsDescentPath exactly when it is Path: path[0] is the start, path[i + 1] = path[i] - lr grad(path[i]), no gradient before the second-to-last point passed the norm test, and a path shorter than max_iters + 1 ended because the gradient at the second-to-last point did |
| `Descent.ZeroIterations` | OptimizationStrategy/GradientDescentStrategy.py:12-14 | with max_iters <= 0 the path is the initial point alone |
| `Descent.NonPositiveToleranceRunsToCap` | OptimizationStrategy/GradientDescentStrategy.py:14-19 | with tol <= 0 the loop never breaks, so the path has max_iters + 1 points |
| `Descent.LinearPath` | TestFunctions/Test.py:17-19 | with the linear function the loop stops after one pass exactly when tol > 0 and 2 < tol^2 (given max_iters >= 1); otherwise the path has max_iters + 1 points and path[i] is the start moved by i lr in both coordinates |
| `Strategies.OptimizationStrategy.constructor` | OptimizationStrategy/OptimizationStrategy.py:6-7 | the current function is the one given |
| `Strategies.OptimizationStrategy.GradientDescentStrategy` | OptimizationStrategy/GradientDescentStrategy.py:8-9 | a gradient-descent strategy starts with the Beale function |
| `Strategies.OptimizationStrategy.SimplexStrategy` | MethodsStrategy/SimplexStrategy.py:8-9 | a simplex strategy starts with SimplexFunction1 |
| `Strategies.OptimizationStrategy.SetFunc` | OptimizationStrategy/OptimizationStrategy.py:9-10 | the current function becomes the given one, whatever it was, and the method modifies nothing but the strategy; so the last call wins and repeating a call changes nothing |
| `Strategies.OptimizationStrategy.CalculateFunc` | OptimizationStrategy/OptimizationStrategy.py:12-13 | the value is that of the current function: Beale's (never negative), the quadratic's, or x + y; it only reads the strategy |
| `Strategies.OptimizationStrategy.CalculateGradient` | OptimizationStrategy/GradientDescentStrategy.py:22-23 | the gradient is that of the current function: Beale's, (4x + 4y - 6, 4x + 6y - 3), or (1, 1); SimplexStrategy.py:22-23 is the same delegate |
| `Strategies.OptimizationStrategy.Optimize` | OptimizationStrategy/GradientDescentStrategy.py:11-20 | the returned path is Descent.Path for the current function and the initial point, and so meets IsDescentPath; the method has no modifies clause, so the caller's array is left unchanged |

## Left out

- The GUI, the plotting, the background worker and the text-to-number parsing. These are Qt widgets, matplotlib calls, thread-pool plumbing and thin wrappers over `float()`.
- Floating point. Scalars are mathematical reals, so there is no rounding, no overflow to infinity and no NaN. In particular, the guard that Beale's clamp exists for (overflow of `y ** 3`) has no effect on reals; only its effect on the value is modelled.
- The square root in `np.linalg.norm`. `Vectors.Below` compares squares instead, and `Vectors.BelowMatchesNorm` shows the two tests agree.
- `**kwargs` of `optimize`. The loop never reads them.
- Arbitrary function objects passed as `func_class`. The model restricts the current function to the three test functions of the repository.
- The abstract base class. Python refuses to instantiate `OptimizationStrategy` itself, because `optimize` is abstract; the model's unnamed constructor stands for the base-class initialiser that both subclasses call.
- The class of a strategy object. A gradient-descent strategy and a simplex strategy are one Dafny class here, so an `isinstance` test on the strategy, as the GUI makes, has nothing to test.
- MethodsStrategy/OptimizationStrategy.py is not part of this model. SimplexStrategy's base class is taken to be the same as OptimizationStrategy/OptimizationStrategy.py.
- Strategies.OptimizationStrategy.Optimize: requires a two-element initial point. The source fails with a `TypeError` for another length as soon as a pass unpacks the point, and for a non-integer `max_iters` in `range`; the model's `maxIters` is an `int`. The numpy dtype of the point (an integer array cannot take the in-place float update) is not modelled.
- BealeFunction.CalculateGradient: its y-component `df_dy` is modelled term by term, but no lemma proves it is the exact y-partial of the unclamped formula, as `BealeFunction.PartialX` does for `df_dx`.
- Evaluation over arrays. The GUI calls `calculate_func` on 40 x 40 meshgrid arrays to draw the surface, which numpy evaluates elementwise; the model's functions take one scalar pair, and each grid cell is one such call.
- Convergence. The code promises no rate and no arrival at a minimum within a number of steps, so nothing of the kind is stated.
