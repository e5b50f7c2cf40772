/** The Beale function
      f(x, y) = (1.5 - x + xy)^2 + (2.25 - x + xy^2)^2 + (2.625 - x + xy^3)^2
    (class BealeFunction), whose global minimum is 0 at (3, 0.5).

    The value clamps the cube y^3 into [-1e5, 1e5] before using it in the
    third term; the gradient does not clamp and is the derivative of the
    unclamped formula. The asymmetry is kept as the code has it. */
module BealeFunction {
  import opened Vectors

  /** The bound of the clamp applied to y^3 in the value. */
  const CubeBound: real := 100000.0

  /** a ** 2 */
  function Square(a: real): (r: real)
    ensures r >= 0.0
  {
    a * a
  }

  /** y ** 3 */
  function Cube(y: real): real
  {
    y * y * y
  }

  /** Clamping into [-CubeBound, CubeBound], as numpy's clip does. */
  function Clip(v: real): (r: real)
    ensures -CubeBound <= r <= CubeBound
    ensures -CubeBound <= v <= CubeBound ==> r == v
    ensures v > CubeBound ==> r == CubeBound
    ensures v < -CubeBound ==> r == -CubeBound
  {
    if v < -CubeBound then -CubeBound
    else if v > CubeBound then CubeBound
    else v
  }

  /** The value, with the cube clamped in the third term only. It is a sum
      of three squares, so it is never negative, clamped or not. */
  function CalculateFunc(x: real, y: real): (r: real)
    ensures r >= 0.0
  {
    var y3Clipped := Clip(Cube(y));
    var term1 := Square(1.5 - x + x * y);
    var term2 := Square(2.25 - x + x * Square(y));
    var term3 := Square(2.625 - x + x * y3Clipped);
    term1 + term2 + term3
  }

  /** The gradient, computed from the raw cube. */
  function CalculateGradient(x: real, y: real): Vec
  {
    var dfDx :=
      2.0 * (1.5 - x + x * y) * (y - 1.0) +
      2.0 * (2.25 - x + x * Square(y)) * (Square(y) - 1.0) +
      2.0 * (2.625 - x + x * Cube(y)) * (Cube(y) - 1.0);
    var dfDy :=
      2.0 * (1.5 - x + x * y) * x +
      2.0 * (2.25 - x + x * Square(y)) * (2.0 * x * y) +
      2.0 * (2.625 - x + x * Cube(y)) * (3.0 * x * Square(y));
    Vec(dfDx, dfDy)
  }

  // ---------------------------------------------------------------------
  // The three-term formula with the powers of y given as separate values.
  // Keeping the powers abstract keeps the algebra below small.

  /** The three-term sum with y, y^2, y^3 given as p1, p2, p3. */
  function Formula(x: real, p1: real, p2: real, p3: real): real
  {
    Square(1.5 - x + x * p1) + Square(2.25 - x + x * p2) + Square(2.625 - x + x * p3)
  }

  /** The Beale formula with no clamp: the expression the gradient differentiates. */
  function Unclamped(x: real, y: real): real
  {
    Formula(x, y, Square(y), Cube(y))
  }

  /** The x-component of the gradient with the powers of y given as p1, p2, p3. */
  function PowerGradX(x: real, p1: real, p2: real, p3: real): real
  {
    2.0 * (1.5 - x + x * p1) * (p1 - 1.0) +
    2.0 * (2.25 - x + x * p2) * (p2 - 1.0) +
    2.0 * (2.625 - x + x * p3) * (p3 - 1.0)
  }

  /** The x-component of the gradient at (x, y), with the powers of y named. */
  lemma GradientPowers(x: real, y: real)
    ensures CalculateGradient(x, y).x == PowerGradX(x, y, Square(y), Cube(y))
  {
  }

  // ---------------------------------------------------------------------
  // The clamp.

  /** The value is the three-term formula with the clamped cube in the third term. */
  lemma ValueTerms(x: real, y: real)
    ensures CalculateFunc(x, y) == Formula(x, y, Square(y), Clip(Cube(y)))
  {
  }

  /** Where the clamp does not bite, the value is the unclamped formula. */
  lemma ValueInRange(x: real, y: real)
    requires -CubeBound <= Cube(y) <= CubeBound
    ensures CalculateFunc(x, y) == Unclamped(x, y)
  {
    ValueTerms(x, y);
  }

  /** Above the clamp, the third term is built from the bound 1e5; below it,
      from -1e5. The first two terms still use the raw y, so the value is in
      general not the value at the y whose cube is the bound. */
  lemma ValueClamped(x: real, y: real)
    ensures Cube(y) > CubeBound ==> CalculateFunc(x, y) == Formula(x, y, Square(y), CubeBound)
    ensures Cube(y) < -CubeBound ==> CalculateFunc(x, y) == Formula(x, y, Square(y), -CubeBound)
  {
    ValueTerms(x, y);
  }

  // ---------------------------------------------------------------------
  // The documented minimum.

  /** Value 0 at (3, 0.5), where all three bases vanish; no value is
      below it, so it is a global minimum. */
  lemma MinimumAt(x: real, y: real)
    ensures CalculateFunc(3.0, 0.5) == 0.0
    ensures CalculateFunc(x, y) >= CalculateFunc(3.0, 0.5)
  {
    assert Square(0.5) == 0.25 && Cube(0.5) == 0.125;
    assert Clip(Cube(0.5)) == 0.125;
    assert 1.5 - 3.0 + 3.0 * 0.5 == 0.0;
    assert 2.25 - 3.0 + 3.0 * 0.25 == 0.0;
    assert 2.625 - 3.0 + 3.0 * 0.125 == 0.0;
  }

  /** The gradient is (0, 0) at the documented minimum (3, 0.5): every
      term of both components has one of the three vanishing bases as a factor. */
  lemma GradientAtMinimum()
    ensures CalculateGradient(3.0, 0.5) == Vec(0.0, 0.0)
  {
    assert Square(0.5) == 0.25 && Cube(0.5) == 0.125;
  }

  // ---------------------------------------------------------------------
  // The gradient is the exact derivative of the unclamped formula.

  /** The change of a square when its base moves by d. */
  lemma SquareShift(u: real, d: real)
    ensures Square(u + d) - Square(u) == d * (2.0 * u + d)
  {
  }

  /** Summing three expansions t_i' - t_i = h g_i + h^2 s_i. */
  lemma Assemble(h: real, a1: real, b1: real, a2: real, b2: real, a3: real, b3: real,
                 g1: real, g2: real, g3: real, s1: real, s2: real, s3: real)
    requires a1 - b1 == h * g1 + h * h * s1
    requires a2 - b2 == h * g2 + h * h * s2
    requires a3 - b3 == h * g3 + h * h * s3
    ensures (a1 + a2 + a3) - (b1 + b2 + b3) == h * (g1 + g2 + g3) + h * h * (s1 + s2 + s3)
  {
  }

  /** One term (a - x + x p)^2 as x moves by h. */
  lemma TermShiftX(a: real, x: real, p: real, h: real)
    ensures Square(a - (x + h) + (x + h) * p) - Square(a - x + x * p)
         == h * (2.0 * (a - x + x * p) * (p - 1.0)) + h * h * Square(p - 1.0)
  {
    var u, d := a - x + x * p, h * (p - 1.0);
    assert a - (x + h) + (x + h) * p == u + d;
    SquareShift(u, d);
    assert d * (2.0 * u + d) == h * (2.0 * u * (p - 1.0)) + h * h * ((p - 1.0) * (p - 1.0));
  }

  lemma PowerPartialX(x: real, h: real, p1: real, p2: real, p3: real)
    ensures Formula(x + h, p1, p2, p3) - Formula(x, p1, p2, p3)
         == h * PowerGradX(x, p1, p2, p3)
          + h * h * (Square(p1 - 1.0) + Square(p2 - 1.0) + Square(p3 - 1.0))
  {
    TermShiftX(1.5, x, p1, h);
    TermShiftX(2.25, x, p2, h);
    TermShiftX(2.625, x, p3, h);
    Assemble(h, Square(1.5 - (x + h) + (x + h) * p1), Square(1.5 - x + x * p1),
      Square(2.25 - (x + h) + (x + h) * p2), Square(2.25 - x + x * p2),
      Square(2.625 - (x + h) + (x + h) * p3), Square(2.625 - x + x * p3),
      2.0 * (1.5 - x + x * p1) * (p1 - 1.0),
      2.0 * (2.25 - x + x * p2) * (p2 - 1.0),
      2.0 * (2.625 - x + x * p3) * (p3 - 1.0),
      Square(p1 - 1.0), Square(p2 - 1.0), Square(p3 - 1.0));
  }

  /** The first gradient component is the exact x-partial of the unclamped
      formula, at every y, including those where the value is clamped:
      f(x + h, y) - f(x, y) = h df_dx + h^2 ((y - 1)^2 + (y^2 - 1)^2 + (y^3 - 1)^2). */
  lemma PartialX(x: real, y: real, h: real)
    ensures Unclamped(x + h, y) - Unclamped(x, y)
         == h * CalculateGradient(x, y).x
          + h * h * (Square(y - 1.0) + Square(Square(y) - 1.0) + Square(Cube(y) - 1.0))
  {
    var p2, p3 := Square(y), Cube(y);
    PowerPartialX(x, h, y, p2, p3);
    GradientPowers(x, y);
    assert Unclamped(x + h, y) == Formula(x + h, y, p2, p3);
    assert Unclamped(x, y) == Formula(x, y, p2, p3);
  }

  // ---------------------------------------------------------------------
  // Where the clamp bites, the gradient is not the derivative of the value.

  /** The x-difference of the value wherever its third term is built from a
      fixed b in place of y^3. */
  lemma BoundPartialX(x: real, y: real, h: real, b: real)
    requires CalculateFunc(x + h, y) == Formula(x + h, y, Square(y), b)
    requires CalculateFunc(x, y) == Formula(x, y, Square(y), b)
    ensures CalculateFunc(x + h, y) - CalculateFunc(x, y)
         == h * PowerGradX(x, y, Square(y), b)
          + h * h * (Square(y - 1.0) + Square(Square(y) - 1.0) + Square(b - 1.0))
  {
    PowerPartialX(x, h, y, Square(y), b);
  }

  /** Where y^3 > 1e5 the value's exact x-partial is taken with 1e5 in place
      of y^3: f(x + h, y) - f(x, y) = h G + h^2 ((y - 1)^2 + (y^2 - 1)^2 + (1e5 - 1)^2),
      with G the x-component built from the clamped cube. */
  lemma ClampedPartialX(x: real, y: real, h: real)
    requires Cube(y) > CubeBound
    ensures CalculateFunc(x + h, y) - CalculateFunc(x, y)
         == h * PowerGradX(x, y, Square(y), CubeBound)
          + h * h * (Square(y - 1.0) + Square(Square(y) - 1.0) + Square(CubeBound - 1.0))
  {
    ValueClamped(x, y);
    ValueClamped(x + h, y);
    BoundPartialX(x, y, h, CubeBound);
  }

  /** The third term's x-derivative with cube c, less the one with cube b. */
  lemma ThirdGap(x: real, c: real, b: real)
    ensures 2.0 * (2.625 - x + x * c) * (c - 1.0) - 2.0 * (2.625 - x + x * b) * (b - 1.0)
         == 2.0 * (c - b) * (x * (c + b - 2.0) + 2.625)
  {
  }

  /** The gap between df_dx and the clamped value's x-partial G, at every
      point: 2 (y^3 - 1e5) (x (y^3 + 1e5 - 2) + 2.625). Where y^3 > 1e5 it
      vanishes only on the curve x (y^3 + 1e5 - 2) = -2.625. */
  lemma GradientClampGap(x: real, y: real)
    ensures CalculateGradient(x, y).x - PowerGradX(x, y, Square(y), CubeBound)
         == 2.0 * (Cube(y) - CubeBound) * (x * (Cube(y) + CubeBound - 2.0) + 2.625)
  {
    GradientPowers(x, y);
    ThirdGap(x, Cube(y), CubeBound);
  }

  /** At (0, 100), where y^3 = 1e6 is clamped, df_dx differs from the
      x-partial of the value that ClampedPartialX gives: the gradient keeps
      the raw cube, so it is not the derivative of the clamped value. */
  lemma GradientIgnoresClamp()
    ensures Cube(100.0) > CubeBound
    ensures CalculateGradient(0.0, 100.0).x != PowerGradX(0.0, 100.0, Square(100.0), CubeBound)
  {
    assert Square(100.0) == 10000.0 && Cube(100.0) == 1000000.0;
    GradientPowers(0.0, 100.0);
  }
}
