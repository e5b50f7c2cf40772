/** The path that fixed-step gradient descent produces: a copy of the start
    point, then one point per pass of the loop, each the previous point moved
    by -lr times the gradient there, stopping after the pass whose gradient
    norm is below the tolerance, or after max_iters passes. */
module Descent {
  import opened Vectors
  import opened Functions

  /** The number of passes `range(max_iters)` allows: none for a count
      below one. */
  function IterationCap(maxIters: int): nat
  {
    if maxIters < 0 then 0 else maxIters
  }

  /** The points appended by at most n passes of the loop started at p. */
  function Steps(f: Func, p: Vec, lr: real, n: int, tol: real): (r: seq<Vec>)
    ensures n <= 0 ==> r == []
    ensures n > 0 ==> 1 <= |r| <= n
    decreases n
  {
    if n <= 0 then []
    else
      var g := GradientAt(f, p);
      var q := Step(p, lr, g);
      if Below(g, tol) then [q] else [q] + Steps(f, q, lr, n - 1, tol)
  }

  /** The whole path returned by `optimize`: the start point, then the steps. */
  function Path(f: Func, p0: Vec, lr: real, maxIters: int, tol: real): (path: seq<Vec>)
    ensures 1 <= |path| <= IterationCap(maxIters) + 1
    ensures path[0] == p0
  {
    [p0] + Steps(f, p0, lr, maxIters, tol)
  }

  /** One pass of the loop: the steps from p with n >= 1 passes left are
      the moved point, followed, unless p's gradient stopped the loop, by
      the steps from the moved point with one pass fewer. */
  lemma StepsUnfold(f: Func, p: Vec, lr: real, n: int, tol: real, prefix: seq<Vec>)
    requires n > 0
    ensures var q := Step(p, lr, GradientAt(f, p));
      prefix + Steps(f, p, lr, n, tol)
      == if Below(GradientAt(f, p), tol) then prefix + [q]
         else (prefix + [q]) + Steps(f, q, lr, n - 1, tol)
  {
    var q := Step(p, lr, GradientAt(f, p));
    assert (prefix + [q]) + Steps(f, q, lr, n - 1, tol) == prefix + ([q] + Steps(f, q, lr, n - 1, tol));
  }

  /** What the loop promises about its result, point by point: it starts at
      p0; each point is the previous one moved by -lr times the gradient
      there; no gradient before the second-to-last point passed the norm
      test; and a path shorter than max_iters + 1 ended because the gradient
      at its second-to-last point passed it. */
  predicate IsDescentPath(f: Func, p0: Vec, lr: real, maxIters: int, tol: real, q: seq<Vec>)
  {
    && 1 <= |q| <= IterationCap(maxIters) + 1
    && q[0] == p0
    && (forall i :: 0 <= i < |q| - 1 ==> q[i + 1] == Step(q[i], lr, GradientAt(f, q[i])))
    && (forall i :: 0 <= i < |q| - 2 ==> !Below(GradientAt(f, q[i]), tol))
    && (|q| < IterationCap(maxIters) + 1 ==> |q| >= 2 && Below(GradientAt(f, q[|q| - 2]), tol))
  }

  /** Removing the first point of a path whose first gradient does not stop
      the loop leaves a path from the second point with one pass fewer. */
  lemma DropFirst(f: Func, p: Vec, lr: real, n: int, tol: real, r: seq<Vec>)
    requires n > 0 && !Below(GradientAt(f, p), tol)
    requires IsDescentPath(f, p, lr, n, tol, [p] + r)
    ensures |r| >= 1 && r[0] == Step(p, lr, GradientAt(f, p))
    ensures IsDescentPath(f, r[0], lr, n - 1, tol, r)
  {
    var q := [p] + r;
    assert |r| >= 1 && q[1] == r[0];
    forall i | 0 <= i < |r| - 1
      ensures r[i + 1] == Step(r[i], lr, GradientAt(f, r[i]))
    {
      assert q[i + 1] == r[i] && q[i + 2] == r[i + 1];
    }
    forall i | 0 <= i < |r| - 2
      ensures !Below(GradientAt(f, r[i]), tol)
    {
      assert q[i + 1] == r[i];
    }
    if |r| < IterationCap(n - 1) + 1 {
      assert q[|q| - 2] == r[|r| - 2];
    }
  }

  /** Conversely, putting p in front of a path from Step(p) with one pass
      fewer gives a path from p, when p's gradient does not stop the loop. */
  lemma AddFirst(f: Func, p: Vec, lr: real, n: int, tol: real, r: seq<Vec>)
    requires n > 0 && !Below(GradientAt(f, p), tol)
    requires |r| >= 1 && r[0] == Step(p, lr, GradientAt(f, p))
    requires IsDescentPath(f, r[0], lr, n - 1, tol, r)
    ensures IsDescentPath(f, p, lr, n, tol, [p] + r)
  {
    var q := [p] + r;
    forall i | 0 <= i < |q| - 1
      ensures q[i + 1] == Step(q[i], lr, GradientAt(f, q[i]))
    {
      if i > 0 {
        assert q[i] == r[i - 1] && q[i + 1] == r[i];
      }
    }
    forall i | 0 <= i < |q| - 2
      ensures !Below(GradientAt(f, q[i]), tol)
    {
      if i > 0 {
        assert q[i] == r[i - 1];
      }
    }
    if |q| < IterationCap(n) + 1 {
      assert |r| >= 2;
      assert q[|q| - 2] == r[|r| - 2];
    }
  }

  /** The steps from p are the one and only continuation of [p] that
      satisfies IsDescentPath. */
  lemma {:induction false} StepsCharacterized(f: Func, p: Vec, lr: real, n: int, tol: real, r: seq<Vec>)
    ensures IsDescentPath(f, p, lr, n, tol, [p] + r) <==> r == Steps(f, p, lr, n, tol)
    decreases n
  {
    var q := [p] + r;
    var g := GradientAt(f, p);
    if n <= 0 {
      assert IterationCap(n) == 0;
    } else if Below(g, tol) {
      var q1 := Step(p, lr, g);
      if IsDescentPath(f, p, lr, n, tol, q) {
        assert |q| >= 2;
        assert q[1] == q1;
        if |q| > 2 {
          assert false;
        }
        assert r == [q1];
      }
      if r == [q1] {
        assert q == [p, q1];
        assert IsDescentPath(f, p, lr, n, tol, q);
      }
    } else {
      var q1 := Step(p, lr, g);
      var rest := Steps(f, q1, lr, n - 1, tol);
      if IsDescentPath(f, p, lr, n, tol, q) {
        DropFirst(f, p, lr, n, tol, r);
        StepsCharacterized(f, q1, lr, n - 1, tol, r[1..]);
        assert [q1] + r[1..] == r;
      }
      if r == Steps(f, p, lr, n, tol) {
        assert r == [q1] + rest;
        StepsCharacterized(f, q1, lr, n - 1, tol, rest);
        AddFirst(f, p, lr, n, tol, r);
      }
    }
  }

  /** A sequence satisfies IsDescentPath exactly when it is Path: the loop's
      result is fully determined by its promises. */
  lemma PathCharacterized(f: Func, p0: Vec, lr: real, maxIters: int, tol: real, q: seq<Vec>)
    ensures IsDescentPath(f, p0, lr, maxIters, tol, q) <==> q == Path(f, p0, lr, maxIters, tol)
  {
    if |q| >= 1 && q[0] == p0 {
      StepsCharacterized(f, p0, lr, maxIters, tol, q[1..]);
      assert q == [p0] + q[1..];
    } else {
      StepsCharacterized(f, p0, lr, maxIters, tol, Steps(f, p0, lr, maxIters, tol));
    }
  }

  /** With max_iters <= 0 the loop body never runs: the path is the start
      point alone. */
  lemma ZeroIterations(f: Func, p0: Vec, lr: real, maxIters: int, tol: real)
    requires maxIters <= 0
    ensures Path(f, p0, lr, maxIters, tol) == [p0]
  {
  }

  /** With tol <= 0 no norm is below it, so every pass runs. */
  lemma {:induction false} StepsRunToCap(f: Func, p: Vec, lr: real, n: int, tol: real)
    requires tol <= 0.0
    ensures |Steps(f, p, lr, n, tol)| == IterationCap(n)
    decreases n
  {
    if n > 0 {
      StepsRunToCap(f, Step(p, lr, GradientAt(f, p)), lr, n - 1, tol);
    }
  }

  /** With tol <= 0 the path has max_iters + 1 points. */
  lemma NonPositiveToleranceRunsToCap(f: Func, p0: Vec, lr: real, maxIters: int, tol: real)
    requires tol <= 0.0
    ensures |Path(f, p0, lr, maxIters, tol)| == IterationCap(maxIters) + 1
  {
    StepsRunToCap(f, p0, lr, maxIters, tol);
  }

  /** The point reached from p by j steps of (-lr, -lr). */
  function LinearPoint(p: Vec, lr: real, j: nat): Vec
  {
    Vec(p.x - (j as real) * lr, p.y - (j as real) * lr)
  }

  /** One more step of (-lr, -lr). */
  lemma LinearPointNext(p: Vec, lr: real, j: nat)
    ensures Step(LinearPoint(p, lr, j), lr, Vec(1.0, 1.0)) == LinearPoint(p, lr, j + 1)
  {
    assert ((j + 1) as real) * lr == (j as real) * lr + lr;
  }

  /** Steps of the linear function with a tolerance that never stops the
      loop: the j-th appended point is p moved j + 1 times by (-lr, -lr). */
  lemma {:induction false} LinearStepsFull(p: Vec, lr: real, n: int, tol: real, j0: nat)
    requires !Below(Vec(1.0, 1.0), tol)
    ensures |Steps(Linear, LinearPoint(p, lr, j0), lr, n, tol)| == IterationCap(n)
    ensures forall j :: 0 <= j < IterationCap(n) ==>
              Steps(Linear, LinearPoint(p, lr, j0), lr, n, tol)[j] == LinearPoint(p, lr, j0 + j + 1)
    decreases n
  {
    if n > 0 {
      LinearPointNext(p, lr, j0);
      LinearStepsFull(p, lr, n - 1, tol, j0 + 1);
    }
  }

  /** The linear test function has gradient (1, 1), of squared norm 2,
      everywhere. So the loop either stops after its first pass, exactly when
      tol > 0 and 2 < tol^2, or runs every pass, with path[i] equal to the
      start point moved by i * lr in both coordinates. */
  lemma LinearPath(p0: Vec, lr: real, maxIters: int, tol: real)
    ensures maxIters >= 1 && tol > 0.0 && 2.0 < tol * tol
      ==> Path(Linear, p0, lr, maxIters, tol) == [p0, Vec(p0.x - lr, p0.y - lr)]
    ensures !(tol > 0.0 && 2.0 < tol * tol) ==>
      && |Path(Linear, p0, lr, maxIters, tol)| == IterationCap(maxIters) + 1
      && forall i :: 0 <= i < |Path(Linear, p0, lr, maxIters, tol)|
           ==> Path(Linear, p0, lr, maxIters, tol)[i] == Vec(p0.x - (i as real) * lr, p0.y - (i as real) * lr)
  {
    assert SquaredNorm(Vec(1.0, 1.0)) == 2.0;
    if !(tol > 0.0 && 2.0 < tol * tol) {
      assert LinearPoint(p0, lr, 0) == p0;
      LinearStepsFull(p0, lr, maxIters, tol, 0);
      var path := Path(Linear, p0, lr, maxIters, tol);
      forall i | 0 <= i < |path|
        ensures path[i] == LinearPoint(p0, lr, i)
      {
        if i > 0 {
          assert path[i] == Steps(Linear, LinearPoint(p0, lr, 0), lr, maxIters, tol)[i - 1];
        }
      }
    }
  }
}
