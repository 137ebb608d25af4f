/** The matrix the factors of a run stand for: the last Jacobian formed, with Broyden's updates since then. */
module HybridApproximation {
  import opened Vectors
  import opened Machines
  import opened Packed
  import opened Runs
  import opened DoglegPath
  import opened Dogleg
  import opened Rotations
  import opened Broyden
  import opened HybridStep
  import opened HybridTrace

  /** The columns of the Jacobian as rows. */
  ghost function Transposed(cols: Mat, n: nat): (b: Mat)
    requires IsMat(cols, n, n)
    ensures IsMat(b, n, n) && forall i, j :: 0 <= i < n && 0 <= j < n ==> b[i][j] == cols[j][i]
  {
    seq(n, i requires 0 <= i < n && IsMat(cols, n, n) =>
      seq(n, j requires 0 <= j < n && IsMat(cols, n, n) && 0 <= i < n => cols[j][i]))
  }

  /** The change of the function over a trial step. */
  ghost function Change(g: Problem, s: Step): (df: Vec)
    requires ProblemOk(g) && StepOk(g.mach, g.fcn, s)
    ensures |df| == g.fcn.n
  {
    StepSizes(g.mach, g.fcn, s);
    Axpy(-1.0, g.fcn.f(s.a.x), g.fcn.f(s.Point()))
  }

  /** A step without a new Jacobian comes after another that was not zero. */
  lemma UpdatedStep(g: Problem, h: History)
    requires Trace(g, h) && h != [] && !Last(h).a.c.jeval
    ensures |h| > 1 && Trace(g, Init(h)) && StepOk(g.mach, g.fcn, Last(Init(h))) && StepOk(g.mach, g.fcn, Last(h))
    ensures var s := Last(Init(h)); |s.a.d| == |s.p| == g.fcn.n == |Last(h).a.x| && ScaledSquare(s.a.d, s.p) != 0.0
    ensures exists up :: FactorsFollow(g.mach, g.fcn, Last(Init(h)), Last(h).a.q, Last(h).a.r, up)
  {
    hide StepOk, StateOk, FactorsFollow, Factors, Rescaled, Judge, ScaledNorm;
    StepSizes(g.mach, g.fcn, Last(h));
    if |h| > 1 {
      StepSizes(g.mach, g.fcn, Last(Init(h)));
      StepFactors(g.mach, g.fcn, Last(Init(h)));
      NonzeroSquare(g.mach, Last(Init(h)).a.d, Last(Init(h)).p);
    }
  }

  lemma NonzeroSquare(mach: Machine, d: Vec, p: Vec)
    requires mach.Valid() && |d| == |p|
    ensures ScaledNorm(mach, d, p) != 0.0 ==> ScaledSquare(d, p) != 0.0
  {
    NormZero(mach, Times(d, p));
    DotNonneg(Times(d, p));
  }

  /** The approximation of the Jacobian that the last step of h is taken with: a new Jacobian, or Broyden's update of
      the approximation before. */
  ghost function Approximation(g: Problem, h: History): (b: Mat)
    requires Trace(g, h) && h != []
    ensures IsMat(b, g.fcn.n, g.fcn.n)
    decreases |h|
  {
    StepSizes(g.mach, g.fcn, Last(h));
    if Last(h).a.c.jeval then Transposed(g.jac(Last(h).a.x), g.fcn.n)
    else
      UpdatedStep(g, h);
      var s := Last(Init(h));
      BroydenUpdate(Approximation(g, Init(h)), s.a.d, s.p, Change(g, s))
  }

  /** No rotation since the last new Jacobian was too small to record. */
  ghost predicate Honest(g: Problem, h: History)
    requires Trace(g, h) && h != []
    decreases |h|
  {
    || Last(h).a.c.jeval
    || (UpdatedStep(g, h);
        && Honest(g, Init(h))
        && exists up :: FactorsFollow(g.mach, g.fcn, Last(Init(h)), Last(h).a.q, Last(h).a.r, up)
                        && NoneFlushed(g.mach, up.gs))
  }

  /** Q R of the last step. */
  ghost function Held(g: Problem, h: History): (b: Mat)
    requires Trace(g, h) && h != []
  {
    var a := Last(h).a;
    StepShapes(g, h);
    Product(a.q, Upper(a.r, g.fcn.n), g.fcn.n)
  }

  lemma StepShapes(g: Problem, h: History)
    requires Trace(g, h) && h != []
    ensures var a := Last(h).a; |a.r| >= Slots(g.fcn.n) && IsMat(a.q, g.fcn.n, g.fcn.n)
  {
    hide DoglegStep, TrialAt, Joined;
  }

  /** While no rotation was too small to record, Q R is the approximation. */
  lemma {:induction false} FactorsHoldApproximation(g: Problem, h: History)
    requires Trace(g, h) && h != [] && Honest(g, h)
    ensures Held(g, h) == Approximation(g, h)
    decreases |h|
  {
    hide StepOk, StateOk;
    StepShapes(g, h);
    StepSizes(g.mach, g.fcn, Last(h));
    if Last(h).a.c.jeval {
      FreshFactors(g, h);
    } else {
      UpdatedStep(g, h);
      var s, a := Last(Init(h)), Last(h).a;
      FactorsHoldApproximation(g, Init(h));
      StepShapes(g, Init(h));
      var up :| FactorsFollow(g.mach, g.fcn, s, a.q, a.r, up) && NoneFlushed(g.mach, up.gs);
      StepSizes(g.mach, g.fcn, s);
      FactorsHoldUpdate(g.mach, s.a.q, s.a.r, s.a.d, s.p, Change(g, s), a.q, a.r, g.fcn.n, up);
    }
  }

  lemma FreshFactors(g: Problem, h: History)
    requires Trace(g, h) && h != [] && Last(h).a.c.jeval
    ensures Held(g, h) == Transposed(g.jac(Last(h).a.x), g.fcn.n)
  {
    hide StepOk, StateOk, Ruled, Rescaled, Restarted, Started, Product;
    StepShapes(g, h);
    StepSizes(g.mach, g.fcn, Last(h));
    var b, c := Held(g, h), Transposed(g.jac(Last(h).a.x), g.fcn.n);
    assert Factors(g, Last(h).a);
    forall i | 0 <= i < g.fcn.n
      ensures b[i] == c[i]
    {
      SameRow(b, c, g.fcn.n, i);
    }
  }

  lemma SameRow(b: Mat, c: Mat, n: nat, i: nat)
    requires IsMat(b, n, n) && IsMat(c, n, n) && i < n && forall j :: 0 <= j < n ==> b[i][j] == c[i][j]
    ensures b[i] == c[i]
  {
  }

  /** The approximation maps the last step to the observed change of the function, and agrees with the one before on
      every direction orthogonal to it in the scale D^2. */
  lemma ApproximationMeetsSecant(g: Problem, h: History)
    requires Trace(g, h) && h != [] && !Last(h).a.c.jeval
    ensures |h| > 1 && Trace(g, Init(h)) && StepOk(g.mach, g.fcn, Last(Init(h)))
    ensures var s := Last(Init(h));
      SecantUpdate(Approximation(g, Init(h)), Approximation(g, h), s.a.d, s.p, Change(g, s), g.fcn.n)
  {
    hide StepOk, StateOk, Joined, SecantUpdate, BroydenUpdate;
    UpdatedStep(g, h);
    var s := Last(Init(h));
    BroydenMeetsSecant(Approximation(g, Init(h)), s.a.d, s.p, Change(g, s));
  }
}
