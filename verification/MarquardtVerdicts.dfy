/** When lmder and lmdif stop, repeat a step or form a Jacobian, in terms of the run alone; and how the scale grows. */
module MarquardtVerdicts {
  import opened Reals
  import opened Vectors
  import opened Machines
  import opened Users
  import opened Runs
  import opened Gains
  import opened Dogleg
  import opened Scaling
  import opened MarquardtStep
  import opened MarquardtTrace
  import opened MarquardtLaws

  // ---- the norm the bound is measured against ----

  /** The scale that was in use when the last point was reached, or at the start. */
  ghost function Arrival(h: History): (d: Vec)
    requires h != []
    decreases |h|
  {
    if |h| == 1 || Gained(Last(h), 0.0001) then Last(h).a.d else Arrival(Init(h))
  }

  lemma NormOf(mach: Machine, fcn: Fcn, s: Step)
    requires StepOk(mach, fcn, s)
    ensures mach.Valid() && |s.p| == |s.a.x| == |s.a.d| == fcn.n
    ensures s.e.xnorm == if Success(s.t) then ScaledNorm(mach, s.a.d, s.Point()) else s.a.c.xnorm
  {
    hide Aimed, Measured, ScaledNorm, ShrinkBy, StateOk, Success;
    StepSizes(mach, fcn, s);
  }

  /** xnorm is the scaled length of the point reached, in the scale it was reached with. */
  lemma {:induction false} ArrivalNorm(g: Problem, h: History)
    requires Trace(g, h) && h != []
    ensures g.mach.Valid() && |Last(h).p| == |Last(h).a.x| == |Last(h).a.d|
    ensures |Arrival(h)| == |Reached(g, h)| == g.fcn.n
    ensures Last(h).e.xnorm == ScaledNorm(g.mach, Arrival(h), Reached(g, h))
    decreases |h|
  {
    hide StepOk, Joined, Gained, ScaledNorm;
    var s := Last(h);
    NormOf(g.mach, g.fcn, s);
    RatioMeans(g.mach, g.fcn, s, 0.0001);
    if !Gained(s, 0.0001) {
      ControlCarried(g, h);
      PointCarried(g, h);
      if |h| > 1 {
        ArrivalNorm(g, Init(h));
      }
    }
  }

  // ---- the tests ----

  /** The reductions are at most tol, and the actual one at most twice the predicted one. */
  predicate Converged(s: Step, tol: real) {
    Abs(s.t.actred) <= tol && s.t.prered <= tol && !Exceeds(s.t.actred, s.t.prered, 2.0)
  }

  /** The bound is at most tol times the scaled length of the point reached. */
  ghost predicate Narrow(g: Problem, h: History, tol: real)
    requires h != [] && |Last(h).p| == |Last(h).a.x| && g.mach.Valid() && |Arrival(h)| == |Reached(g, h)|
  {
    Last(h).e.delta <= tol * ScaledNorm(g.mach, Arrival(h), Reached(g, h))
  }

  /** No column of the Jacobian has a cosine above tol with f. */
  ghost predicate Orthogonal(mach: Machine, j0: Mat, f: Vec, tol: real)
    requires mach.Valid() && IsMat(j0, |j0|, |f|)
  {
    forall c :: 0 <= c < |j0| ==> CosineAtMost(mach, j0[c], f, tol)
  }

  /** The largest cosine is at most tol exactly when all are. */
  lemma CosinesAtMost(mach: Machine, j0: Mat, f: Vec, gnorm: real, tol: real)
    requires mach.Valid() && IsMat(j0, |j0|, |f|) && LargestCosine(mach, j0, f, gnorm) && mach.Norm(f) > 0.0
    requires tol >= 0.0
    ensures gnorm <= tol <==> Orthogonal(mach, j0, f, tol)
  {
    hide CosineAtMost, CosineIs;
    if gnorm <= tol {
      forall c | 0 <= c < |j0|
        ensures CosineAtMost(mach, j0[c], f, tol)
      {
        StillAtMost(mach, j0[c], f, gnorm, tol);
      }
    } else {
      var c :| 0 <= c < |j0| && CosineIs(mach, j0[c], f, gnorm);
      NotAtMost(mach, j0[c], f, gnorm, tol);
    }
  }

  lemma StillAtMost(mach: Machine, a: Vec, f: Vec, g: real, tol: real)
    requires mach.Valid() && |a| == |f| && CosineAtMost(mach, a, f, g) && g <= tol
    ensures CosineAtMost(mach, a, f, tol)
  {
    hide Dot;
    LargerBound(mach.Norm(a), mach.Norm(f), g, tol, Abs(Dot(a, f)));
  }

  lemma NotAtMost(mach: Machine, a: Vec, f: Vec, g: real, tol: real)
    requires mach.Valid() && |a| == |f| && CosineIs(mach, a, f, g) && g > tol
    ensures !CosineAtMost(mach, a, f, tol)
  {
    hide Dot;
    NotBoth(mach.Norm(a) * mach.Norm(f), g, tol);
  }

  lemma LargerBound(a: real, b: real, g: real, tol: real, v: real)
    requires a >= 0.0 && b >= 0.0 && g <= tol && v <= g * (a * b)
    ensures v <= tol * (a * b)
  {
    NonnegProduct(a, b, a * b);
    NonnegProduct(tol - g, a * b, (tol - g) * (a * b));
  }

  lemma NotBoth(n: real, g: real, tol: real)
    requires n > 0.0 && g > tol
    ensures g * n > tol * n
  {
    PositiveProduct(g - tol, n, (g - tol) * n);
  }

  /** The verdict on the last step of a run: first whether it has converged in the function, in the point, or in both;
      then the gradient, the precision of the point and of the function, and the calls; then whether the trial failed.
      */
  lemma RuledExactly(g: Problem, h: History)
    requires Trace(g, h) && h != []
    ensures |Last(h).p| == |Last(h).a.x| && g.mach.Valid() && |Arrival(h)| == |Reached(g, h)|
    ensures IsMat(Last(h).a.j0, |Last(h).a.j0|, |g.fcn.f(Last(h).a.x)|)
    ensures var s := Last(h);
      Ruled(g, h) ==
      if Converged(s, g.l.ftol) && Narrow(g, h, g.l.xtol) then Stop(3)
      else if Narrow(g, h, g.l.xtol) then Stop(2)
      else if Converged(s, g.l.ftol) then Stop(1)
      else if Orthogonal(g.mach, s.a.j0, g.fcn.f(s.a.x), g.mach.epsmch) then Stop(8)
      else if Narrow(g, h, g.mach.epsmch) then Stop(7)
      else if Converged(s, g.mach.epsmch) then Stop(6)
      else if Calls(g, h) >= g.l.maxfev then Stop(5)
      else if Gained(s, 0.0001) then Next
      else Again
  {
    hide StepOk, Joined, Gained, ScaledNorm, Judge, Calls, Converged, Narrow, Orthogonal, Trace, Arrival, Small, Ruled;
    var s := Last(h);
    var tx, px := g.l.xtol * s.e.xnorm, g.mach.epsmch * s.e.xnorm;
    ArrivalNorm(g, h);
    NarrowMeans(g, h, g.l.xtol, tx);
    NarrowMeans(g, h, g.mach.epsmch, px);
    SmallMeans(g, h, g.l.ftol);
    SmallMeans(g, h, g.mach.epsmch);
    GradientMeans(g, h, g.mach.epsmch);
    SuccessMeans(g, h);
    RuledBy(g, h, tx, px);
  }

  lemma SuccessMeans(g: Problem, h: History)
    requires Trace(g, h) && h != []
    ensures Last(h).t.ratio >= 0.0001 <==> Gained(Last(h), 0.0001)
  {
    hide StepOk, Joined, Gained;
    RatioMeans(g.mach, g.fcn, Last(h), 0.0001);
  }

  lemma RuledBy(g: Problem, h: History, tx: real, px: real)
    requires h != [] && tx == g.l.xtol * Last(h).e.xnorm && px == g.mach.epsmch * Last(h).e.xnorm
    ensures var s := Last(h);
      Ruled(g, h) ==
      if Small(s.t, g.l.ftol) && s.e.delta <= tx then Stop(3)
      else if s.e.delta <= tx then Stop(2)
      else if Small(s.t, g.l.ftol) then Stop(1)
      else if s.a.gnorm <= g.mach.epsmch then Stop(8)
      else if s.e.delta <= px then Stop(7)
      else if Small(s.t, g.mach.epsmch) then Stop(6)
      else if Calls(g, h) >= g.l.maxfev then Stop(5)
      else if s.t.ratio >= 0.0001 then Next
      else Again
  {
    hide Calls, Small;
  }

  lemma NarrowMeans(g: Problem, h: History, tol: real, t: real)
    requires Trace(g, h) && h != [] && t == tol * Last(h).e.xnorm
    ensures |Last(h).p| == |Last(h).a.x| && g.mach.Valid() && |Arrival(h)| == |Reached(g, h)|
    ensures Narrow(g, h, tol) <==> Last(h).e.delta <= t
  {
    hide StepOk, Joined, ScaledNorm, Arrival, Trace;
    ArrivalNorm(g, h);
  }

  lemma SmallMeans(g: Problem, h: History, tol: real)
    requires Trace(g, h) && h != []
    ensures Small(Last(h).t, tol) <==> Converged(Last(h), tol)
  {
    hide StepOk, Joined, Exceeds;
    RatioMeans(g.mach, g.fcn, Last(h), 2.0);
  }

  lemma GradientMeans(g: Problem, h: History, tol: real)
    requires Trace(g, h) && h != [] && tol >= 0.0
    ensures g.mach.Valid() && IsMat(Last(h).a.j0, |Last(h).a.j0|, |g.fcn.f(Last(h).a.x)|)
    ensures Last(h).a.gnorm <= tol <==> Orthogonal(g.mach, Last(h).a.j0, g.fcn.f(Last(h).a.x), tol)
  {
    hide Joined, LargestCosine, Orthogonal, NormalStep, Measured, After;
    var a := Last(h).a;
    CosinesAtMost(g.mach, a.j0, g.fcn.f(a.x), a.gnorm, tol);
  }

  /** A step is only made from a point where some column of the Jacobian has a cosine above gtol with the function. */
  lemma GradientLarge(g: Problem, h: History)
    requires Trace(g, h) && h != []
    ensures g.mach.Valid() && IsMat(Last(h).a.j0, |Last(h).a.j0|, |g.fcn.f(Last(h).a.x)|)
    ensures !Orthogonal(g.mach, Last(h).a.j0, g.fcn.f(Last(h).a.x), g.l.gtol)
  {
    hide StepOk, Joined, Orthogonal;
    GradientAbove(g, h);
    GradientMeans(g, h, g.l.gtol);
  }

  lemma {:induction false} GradientAbove(g: Problem, h: History)
    requires Trace(g, h) && h != []
    ensures Last(h).a.gnorm > g.l.gtol && g.l.gtol >= 0.0
    decreases |h|
  {
    hide StepOk, StateOk, Rescaled, Ruled, Bounded;
    if |h| > 1 {
      GradientAbove(g, Init(h));
    } else {
      assert Init(h) == [];
    }
  }

  // ---- the scale ----

  /** The norm of column j of the Jacobian of step i. */
  ghost function ColumnNorm(g: Problem, h: History, i: nat, j: nat): real
    requires ProblemOk(g) && i < |h| && |h[i].a.x| == g.fcn.n && j < g.fcn.n
  {
    g.mach.Norm(g.jac(h[i].a.x)[j])
  }

  lemma {:induction false} StepSizesAt(g: Problem, h: History, i: nat)
    requires Trace(g, h) && i < |h|
    ensures ProblemOk(g) && |h[i].a.x| == |h[i].a.d| == g.fcn.n
    decreases |h|
  {
    hide StepOk, Joined;
    if i == |h| - 1 {
      StepSizes(g.mach, g.fcn, h[i]);
    } else {
      StepSizesAt(g, Init(h), i);
    }
  }

  /** The scale of a step and the scale before it: kept after a failure or by the caller, and otherwise chosen from the
      columns of the first Jacobian, 1 for a zero column, or enlarged to those of a new one. */
  lemma ScaleStep(g: Problem, h: History)
    requires Trace(g, h) && h != []
    ensures ProblemOk(g) && |Last(h).a.x| == |Last(h).a.d| == g.fcn.n
    ensures |h| > 1 ==> |Last(Init(h)).a.d| == g.fcn.n
    ensures var a := Last(h).a; var d := if |h| == 1 then g.d0 else Last(Init(h)).a.d;
      forall j :: 0 <= j < g.fcn.n ==>
        a.d[j] ==
        if g.l.mode == 2 || (|h| > 1 && !Gained(Last(Init(h)), 0.0001)) then d[j]
        else if |h| == 1 then NonzeroOr(ColumnNorm(g, h, 0, j), 1.0)
        else Max(d[j], ColumnNorm(g, h, |h| - 1, j))
  {
    hide StepOk, StateOk, Ruled, StartBound, Gained;
    StepSizesAt(g, h, |h| - 1);
    if |h| > 1 {
      StepSizesAt(g, h, |h| - 2);
      RatioMeans(g.mach, g.fcn, Last(Init(h)), 0.0001);
      LaterIteration(g, Init(h));
    } else {
      assert Init(h) == [];
    }
  }

  /** A scale fixed by the caller never changes. */
  lemma {:induction false} ScaleFixed(g: Problem, h: History)
    requires Trace(g, h) && h != [] && g.l.mode == 2
    ensures Last(h).a.d == g.d0
    decreases |h|
  {
    hide StepOk, Joined, Gained;
    ScaleStep(g, h);
    if |h| > 1 {
      ScaleFixed(g, Init(h));
    }
    assert Last(h).a.d == g.d0;
  }

  /** A scale chosen by the solver is the largest norm of its column over all Jacobians formed, with 1 for a column that
      is zero in the first: it is at least each of them ... */
  lemma {:induction false} ScaleCovers(g: Problem, h: History, i: nat, j: nat)
    requires Trace(g, h) && i < |h| && g.l.mode != 2 && j < g.fcn.n
    ensures ProblemOk(g) && |h[i].a.x| == |Last(h).a.d| == g.fcn.n
    ensures Last(h).a.d[j] >= ColumnNorm(g, h, i, j)
    decreases |h|
  {
    hide StepOk, Joined, ScaledNorm, Gained;
    StepSizesAt(g, h, i);
    ScaleStep(g, h);
    if i < |h| - 1 {
      ScaleCovers(g, Init(h), i, j);
    } else if |h| > 1 && !Gained(Last(Init(h)), 0.0001) {
      ScaleCovers(g, Init(h), i - 1, j);
      PointCarried(g, h);
      StepTaken(g, Init(h));
    }
  }

  /** ... and it is one of them, or the 1. */
  lemma {:induction false} ScaleAttained(g: Problem, h: History, j: nat) returns (i: nat)
    requires Trace(g, h) && h != [] && g.l.mode != 2 && j < g.fcn.n
    ensures i < |h| && ProblemOk(g) && |h[i].a.x| == |Last(h).a.d| == g.fcn.n
    ensures Last(h).a.d[j] == NonzeroOr(ColumnNorm(g, h, i, j), 1.0)
    ensures Last(h).a.d[j] != ColumnNorm(g, h, i, j) ==> i == 0
    decreases |h|
  {
    hide StepOk, Joined, ScaledNorm, Gained;
    ScaleStep(g, h);
    if |h| == 1 {
      i := 0;
    } else if Last(h).a.d[j] == ColumnNorm(g, h, |h| - 1, j) != 0.0 {
      i := |h| - 1;
    } else {
      i := ScaleAttained(g, Init(h), j);
      StepSizesAt(g, h, i);
    }
  }
}
