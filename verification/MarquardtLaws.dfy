/** How lmder and lmdif control a run, in terms of the function, the lengths and the reductions of its trials alone. */
module MarquardtLaws {
  import opened Reals
  import opened Vectors
  import opened Machines
  import opened Users
  import opened Runs
  import opened Gains
  import opened Dogleg
  import opened Scaling
  import opened LeastSquares
  import opened MarquardtChoice
  import opened MarquardtStep
  import opened MarquardtTrace

  // ---- the reductions ----

  /** actred is the relative reduction of the square of the function, or -1 when the norm has grown tenfold; prered is
      that of the square of the model f + J p without the damping, and dirder its slope along p. */
  lemma ReductionsMeasured(g: Problem, h: History)
    requires Trace(g, h) && h != []
    ensures StepOk(g.mach, g.fcn, Last(h)) && |Last(h).p| == |Last(h).a.x| == |Last(h).a.j0| == g.fcn.n
    ensures IsMat(Last(h).a.j0, g.fcn.n, g.fcn.m)
    ensures var s := Last(h);
      var f, f1, y := g.fcn.f(s.a.x), g.fcn.f(s.Point()), Image(s.a.j0, s.p, g.fcn.m);
      var model := Axpy(1.0, y, f);
      && |f| == |f1| == g.fcn.m && s.a.j0 == g.jac(s.a.x)
      && (if 0.01 * Dot(f1, f1) < Dot(f, f) then Reduces(s.t.actred, Dot(f, f), Dot(f1, f1)) else s.t.actred == -1.0)
      && Reduces(s.t.prered, Dot(f, f), Dot(model, model)) && s.t.dirder * Dot(f, f) == Dot(f, y)
  {
    hide StepOk, Joined, ActualReduction, Dot, Axpy, Image, Exact, Reduces, IsMat, After, Comb, StateOk, Positive;
    hide Reached, NormalStep;
    var s := Last(h);
    StepSizes(g.mach, g.fcn, s);
    RunDescends(g, h);
    MeasuredOf(g.mach, g.fcn, s);
    var f, f1 := g.fcn.f(s.a.x), g.fcn.f(s.Point());
    ActualMeans(g.mach.Norm(f), g.mach.Norm(f1), s.t.actred, Dot(f, f), Dot(f1, f1));
    ExactMeans(s.a.j0, f, s.p, s.t, g.fcn.m);
  }

  lemma ExactMeans(j0: Mat, f: Vec, p: Vec, t: Trial, m: nat)
    requires Exact(j0, f, p, t, m)
    ensures |p| == |j0| && IsMat(j0, |j0|, m) && |f| == m
    ensures var y := Image(j0, p, m); var model := Axpy(1.0, y, f);
      Reduces(t.prered, Dot(f, f), Dot(model, model)) && t.dirder * Dot(f, f) == Dot(f, y)
  {
    hide Image, Dot, Axpy;
  }

  lemma MeasuredOf(mach: Machine, fcn: Fcn, s: Step)
    requires StepOk(mach, fcn, s)
    ensures |s.p| == |s.a.x| == |s.a.j0| == fcn.n && IsMat(s.a.j0, fcn.n, fcn.m) && mach.Valid() && fcn.Valid()
    ensures mach.Norm(fcn.f(s.a.x)) > 0.0 && |fcn.f(s.a.x)| == |fcn.f(s.Point())| == fcn.m
    ensures s.t.actred == ActualReduction(mach.Norm(fcn.f(s.a.x)), mach.Norm(fcn.f(s.Point())))
    ensures Exact(s.a.j0, fcn.f(s.a.x), s.p, s.t, fcn.m) && s.t.prered >= 0.0 && s.t.dirder <= 0.0
    ensures |s.a.d| == |s.p| && s.t.pnorm == ScaledNorm(mach, s.a.d, s.p)
    ensures s.t.prered > 0.0 ==> s.t.ratio == s.t.actred / s.t.prered
    ensures s.t.prered == 0.0 ==> s.t.ratio == 0.0
    ensures s.t.fnorm1 == mach.Norm(fcn.f(s.Point())) && s.a.c.fnorm == mach.Norm(fcn.f(s.a.x))
  {
    hide NormalStep, Chosen, LargestCosine, After, ActualReduction, Exact;
  }

  lemma ActualMeans(a: real, b: real, v: real, aa: real, bb: real)
    requires a > 0.0 && b >= 0.0 && v == ActualReduction(a, b) && aa == a * a && bb == b * b
    ensures if 0.01 * bb < aa then Reduces(v, aa, bb) else v == -1.0
  {
    var t := 0.1 * b;
    assert t * t == 0.01 * bb;
    SquareOrder(a, t, aa, t * t);
    SquareOrder(t, a, t * t, aa);
    if t < a {
      ReducesBy(b, a, v, bb, aa);
    }
  }

  // ---- success ----

  /** The trial gained at least the r-th part of a positive predicted reduction. */
  predicate Gained(s: Step, r: real) {
    Attains(s.t.actred, s.t.prered, r)
  }

  /** The ratio of the solver, in terms of the reductions. */
  lemma RatioMeans(mach: Machine, fcn: Fcn, s: Step, r: real)
    requires StepOk(mach, fcn, s) && r > 0.0
    ensures s.t.prered >= 0.0 && (s.t.ratio >= r <==> Gained(s, r))
    ensures s.t.ratio > r <==> Exceeds(s.t.actred, s.t.prered, r)
  {
    hide StepOk, Attains, Exceeds, Exact;
    MeasuredOf(mach, fcn, s);
    QuotientGains(s.t.actred, s.t.prered, s.t.ratio, r);
    QuotientExceeds(s.t.actred, s.t.prered, s.t.ratio, r);
  }

  /** The trial point is taken exactly when the gain is at least a ten-thousandth of that predicted. */
  lemma StepTaken(g: Problem, h: History)
    requires Trace(g, h) && h != []
    ensures |Last(h).p| == |Last(h).a.x|
    ensures Reached(g, h) == if Gained(Last(h), 0.0001) then Axpy(1.0, Last(h).p, Last(h).a.x) else Last(h).a.x
  {
    hide StepOk, Joined, Gained, Axpy;
    RatioMeans(g.mach, g.fcn, Last(h), 0.0001);
    StepSizes(g.mach, g.fcn, Last(h));
  }

  lemma PointCarried(g: Problem, h: History)
    requires Trace(g, h) && h != []
    ensures |h| > 1 ==> |Last(Init(h)).p| == |Last(Init(h)).a.x|
    ensures Last(h).a.x == if |h| == 1 then g.x0 else Reached(g, Init(h))
  {
    hide StepOk, Joined;
    if |h| == 1 {
      assert Init(h) == [];
    } else {
      StepSizes(g.mach, g.fcn, Last(Init(h)));
    }
    JoinedPoint(g, Init(h), Last(h).a);
  }

  // ---- the bound and the damping ----

  /** The parabola that is 1 at 0 with slope 2 dirder, and 1 - actred at 1: an estimate of the relative square of the
      function along the step. */
  function Parabola(dirder: real, actred: real, u: real): real {
    1.0 + 2.0 * dirder * u - (actred + 2.0 * dirder) * (u * u)
  }

  /** The factor the bound shrinks by after a poor trial: a tenth when the norm has grown tenfold, a half when it has
      not grown, and otherwise the minimizer of the parabola, but at least a tenth. */
  ghost predicate ShrinksBy(s: Step, tenfold: bool, t: real) {
    if tenfold then t == 0.1
    else if s.t.actred >= 0.0 then t == 0.5
    else exists m: real :: Minimizes(s.t.dirder, s.t.actred, m) && t == Max(0.1, m)
  }

  ghost predicate Minimizes(dirder: real, actred: real, m: real) {
    forall u: real {:trigger Parabola(dirder, actred, u)} :: Parabola(dirder, actred, u) >= Parabola(dirder, actred, m)
  }

  /** The bound and the damping after a step that began with delta and par and has length l. */
  ghost predicate Rebound(s: Step, l: real, tenfold: bool, delta': real, par': real) {
    var delta := if s.a.c.iter == 1 then Min(s.a.c.delta, l) else s.a.c.delta;
    if !Exceeds(s.t.actred, s.t.prered, 0.25) then
      exists t: real :: ShrinksBy(s, tenfold, t) && delta' == t * Min(delta, 10.0 * l) && par' * t == s.par
    else if s.par == 0.0 || Gained(s, 0.75) then delta' == 2.0 * l && par' == s.par / 2.0
    else delta' == delta && par' == s.par
  }

  /** How long the next step may be, and with what damping its search begins. */
  lemma BoundMoves(g: Problem, h: History)
    requires Trace(g, h) && h != []
    ensures |Last(h).a.d| == |Last(h).p| == |Last(h).a.x|
    ensures var s := Last(h); var f, f1 := g.fcn.f(s.a.x), g.fcn.f(s.Point());
      |f| == |f1|
      && Rebound(s, ScaledNorm(g.mach, s.a.d, s.p), Dot(f1, f1) >= 100.0 * Dot(f, f), s.e.delta, s.e.par)
  {
    hide StepOk, Joined, ScaledNorm, Exact, ShrinkBy, Exceeds, Gained, ShrinksBy, Dot;
    var s := Last(h);
    MeasuredOf(g.mach, g.fcn, s);
    RatioMeans(g.mach, g.fcn, s, 0.25);
    RatioMeans(g.mach, g.fcn, s, 0.75);
    BoundOf(g.mach, g.fcn, s);
    var f, f1 := g.fcn.f(s.a.x), g.fcn.f(s.Point());
    var tenfold := Dot(f1, f1) >= 100.0 * Dot(f, f);
    Tenfold(g.mach.Norm(f), g.mach.Norm(f1), Dot(f, f), Dot(f1, f1));
    ShrinkMeans(s, tenfold);
    var t := ShrinkBy(s.a.c.fnorm, s.t);
    if !Exceeds(s.t.actred, s.t.prered, 0.25) {
      assert ShrinksBy(s, tenfold, t);
      DividedBack(s.par, t, s.e.par);
    }
  }

  lemma Tenfold(a: real, b: real, aa: real, bb: real)
    requires a > 0.0 && b >= 0.0 && aa == a * a && bb == b * b
    ensures 0.1 * b >= a <==> bb >= 100.0 * aa
  {
    var t := 0.1 * b;
    assert t * t == 0.01 * bb;
    SquareOrder(t, a, t * t, aa);
    SquareOrder(a, t, aa, t * t);
    if t == a {
      assert t * t == a * a;
    }
  }

  lemma BoundOf(mach: Machine, fcn: Fcn, s: Step)
    requires StepOk(mach, fcn, s)
    ensures s.t.dirder <= 0.0
    ensures var t := ShrinkBy(s.a.c.fnorm, s.t);
      var delta := if s.a.c.iter == 1 then Min(s.a.c.delta, s.t.pnorm) else s.a.c.delta;
      if s.t.ratio <= 0.25 then s.e.delta == t * Min(delta, 10.0 * s.t.pnorm) && s.e.par == s.par / t
      else if s.par == 0.0 || s.t.ratio >= 0.75 then s.e.delta == 2.0 * s.t.pnorm && s.e.par == s.par / 2.0
      else s.e.delta == delta && s.e.par == s.par
  {
    hide NormalStep, Chosen, LargestCosine, Exact, ActualReduction, ScaledNorm, ShrinkBy, StateOk;
    StepSizes(mach, fcn, s);
    TimesTen(s.t.pnorm);
  }

  lemma TimesTen(l: real)
    ensures l / 0.1 == 10.0 * l && l / 0.5 == 2.0 * l
  {
  }

  lemma ShrinkMeans(s: Step, tenfold: bool)
    requires s.t.dirder <= 0.0 && (tenfold <==> 0.1 * s.t.fnorm1 >= s.a.c.fnorm)
    ensures ShrinksBy(s, tenfold, ShrinkBy(s.a.c.fnorm, s.t))
  {
    if !tenfold && s.t.actred < 0.0 {
      var m := Interpolated(s.t);
      InterpolatedMinimizes(s.t);
      assert Minimizes(s.t.dirder, s.t.actred, m);
      assert ShrinkBy(s.a.c.fnorm, s.t) == Max(0.1, m);
    }
  }

  /** The interpolated factor is where the parabola is least. */
  lemma InterpolatedMinimizes(t: Trial)
    requires t.dirder <= 0.0 && t.actred < 0.0
    ensures Minimizes(t.dirder, t.actred, Interpolated(t))
  {
    var m, k := Interpolated(t), -(t.actred + 2.0 * t.dirder);
    InterpolatedIs(t, m);
    forall u: real
      ensures Parabola(t.dirder, t.actred, u) >= Parabola(t.dirder, t.actred, m)
    {
      Vertex(t.dirder, t.actred, k, m, u);
    }
  }

  lemma InterpolatedIs(t: Trial, m: real)
    requires t.dirder <= 0.0 && t.actred < 0.0 && m == Interpolated(t)
    ensures m * (2.0 * t.dirder + t.actred) == t.dirder
  {
    SlopeSum(t);
    var d := t.dirder + 0.5 * t.actred;
    assert m * d == 0.5 * t.dirder;
  }

  lemma Vertex(dirder: real, actred: real, k: real, m: real, u: real)
    requires k == -(actred + 2.0 * dirder) && k > 0.0 && m * (2.0 * dirder + actred) == dirder
    ensures Parabola(dirder, actred, u) >= Parabola(dirder, actred, m)
  {
    var e := u - m;
    SquareSign(e, e * e);
    NonnegProduct(k, e * e, k * (e * e));
    assert k * m == -dirder;
    assert k * (u * u) - k * (m * m) == k * (e * e) + 2.0 * ((k * m) * e) by {
      assert u * u == m * m + 2.0 * (m * e) + e * e;
      assert k * (m * e) == (k * m) * e;
    }
  }

  /** The first step has the bound factor |D x|, or factor itself at the origin, and no damping to begin with; every
      other what the step before left. */
  lemma BoundKept(g: Problem, h: History)
    requires Trace(g, h) && h != []
    ensures |Last(h).a.d| == |Last(h).a.x| && g.mach.Valid()
    ensures var a := Last(h).a; var xnorm := ScaledNorm(g.mach, a.d, a.x);
      if |h| > 1 then a.c.delta == Last(Init(h)).e.delta && a.c.par == Last(Init(h)).e.par
      else a.x == g.x0 && a.c.par == 0.0 && a.c.delta == if xnorm > 0.0 then g.l.factor * xnorm else g.l.factor
  {
    hide StepOk, Joined, ScaledNorm;
    StepSizes(g.mach, g.fcn, Last(h));
    PointCarried(g, h);
    ControlCarried(g, h);
  }

  lemma ControlCarried(g: Problem, h: History)
    requires Trace(g, h) && h != []
    ensures |Last(h).a.d| == |Last(h).a.x| && g.mach.Valid()
    ensures var a := Last(h).a; var xnorm := ScaledNorm(g.mach, a.d, a.x);
      if |h| > 1 then a.c == Last(Init(h)).e && a.c.iter >= 1
      else a.c.par == 0.0 && a.c.xnorm == xnorm && a.c.iter == 1
           && a.c.delta == if xnorm > 0.0 then g.l.factor * xnorm else g.l.factor
  {
    hide StepOk, StateOk, Rescaled, Ruled, StartBound, ScaledNorm;
    StepSizes(g.mach, g.fcn, Last(h));
    if |h| == 1 {
      assert Init(h) == [];
      StartMeans(g.l.factor, ScaledNorm(g.mach, Last(h).a.d, Last(h).a.x));
    } else {
      LaterIteration(g, Init(h));
    }
  }

  /** A success opens a later iteration. */
  lemma LaterIteration(g: Problem, h: History)
    requires Trace(g, h) && h != []
    ensures Success(Last(h).t) ==> Last(h).e.iter > 1
    ensures Last(h).e.iter >= 1
  {
    hide StepOk, Joined;
    StepSizes(g.mach, g.fcn, Last(h));
    StepAdvances(g.mach, g.fcn, Last(h));
  }
}
