/** How hybrd and hybrj control a run, in terms of the function, the lengths and the reductions of its trials alone. */
module HybridLaws {
  import opened Reals
  import opened Vectors
  import opened Machines
  import opened Packed
  import opened Users
  import opened Runs
  import opened Gains
  import opened Orthonormal
  import opened DoglegPath
  import opened Dogleg
  import opened DoglegTheorems
  import opened Broyden
  import opened Scaling
  import opened HybridStep
  import opened HybridTrace
  import opened HybridApproximation

  // ---- the reductions ----

  /** The model f + B p, for the matrix B = Q R that the factors hold. */
  ghost function Modelled(g: Problem, h: History): (y: Vec)
    requires Trace(g, h) && h != []
    ensures |y| == g.fcn.n
  {
    StepSizes(g.mach, g.fcn, Last(h));
    Axpy(1.0, Mul(Held(g, h), Last(h).p), g.fcn.f(Last(h).a.x))
  }

  /** actred is the relative reduction of the square of the function, and prered that of the square of the model f + B
      p; without a reduction they are -1 and 0. */
  lemma ReductionsMeasured(g: Problem, h: History)
    requires Trace(g, h) && h != []
    ensures StepOk(g.mach, g.fcn, Last(h)) && |Last(h).p| == |Last(h).a.x| == g.fcn.n
    ensures var s := Last(h);
      var f, f1, y := g.fcn.f(s.a.x), g.fcn.f(s.Point()), Modelled(g, h);
      && |f| == |f1| == g.fcn.n
      && (if Dot(f1, f1) < Dot(f, f) then Reduces(s.t.actred, Dot(f, f), Dot(f1, f1)) else s.t.actred == -1.0)
      && (if Dot(y, y) < Dot(f, f) then Reduces(s.t.prered, Dot(f, f), Dot(y, y)) else s.t.prered == 0.0)
  {
    hide StepOk, Held, Modelled, ActualReduction, PredictedReduction, Dot, Joined, Axpy, Mul;
    var s := Last(h);
    StepSizes(g.mach, g.fcn, s);
    var model := Measured(g.mach, g.fcn, s);
    ModelSquare(g, h, model);
    var f, f1 := g.fcn.f(s.a.x), g.fcn.f(s.Point());
    ActualMeans(g.mach.Norm(f), g.mach.Norm(f1), s.t.actred, Dot(f, f), Dot(f1, f1));
    PredictedMeans(g.mach.Norm(f), g.mach.Norm(model), s.t.prered, Dot(f, f), Dot(model, model));
  }

  lemma Measured(mach: Machine, fcn: Fcn, s: Step) returns (model: Vec)
    requires StepOk(mach, fcn, s)
    ensures |s.p| == |s.a.x| == fcn.n && |s.a.r| >= Slots(fcn.n) && mach.Valid()
    ensures model == Axpy(1.0, Mul(Upper(s.a.r, fcn.n), s.p), s.a.qtf) && FactorOk(s.a.q, s.a.qtf, fcn.f(s.a.x), fcn.n)
    ensures s.t.actred == ActualReduction(mach.Norm(fcn.f(s.a.x)), mach.Norm(fcn.f(s.Point())))
    ensures s.t.prered == PredictedReduction(mach.Norm(fcn.f(s.a.x)), mach.Norm(model))
  {
    hide OrthonormalRows, ActualReduction, PredictedReduction, DoglegStep, Inputs, After, Upper, Mul, Axpy, TrialAt;
    hide Comb;
    model := Axpy(1.0, Mul(Upper(s.a.r, |s.a.x|), s.p), s.a.qtf);
    TrialFrom(mach, fcn, s.a, s.p, fcn.f(s.Point()), model);
  }

  lemma ActualMeans(a: real, b: real, v: real, aa: real, bb: real)
    requires a >= 0.0 && b >= 0.0 && v == ActualReduction(a, b) && aa == a * a && bb == b * b
    ensures if bb < aa then Reduces(v, aa, bb) else v == -1.0
  {
    SquareOrder(a, b, aa, bb);
    SquareOrder(b, a, bb, aa);
    if b < a {
      ReducesBy(b, a, v, bb, aa);
    }
  }

  lemma PredictedMeans(a: real, b: real, v: real, aa: real, bb: real)
    requires a >= 0.0 && b >= 0.0 && v == PredictedReduction(a, b) && aa == a * a && bb == b * b
    ensures if bb < aa then Reduces(v, aa, bb) else v == 0.0
  {
    SquareOrder(a, b, aa, bb);
    SquareOrder(b, a, bb, aa);
    if b < a {
      ReducesBy(b, a, v, bb, aa);
    }
  }

  /** qtf + R p is as long as f + Q R p. */
  lemma ModelSquare(g: Problem, h: History, model: Vec)
    requires Trace(g, h) && h != [] && |Last(h).p| == |Last(h).a.x| == g.fcn.n
    requires |Last(h).a.r| >= Slots(g.fcn.n)
    requires FactorOk(Last(h).a.q, Last(h).a.qtf, g.fcn.f(Last(h).a.x), g.fcn.n)
    requires model == Axpy(1.0, Mul(Upper(Last(h).a.r, g.fcn.n), Last(h).p), Last(h).a.qtf)
    ensures Dot(Modelled(g, h), Modelled(g, h)) == Dot(model, model)
  {
    hide StepOk, Joined, StateOk;
    var a, n := Last(h).a, g.fcn.n;
    StepShapes(g, h);
    ProductTimes(a.q, Upper(a.r, n), n, Last(h).p);
    RotatedModel(a.q, a.qtf, g.fcn.f(a.x), Mul(Upper(a.r, n), Last(h).p), n);
  }

  lemma RotatedModel(q: Mat, qtf: Vec, f: Vec, y: Vec, n: nat)
    requires FactorOk(q, qtf, f, n) && |y| == n
    ensures |qtf| == n
    ensures Dot(Axpy(1.0, Mul(q, y), f), Axpy(1.0, Mul(q, y), f)) == Dot(Axpy(1.0, y, qtf), Axpy(1.0, y, qtf))
  {
    var m, u := Axpy(1.0, Mul(q, y), f), Axpy(1.0, y, qtf);
    BackToRows(q, f, y, n);
    assert Comb(m, q, n) == u;
    OrthonormalIsometry(q, n, m);
  }

  /** transpose(Q) (f + Q y) = transpose(Q) f + y */
  lemma BackToRows(q: Mat, f: Vec, y: Vec, n: nat)
    requires |q| == n == |f| == |y| && OrthonormalRows(q, n)
    ensures Comb(Axpy(1.0, Mul(q, y), f), q, n) == Axpy(1.0, y, Comb(f, q, n))
  {
    CombAxpy(1.0, Mul(q, y), f, q, n);
    RowsRecover(q, n, y);
  }

  // ---- success ----

  /** The last trial gained at least the r-th part of a positive predicted reduction. */
  predicate Gained(s: Step, r: real) {
    Attains(s.t.actred, s.t.prered, r)
  }

  /** The ratio of the solver, in terms of the reductions. */
  lemma RatioMeans(g: Problem, h: History, r: real)
    requires Trace(g, h) && h != [] && r > 0.0
    ensures var t := Last(h).t;
      && t.prered >= 0.0 && (t.ratio >= r <==> Gained(Last(h), r))
      && (Abs(t.ratio - 1.0) <= 0.1 <==> Agrees(t.actred, t.prered))
    ensures StepOk(g.mach, g.fcn, Last(h)) && Last(h).t.pnorm == ScaledNorm(g.mach, Last(h).a.d, Last(h).p)
  {
    hide Joined, StepOk, Attains, Agrees;
    var t := Last(h).t;
    TrialRatio(g.mach, g.fcn, Last(h));
    QuotientGains(t.actred, t.prered, t.ratio, r);
    QuotientAgrees(t.actred, t.prered, t.ratio);
  }

  lemma TrialRatio(mach: Machine, fcn: Fcn, s: Step)
    requires StepOk(mach, fcn, s)
    ensures s.t.prered >= 0.0 && |s.p| == |s.a.d| && mach.Valid() && s.t.pnorm == ScaledNorm(mach, s.a.d, s.p)
    ensures s.t.prered > 0.0 ==> s.t.ratio == s.t.actred / s.t.prered
    ensures s.t.prered == 0.0 ==> s.t.ratio == 0.0
  {
    hide DoglegStep, FactorOk, ActualReduction, PredictedReduction, After, Inputs;
  }

  /** The trial point is taken exactly when the gain is at least a ten-thousandth of that predicted. */
  lemma StepTaken(g: Problem, h: History)
    requires Trace(g, h) && h != []
    ensures |Last(h).p| == |Last(h).a.x|
    ensures Reached(g, h) == if Gained(Last(h), 0.0001) then Axpy(1.0, Last(h).p, Last(h).a.x) else Last(h).a.x
  {
    hide StepOk, Joined, Gained, Axpy;
    RatioMeans(g, h, 0.0001);
    StepSizes(g.mach, g.fcn, Last(h));
  }

  lemma PointCarried(g: Problem, h: History)
    requires Trace(g, h) && h != []
    ensures |h| > 1 ==> |Last(Init(h)).p| == |Last(Init(h)).a.x|
    ensures Last(h).a.x == if |h| == 1 then g.x0 else Reached(g, Init(h))
  {
    hide StateOk, StepOk, Factors, FactorsFollow, Ruled, Restarted, Rescaled;
    if |h| == 1 {
      assert Init(h) == [];
    } else {
      StepSizes(g.mach, g.fcn, Last(Init(h)));
    }
  }

  /** The counter of iterations is one as long as no trial point has been taken. */
  lemma {:induction false} FirstIteration(g: Problem, h: History)
    requires Trace(g, h) && h != []
    ensures Last(h).a.c.iter == 1 <==> forall i :: 0 <= i < |h| - 1 ==> !Gained(h[i], 0.0001)
    ensures Last(h).a.c.iter >= 1 && Last(h).e.iter == Last(h).a.c.iter + if Gained(Last(h), 0.0001) then 1 else 0
    decreases |h|
  {
    hide StepOk, Joined, Gained;
    CountersCarried(g, h);
    RatioMeans(g, h, 0.0001);
    StepAdvances(g.mach, g.fcn, Last(h));
    StepSizes(g.mach, g.fcn, Last(h));
    if |h| > 1 {
      FirstIteration(g, Init(h));
    }
  }

  // ---- the bound ----

  /** The bound after a step that began with delta and has length l, on the first iteration or not; again says that the
      trial before gained a tenth as well. */
  ghost predicate Rebound(s: Step, l: real, again: bool, delta': real) {
    var delta := if s.a.c.iter == 1 then Min(s.a.c.delta, l) else s.a.c.delta;
    if !Gained(s, 0.1) then delta' == delta / 2.0
    else if Agrees(s.t.actred, s.t.prered) then delta' == 2.0 * l
    else if Gained(s, 0.5) || again then delta' == Max(delta, 2.0 * l)
    else delta' == delta
  }

  /** The trial before gained a tenth. */
  predicate Again(h: History) {
    |h| > 1 && Gained(h[|h| - 2], 0.1)
  }

  lemma SuccessesCounted(g: Problem, h: History)
    requires Trace(g, h) && h != []
    ensures Last(h).a.c.ncsuc > 0 <==> Again(h)
    ensures Last(h).e.ncsuc == if Gained(Last(h), 0.1) then Last(h).a.c.ncsuc + 1 else 0
    decreases |h|
  {
    hide StepOk, Joined, Gained;
    RatioMeans(g, h, 0.1);
    SuccessesAfter(g, h);
    if |h| > 1 {
      RatioMeans(g, Init(h), 0.1);
      SuccessesAfter(g, Init(h));
    }
  }

  lemma SuccessesAfter(g: Problem, h: History)
    requires Trace(g, h) && h != []
    ensures Last(h).a.c.ncsuc == if |h| == 1 then 0 else Last(Init(h)).e.ncsuc
    ensures Last(h).e.ncsuc == if Last(h).t.ratio < 0.1 then 0 else Last(h).a.c.ncsuc + 1
  {
    hide StateOk, DoglegStep, Inputs, TrialAt, Factors, FactorsFollow, Ruled, Rescaled;
    if |h| == 1 {
      assert Init(h) == [];
    }
  }

  /** How long the next step may be, from the lengths and the gains of the trials so far. */
  lemma BoundMoves(g: Problem, h: History)
    requires Trace(g, h) && h != []
    ensures |Last(h).a.d| == |Last(h).p|
    ensures Rebound(Last(h), ScaledNorm(g.mach, Last(h).a.d, Last(h).p), Again(h), Last(h).e.delta)
  {
    hide StepOk, Joined, Gained, Agrees, ScaledNorm, Again;
    StepSizes(g.mach, g.fcn, Last(h));
    RatioMeans(g, h, 0.1);
    RatioMeans(g, h, 0.5);
    SuccessesCounted(g, h);
    BoundOf(g.mach, g.fcn, Last(h));
  }

  lemma BoundOf(mach: Machine, fcn: Fcn, s: Step)
    requires StepOk(mach, fcn, s)
    ensures var delta := if s.a.c.iter == 1 then Min(s.a.c.delta, s.t.pnorm) else s.a.c.delta;
      s.e.delta ==
      if s.t.ratio < 0.1 then delta / 2.0
      else if Abs(s.t.ratio - 1.0) <= 0.1 then 2.0 * s.t.pnorm
      else if s.t.ratio >= 0.5 || s.a.c.ncsuc > 0 then Max(delta, 2.0 * s.t.pnorm)
      else delta
  {
    hide Aimed, TrialAt, ScaledNorm;
  }

  /** The bound of a step is what the step before left, unless it is set with a new scale: with a new Jacobian while no
      trial point has been taken. Then it is factor |D x|, or factor itself at the origin. */
  lemma BoundKept(g: Problem, h: History)
    requires Trace(g, h) && h != []
    ensures |Last(h).a.d| == |Last(h).a.x|
    ensures var a := Last(h).a; var xnorm := ScaledNorm(g.mach, a.d, a.x);
      if |h| > 1 && (!a.c.jeval || a.c.iter > 1) then a.c.delta == Last(Init(h)).e.delta
      else a.x == g.x0 && a.c.jeval && a.c.delta == if xnorm > 0.0 then g.l.factor * xnorm else g.l.factor
  {
    hide StepOk, Joined, Gained;
    PointCarried(g, h);
    StateSizesOf(g, h);
    if |h| > 1 && (!Last(h).a.c.jeval || Last(h).a.c.iter > 1) {
      BoundCarried(g, h);
    } else {
      FirstIteration(g, h);
      FirstBound(g, h);
      StillAtStart(g, h);
    }
  }

  lemma StateSizesOf(g: Problem, h: History)
    requires Trace(g, h) && h != []
    ensures g.mach.Valid() && |Last(h).a.d| == |Last(h).a.x| == g.fcn.n && g.l.factor > 0.0
  {
    hide StepOk, Joined;
    StepSizes(g.mach, g.fcn, Last(h));
  }

  lemma BoundCarried(g: Problem, h: History)
    requires Trace(g, h) && |h| > 1 && (!Last(h).a.c.jeval || Last(h).a.c.iter > 1)
    ensures Last(h).a.c.delta == Last(Init(h)).e.delta
  {
    hide StepOk, StateOk, Factors, FactorsFollow, Ruled, Rescaled;
    CountersCarried(g, h);
  }

  lemma FirstBound(g: Problem, h: History)
    requires Trace(g, h) && h != [] && (|h| == 1 || (Last(h).a.c.jeval && Last(h).a.c.iter == 1))
    ensures g.mach.Valid() && |Last(h).a.d| == |Last(h).a.x|
    ensures var a := Last(h).a; var xnorm := ScaledNorm(g.mach, a.d, a.x);
      a.c.jeval && a.c.xnorm == xnorm && a.c.delta == if xnorm > 0.0 then g.l.factor * xnorm else g.l.factor
  {
    hide StepOk, StateOk, Factors, FactorsFollow, Ruled, Rescaled, StartBound;
    StateSizesOf(g, h);
    var a := Last(h).a;
    var xnorm := ScaledNorm(g.mach, a.d, a.x);
    StartMeans(g.l.factor, xnorm);
    if |h| == 1 {
      assert Init(h) == [];
    } else {
      CountersCarried(g, h);
    }
  }

  lemma {:induction false} StillAtStart(g: Problem, h: History)
    requires Trace(g, h) && h != [] && Last(h).a.c.iter == 1
    ensures Last(h).a.x == g.x0
    decreases |h|
  {
    hide StepOk, Joined, Gained;
    PointCarried(g, h);
    FirstIteration(g, h);
    if |h| > 1 {
      assert !Gained(h[|h| - 2], 0.0001);
      FirstIteration(g, Init(h));
      StepTaken(g, Init(h));
      StillAtStart(g, Init(h));
    }
  }

  /** With a nonsingular factor the first trial is as long as the Gauss-Newton step, or as that bound. */
  lemma FirstTrialLength(g: Problem, h: History)
    requires Trace(g, h) && |h| == 1 && Nonsingular(Upper(h[0].a.r, |h[0].a.x|))
    ensures |h[0].a.d| == |h[0].p| == |h[0].gn| == |h[0].a.x|
    ensures var s := h[0]; var xnorm := ScaledNorm(g.mach, s.a.d, g.x0);
      ScaledNorm(g.mach, s.a.d, s.p)
      == Min(ScaledNorm(g.mach, s.a.d, s.gn), if xnorm > 0.0 then g.l.factor * xnorm else g.l.factor)
  {
    hide StepOk, Joined, Nonsingular;
    BoundKept(g, h);
    AimedLength(g.mach, g.fcn, h[0]);
  }

  lemma AimedLength(mach: Machine, fcn: Fcn, s: Step)
    requires StepOk(mach, fcn, s) && Nonsingular(Upper(s.a.r, |s.a.x|))
    ensures mach.Valid() && |s.a.d| == |s.p| == |s.gn| == |s.a.x|
    ensures ScaledNorm(mach, s.a.d, s.p) == Min(ScaledNorm(mach, s.a.d, s.gn), s.a.c.delta)
  {
    hide FactorOk, TrialAt, After, DoglegStep, Nonsingular, ScaledNorm, Upper, Inputs, Mul, Residual;
    var r, y := Upper(s.a.r, |s.a.x|), Scale(-1.0, s.p);
    LengthOf(mach, r, s.a.d, s.a.qtf, s.a.c.delta, s.gn, y);
    assert s.p == Scale(-1.0, y);
    NegatedLength(mach, s.a.d, y, s.p);
  }

  lemma LengthOf(mach: Machine, a: Mat, d: Vec, b: Vec, delta: real, gn: Vec, x: Vec)
    requires mach.Valid() && Inputs(a, d, b, delta) && DoglegStep(mach, a, d, b, delta, gn, x) && Nonsingular(a)
    ensures |gn| == |d| == |x| && ScaledNorm(mach, d, x) == Min(ScaledNorm(mach, d, gn), delta)
  {
    hide Nonsingular, ScaledNorm, Mul, UpperTriangular, Pivoted;
    StepWithinRadius(mach, a, d, b, delta, gn, x);
  }
}
