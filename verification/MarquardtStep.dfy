/** One pass of the inner loop of lmder and lmdif as a relation on values: the trial step, its measures, and the
    tests. */
module MarquardtStep {
  import opened Reals
  import opened Vectors
  import opened Machines
  import opened Users
  import opened Dogleg
  import opened LeastSquares
  import opened Scaling
  import opened MarquardtChoice

  // ---- the quantities of a trial ----

  /** The scalars a run keeps between trial steps. */
  datatype Control = Control(iter: nat, delta: real, par: real, xnorm: real, fnorm: real)

  /** The tolerances and limits of a run. */
  datatype Limits = Limits(ftol: real, xtol: real, gtol: real, maxfev: int, mode: int, factor: real)

  /** What the solver knows of a trial step. */
  datatype Trial = Trial(pnorm: real, fnorm1: real, actred: real, prered: real, dirder: real, ratio: real)

  /** How an inner iteration ends: with an info code, with another step from the same point, or with a new point. */
  datatype Verdict = Stop(info: int) | Again | Next

  /** The scaled actual reduction. */
  function ActualReduction(fnorm: real, fnorm1: real): (a: real)
    requires fnorm > 0.0 && fnorm1 >= 0.0
    ensures a > 0.0 <==> fnorm1 < fnorm
    ensures a <= 1.0
  {
    if 0.1 * fnorm1 < fnorm then
      var q := fnorm1 / fnorm;
      QuotientSquare(fnorm1, fnorm, q);
      1.0 - q * q
    else -1.0
  }

  lemma QuotientSquare(a: real, b: real, q: real)
    requires a >= 0.0 && b > 0.0 && q == a / b
    ensures 0.0 <= q * q && (q * q < 1.0 <==> a < b)
  {
    DivisionSign(a, b, q);
    SquareSign(q, q * q);
    SquareOrder(q, 1.0, q * q, 1.0);
    ScaleOrder(b, q, 1.0, a, b);
  }

  /** The scaled squares of |J p| and of sqrt(par) |D p|. */
  function Scaled(t: real, fnorm: real): (s: real)
    requires fnorm > 0.0
    ensures s >= 0.0
  {
    SquareSign(t / fnorm, (t / fnorm) * (t / fnorm));
    (t / fnorm) * (t / fnorm)
  }

  /** The scaled predicted reduction, |J p|^2 + 2 par |D p|^2 over |f|^2. */
  function PredictedReduction(fnorm: real, jp: real, dp: real): (p: real)
    requires fnorm > 0.0
    ensures p >= 0.0
  {
    Scaled(jp, fnorm) + Scaled(dp, fnorm) / 0.5
  }

  /** The scaled directional derivative. */
  function Slope(fnorm: real, jp: real, dp: real): (p: real)
    requires fnorm > 0.0
    ensures p <= 0.0
  {
    -(Scaled(jp, fnorm) + Scaled(dp, fnorm))
  }

  function Ratio(actred: real, prered: real): (ratio: real)
    requires prered >= 0.0
    ensures ratio > 0.0 ==> actred > 0.0
  {
    if prered != 0.0 then
      DivisionSign(actred, prered, actred / prered);
      actred / prered
    else 0.0
  }

  function TrialOf(fnorm: real, pnorm: real, fnorm1: real, jp: real, dp: real): (t: Trial)
    requires fnorm > 0.0 && fnorm1 >= 0.0
    ensures t.pnorm == pnorm && t.fnorm1 == fnorm1
    ensures t.prered >= 0.0 && t.dirder <= 0.0 && (t.ratio > 0.0 ==> fnorm1 < fnorm)
  {
    var actred := ActualReduction(fnorm, fnorm1);
    var prered := PredictedReduction(fnorm, jp, dp);
    Trial(pnorm, fnorm1, actred, prered, Slope(fnorm, jp, dp), Ratio(actred, prered))
  }

  // ---- the step bound ----

  /** The sum that the shrinking factor divides by is not zero. */
  lemma SlopeSum(t: Trial)
    requires t.dirder <= 0.0 && t.actred < 0.0
    ensures t.dirder + 0.5 * t.actred < 0.0
  {
  }

  /** The factor a poor step shrinks the bound by. */
  function ShrinkBy(fnorm: real, t: Trial): (s: real)
    requires t.dirder <= 0.0
    ensures 0.1 <= s <= 0.5
  {
    var s := if t.actred >= 0.0 then 0.5 else Interpolated(t);
    if 0.1 * t.fnorm1 >= fnorm || s < 0.1 then 0.1 else s
  }

  function Interpolated(t: Trial): (s: real)
    requires t.dirder <= 0.0 && t.actred < 0.0
    ensures s <= 0.5
  {
    SlopeSum(t);
    HalfAtMost(t.dirder, t.actred, 0.5 * t.dirder / (t.dirder + 0.5 * t.actred));
    0.5 * t.dirder / (t.dirder + 0.5 * t.actred)
  }

  lemma HalfAtMost(d: real, a: real, q: real)
    requires d <= 0.0 && a < 0.0 && q == 0.5 * d / (d + 0.5 * a)
    ensures q <= 0.5
  {
    var s := d + 0.5 * a;
    assert q * s == 0.5 * d;
    if q > 0.5 {
      PositiveProduct(q - 0.5, -s, (q - 0.5) * -s);
    }
  }

  /** The step bound and the parameter after a trial from a point of norm fnorm. */
  function UpdateBound(c: Control, fnorm: real, t: Trial): Control
    requires t.dirder <= 0.0
  {
    if t.ratio <= 0.25 then
      var s := ShrinkBy(fnorm, t);
      c.(delta := s * Min(c.delta, t.pnorm / 0.1), par := c.par / s)
    else if c.par == 0.0 || t.ratio >= 0.75 then
      c.(delta := t.pnorm / 0.5, par := 0.5 * c.par)
    else c
  }

  lemma BoundShrinks(c: Control, fnorm: real, t: Trial)
    requires t.dirder <= 0.0 && c.delta >= 0.0 && c.par >= 0.0 && t.pnorm >= 0.0
    ensures UpdateBound(c, fnorm, t).par >= 0.0 && UpdateBound(c, fnorm, t).delta >= 0.0
    ensures t.ratio <= 0.25 ==> UpdateBound(c, fnorm, t).delta <= 0.5 * c.delta
  {
    if t.ratio <= 0.25 {
      var s := ShrinkBy(fnorm, t);
      var b := Min(c.delta, t.pnorm / 0.1);
      NonnegProduct(s, b, s * b);
      NonnegProduct(0.5 - s, b, (0.5 - s) * b);
      DivisionSign(c.par, s, c.par / s);
    }
  }

  // ---- the tests ----

  /** The test for a successful iteration. */
  predicate Success(t: Trial) {
    t.ratio >= 0.0001
  }

  /** Actual and predicted reduction are both at most tol, and their ratio is not above two. */
  predicate Small(t: Trial, tol: real) {
    Abs(t.actred) <= tol && t.prered <= tol && 0.5 * t.ratio <= 1.0
  }

  /** The bound is small against the scaled x. */
  predicate Tight(c: Control, tol: real) {
    c.delta <= tol * c.xnorm
  }

  lemma LooseIsPositive(c: Control, tol: real)
    requires !Tight(c, tol) && tol >= 0.0 && c.xnorm >= 0.0
    ensures c.delta > 0.0
  {
    NonnegProduct(tol, c.xnorm, tol * c.xnorm);
  }

  /** The tests after a trial step. Later tests override earlier ones. */
  function Judge(mach: Machine, c: Control, t: Trial, gnorm: real, l: Limits, nfev: nat): (v: Verdict)
    ensures v.Stop? ==> v.info in {1, 2, 3, 5, 6, 7, 8}
    ensures !v.Stop? ==> nfev < l.maxfev && !Tight(c, l.xtol) && !Tight(c, mach.epsmch)
    ensures v.Next? <==> !v.Stop? && Success(t)
  {
    if Small(t, l.ftol) && Tight(c, l.xtol) then Stop(3)
    else if Tight(c, l.xtol) then Stop(2)
    else if Small(t, l.ftol) then Stop(1)
    else if gnorm <= mach.epsmch then Stop(8)
    else if Tight(c, mach.epsmch) then Stop(7)
    else if Small(t, mach.epsmch) then Stop(6)
    else if nfev >= l.maxfev then Stop(5)
    else if Success(t) then Next
    else Again
  }

  // ---- the gradient ----

  /** g is the largest |<a, f>| / (|a| |f|) over the nonzero columns a, and 0 when there is none or f is zero. */
  ghost predicate LargestCosine(mach: Machine, j0: Mat, f: Vec, g: real)
    requires mach.Valid() && IsMat(j0, |j0|, |f|)
  {
    && g >= 0.0 && (mach.Norm(f) == 0.0 ==> g == 0.0)
    && (mach.Norm(f) > 0.0 ==> forall c :: 0 <= c < |j0| ==> CosineAtMost(mach, j0[c], f, g))
    && (g == 0.0 || exists c :: 0 <= c < |j0| && CosineIs(mach, j0[c], f, g))
  }

  ghost predicate CosineAtMost(mach: Machine, a: Vec, f: Vec, g: real)
    requires mach.Valid() && |a| == |f|
  {
    Abs(Dot(a, f)) <= g * (mach.Norm(a) * mach.Norm(f))
  }

  ghost predicate CosineIs(mach: Machine, a: Vec, f: Vec, g: real)
    requires mach.Valid() && |a| == |f|
  {
    mach.Norm(a) * mach.Norm(f) > 0.0 && Abs(Dot(a, f)) == g * (mach.Norm(a) * mach.Norm(f))
  }

  // ---- one pass of the inner loop, as values ----

  /** The scaled predicted reduction is the true decrease of the linear model, and the scaled slope its true
      derivative. */
  ghost predicate Exact(j0: Mat, f: Vec, p: Vec, t: Trial, m: nat) {
    |f| == m && Loses(j0, f, p, m, t.prered * Dot(f, f), t.dirder * Dot(f, f))
  }

  /** The step p takes loss off the square of the model, and its slope there is slope. */
  ghost predicate Loses(j0: Mat, f: Vec, p: Vec, m: nat, loss: real, slope: real) {
    && |p| == |j0| && IsMat(j0, |j0|, m) && |f| == m
    && var y := Image(j0, p, m); var s := Axpy(1.0, y, f);
       Dot(f, f) - Dot(s, s) == loss && Dot(f, y) == slope
  }

  /** (transpose(J) J + par D^2) p = -transpose(J) f, against every vector. */
  ghost predicate NormalStep(j0: Mat, f: Vec, d: Vec, p: Vec, par: real, m: nat) {
    && IsMat(j0, |j0|, m) && |f| == m && |p| == |d| == |j0|
    && forall y: Vec {:trigger Image(j0, y, m)} :: |y| == |j0| ==>
         Dot(Image(j0, p, m), Image(j0, y, m)) + par * Dot(Times(d, p), Times(d, y)) == -Dot(f, Image(j0, y, m))
  }

  /** Where a pass starts: the point, the scale, the Jacobian in columns, the norm of its scaled gradient, and the
      scalars. */
  datatype State = State(x: Vec, d: Vec, j0: Mat, gnorm: real, c: Control)

  /** The invariant at the head of the inner loop. */
  ghost predicate StateOk(mach: Machine, fcn: Fcn, a: State) {
    && mach.Valid() && fcn.Valid() && 1 <= |a.x| == |a.d| == fcn.n <= fcn.m && IsMat(a.j0, fcn.n, fcn.m)
    && Positive(a.d) && a.c.fnorm == mach.Norm(fcn.f(a.x)) > 0.0 && a.c.delta > 0.0 && a.c.par >= 0.0 && a.c.iter >= 1
    && 0.0 <= a.c.xnorm <= ScaledNorm(mach, a.d, a.x) && LargestCosine(mach, a.j0, fcn.f(a.x), a.gnorm)
  }

  /** p is the Levenberg-Marquardt step for the damping par, and lmpar's search for the bound and the earlier damping of
      the state ends with it. */
  ghost predicate Aimed(mach: Machine, fcn: Fcn, a: State, par: real, p: Vec) {
    && StateOk(mach, fcn, a) && |p| == |a.x| && par >= 0.0
    && NormalStep(a.j0, fcn.f(a.x), a.d, p, par, fcn.m)
    && Chosen(mach, a.j0, fcn.f(a.x), a.d, a.c.delta, a.c.par, par, p, fcn.m)
  }

  /** t measures the step p at a: the prediction is the decrease of |f + J p|^2, the slope its derivative along p. */
  ghost predicate Measured(mach: Machine, fcn: Fcn, a: State, p: Vec, t: Trial)
    requires StateOk(mach, fcn, a) && |p| == |a.x|
  {
    && Exact(a.j0, fcn.f(a.x), p, t, fcn.m) && t.prered >= 0.0 && t.dirder <= 0.0
    && t.pnorm == ScaledNorm(mach, a.d, p) && t.fnorm1 == mach.Norm(fcn.f(Axpy(1.0, p, a.x)))
    && t.actred == ActualReduction(a.c.fnorm, t.fnorm1) && t.ratio == Ratio(t.actred, t.prered)
  }

  /** On the first iteration the bound is cut to the step. */
  function Bound(c: Control, pnorm: real): real {
    if c.iter == 1 then Min(c.delta, pnorm) else c.delta
  }

  /** The scalars after a trial with damping par, xnorm being the norm of the scaled trial point. */
  function After(c: Control, par: real, t: Trial, xnorm: real): Control
    requires t.dirder <= 0.0
  {
    var b := UpdateBound(c.(delta := Bound(c, t.pnorm), par := par), c.fnorm, t);
    if Success(t) then b.(xnorm := xnorm, fnorm := t.fnorm1, iter := b.iter + 1) else b
  }

  /** A pass from a: the damping, the step p, its measures, and the scalars afterwards. */
  datatype Step = Step(a: State, par: real, p: Vec, t: Trial, e: Control) {
    function Point(): (y: Vec)
      requires |p| == |a.x|
    {
      Axpy(1.0, p, a.x)
    }

    /** The point after the pass. */
    function Next(): (y: Vec)
      requires |p| == |a.x|
    {
      if Success(t) then Point() else a.x
    }
  }

  ghost predicate StepOk(mach: Machine, fcn: Fcn, s: Step) {
    && Aimed(mach, fcn, s.a, s.par, s.p) && Measured(mach, fcn, s.a, s.p, s.t)
    && s.e == After(s.a.c, s.par, s.t, ScaledNorm(mach, s.a.d, s.Point()))
  }

  lemma StateSizes(mach: Machine, fcn: Fcn, a: State)
    requires StateOk(mach, fcn, a)
    ensures mach.Valid() && fcn.Valid() && |a.x| == |a.d| == fcn.n <= fcn.m && IsMat(a.j0, fcn.n, fcn.m)
  {
  }

  lemma StepSizes(mach: Machine, fcn: Fcn, s: Step)
    requires StepOk(mach, fcn, s)
    ensures mach.Valid() && fcn.Valid() && |s.p| == |s.a.x| == |s.a.d| == fcn.n >= 1 && Positive(s.a.d)
    ensures s.t.dirder <= 0.0
    ensures IsMat(s.a.j0, fcn.n, fcn.m) && s.a.c.iter >= 1
  {
  }

  /** What a pass does to the point and the scalars: a successful one lowers the norm, an unsuccessful one at least
      halves the bound. */
  ghost predicate Advanced(mach: Machine, fcn: Fcn, s: Step)
    requires mach.Valid() && fcn.Valid() && |s.p| == |s.a.x| == |s.a.d| == fcn.n
  {
    var c, e := s.a.c, s.e;
    && e.fnorm == mach.Norm(fcn.f(s.Next())) && 0.0 <= e.xnorm <= ScaledNorm(mach, s.a.d, s.Next())
    && e.delta >= 0.0 && e.par >= 0.0
    && (Success(s.t) ==> e.fnorm < c.fnorm && e.iter == c.iter + 1)
    && (!Success(s.t) ==> e.fnorm == c.fnorm && e.iter == c.iter && e.xnorm == c.xnorm && e.delta <= 0.5 * c.delta)
  }

  lemma StepAdvances(mach: Machine, fcn: Fcn, s: Step)
    requires StepOk(mach, fcn, s)
    ensures Advanced(mach, fcn, s)
  {
    hide Exact, NormalStep, Chosen, ShrinkBy, LargestCosine;
    BoundShrinks(s.a.c.(delta := Bound(s.a.c, s.t.pnorm), par := s.par), s.a.c.fnorm, s.t);
  }

  /** The bound stays positive while the run goes on. */
  lemma BoundPositive(mach: Machine, fcn: Fcn, s: Step, gnorm: real, l: Limits, nfev: nat)
    requires StepOk(mach, fcn, s) && l.xtol >= 0.0 && !Judge(mach, s.e, s.t, gnorm, l, nfev).Stop?
    ensures s.e.delta > 0.0
  {
    hide StepOk;
    StepSizes(mach, fcn, s);
    StepAdvances(mach, fcn, s);
    LooseIsPositive(s.e, l.xtol);
  }

  lemma AimedSizes(mach: Machine, fcn: Fcn, a: State, par: real, p: Vec)
    requires Aimed(mach, fcn, a, par, p)
    ensures |p| == |a.x| == |a.d| == fcn.n
  {
  }

  lemma MeasuredParts(mach: Machine, fcn: Fcn, a: State, p: Vec, t: Trial)
    requires StateOk(mach, fcn, a) && |p| == |a.x| && Measured(mach, fcn, a, p, t)
    ensures t.dirder <= 0.0 && t.pnorm == ScaledNorm(mach, a.d, p) && t.fnorm1 == mach.Norm(fcn.f(Axpy(1.0, p, a.x)))
  {
  }

  /** After a rejected step the state is good for another. */
  lemma RejectedState(mach: Machine, fcn: Fcn, s: Step, gnorm: real, l: Limits, nfev: nat)
    requires StepOk(mach, fcn, s) && l.xtol >= 0.0 && Judge(mach, s.e, s.t, gnorm, l, nfev).Again?
    ensures StateOk(mach, fcn, s.a.(c := s.e)) && !Success(s.t)
  {
    hide Exact, NormalStep, Chosen, LargestCosine, Measured, After;
    StepAdvances(mach, fcn, s);
    BoundPositive(mach, fcn, s, gnorm, l, nfev);
  }

  /** w is how lmpar found the step s, and the length of D p against the bound is what its search allows; for
      independent columns it is within a tenth of the bound, or undamped and not longer than that, unless ten
      evaluations left it too long. */
  ghost predicate FitsBound(mach: Machine, fcn: Fcn, s: Step, w: Choice) {
    && ChosenBy(mach, s.a.j0, fcn.f(s.a.x), s.a.d, s.a.c.delta, s.a.c.par, s.par, s.p, fcn.m, w) && |s.p| == |s.a.d|
    && var length, delta := ScaledNorm(mach, s.a.d, s.p), s.a.c.delta;
       Fits(mach, delta, s.par, length, w.s)
       && (Independent(s.a.j0, fcn.m) ==>
             (s.par == 0.0 || 0.9 * delta <= length) && (length <= 1.1 * delta || (s.par != 0.0 && w.s.iter == 10)))
  }

  lemma StepFits(mach: Machine, fcn: Fcn, s: Step) returns (w: Choice)
    requires StepOk(mach, fcn, s)
    ensures FitsBound(mach, fcn, s, w)
  {
    hide ChosenBy, Fits, Independent, Measured, NormalStep, StateOk, After;
    w :| ChosenBy(mach, s.a.j0, fcn.f(s.a.x), s.a.d, s.a.c.delta, s.a.c.par, s.par, s.p, fcn.m, w);
    ChoiceFits(mach, s.a.j0, fcn.f(s.a.x), s.a.d, s.a.c.delta, s.a.c.par, s.par, s.p, fcn.m, w);
    if Independent(s.a.j0, fcn.m) {
      IndependentFits(mach, s.a.j0, fcn.f(s.a.x), s.a.d, s.a.c.delta, s.a.c.par, s.par, s.p, fcn.m, w);
    }
  }
}
