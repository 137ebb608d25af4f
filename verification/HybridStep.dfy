/** One pass of the inner loop of hybrd and hybrj as a relation on values: the trial step, its measures, and the
    tests. */
module HybridStep {
  import opened Reals
  import opened Vectors
  import opened Machines
  import opened Packed
  import opened Users
  import opened DoglegPath
  import opened Dogleg
  import opened DoglegTheorems
  import opened Broyden
  import opened Scaling

  /** Q is orthogonal and qtf is transpose(Q) f. */
  ghost predicate FactorOk(q: Mat, qtf: Vec, f: Vec, n: nat) {
    && |q| == n && OrthonormalRows(q, n) && |f| == n && qtf == Comb(f, q, n)
  }

  /** |transpose(Q) f| = |f| */
  lemma QtfNorm(mach: Machine, q: Mat, qtf: Vec, f: Vec, n: nat)
    requires mach.Valid() && FactorOk(q, qtf, f, n)
    ensures mach.Norm(qtf) == mach.Norm(f)
  {
    OrthonormalIsometry(q, n, f);
  }

  lemma UpperIsTriangular(r: seq<real>, n: nat)
    requires |r| >= Slots(n)
    ensures UpperTriangular(Upper(r, n))
  {
    forall i, j | 0 <= j < i < n
      ensures Upper(r, n)[i][j] == 0.0
    {
      assert Upper(r, n)[i] == UpperRow(r, n, i);
    }
  }

  // ---- the quantities of a trial ----

  /** The scaled actual reduction of the norm. */
  function ActualReduction(fnorm: real, fnorm1: real): (a: real)
    requires fnorm >= 0.0 && fnorm1 >= 0.0
    ensures a > 0.0 <==> fnorm1 < fnorm
    ensures a <= 1.0
  {
    if fnorm1 < fnorm then
      RatioBelowOne(fnorm1, fnorm);
      1.0 - (fnorm1 / fnorm) * (fnorm1 / fnorm)
    else -1.0
  }

  /** The scaled reduction predicted by a model of norm temp. */
  function PredictedReduction(fnorm: real, temp: real): (p: real)
    requires fnorm >= 0.0 && temp >= 0.0
    ensures 0.0 <= p <= 1.0
    ensures p > 0.0 <==> temp < fnorm
  {
    if temp < fnorm then
      RatioBelowOne(temp, fnorm);
      1.0 - (temp / fnorm) * (temp / fnorm)
    else 0.0
  }

  lemma RatioBelowOne(a: real, b: real)
    requires 0.0 <= a < b
    ensures var q := a / b; 0.0 <= q * q < 1.0
  {
    var q := a / b;
    DivisionSign(a, b, q);
    assert q * b == a;
    if q >= 1.0 {
      NonnegProduct(q - 1.0, b, (q - 1.0) * b);
    }
    SquareOrder(q, 1.0, q * q, 1.0);
    SquareSign(q, q * q);
  }

  /** The ratio of actual to predicted reduction. */
  function Ratio(actred: real, prered: real): (ratio: real)
    ensures ratio > 0.0 ==> prered > 0.0 && actred > 0.0
  {
    if prered > 0.0 then
      DivisionSign(actred, prered, actred / prered);
      actred / prered
    else 0.0
  }

  /** What the solver knows of a trial step p. */
  datatype Trial = Trial(pnorm: real, fnorm1: real, actred: real, prered: real, ratio: real)

  function TrialOf(fnorm: real, pnorm: real, fnorm1: real, temp: real): (t: Trial)
    requires fnorm >= 0.0 && fnorm1 >= 0.0 && temp >= 0.0
    ensures t.pnorm == pnorm && t.fnorm1 == fnorm1 && (t.ratio > 0.0 ==> fnorm1 < fnorm)
  {
    var actred := ActualReduction(fnorm, fnorm1);
    var prered := PredictedReduction(fnorm, temp);
    Trial(pnorm, fnorm1, actred, prered, Ratio(actred, prered))
  }

  // ---- the control of a run ----

  /** The scalars a run keeps between trial steps. */
  datatype Control = Control(iter: nat, ncsuc: nat, ncfail: nat, nslow1: nat, nslow2: nat, jeval: bool,
                             delta: real, xnorm: real, fnorm: real)

  /** The step bound and the counters of consecutive successes and failures. */
  function UpdateBound(c: Control, t: Trial): Control {
    if t.ratio < 0.1 then
      c.(ncsuc := 0, ncfail := c.ncfail + 1, delta := 0.5 * c.delta)
    else
      var ncsuc := c.ncsuc + 1;
      var wider := if t.ratio >= 0.5 || ncsuc > 1 then Max(c.delta, t.pnorm / 0.5) else c.delta;
      c.(ncfail := 0, ncsuc := ncsuc, delta := if Abs(t.ratio - 1.0) <= 0.1 then t.pnorm / 0.5 else wider)
  }

  /** The test for a successful iteration. */
  predicate Success(t: Trial) {
    t.ratio >= 0.0001
  }

  /** The counters of slow progress. */
  function NoteProgress(c: Control, actred: real): Control {
    var nslow1 := if actred >= 0.001 then 0 else c.nslow1 + 1;
    var nslow2 := if actred >= 0.1 then 0 else if c.jeval then c.nslow2 + 1 else c.nslow2;
    c.(nslow1 := nslow1, nslow2 := nslow2)
  }

  /** How an inner iteration ends: with an info code, with a fresh Jacobian, with a rank-one update, or in the division
      by a zero step length. */
  datatype Verdict = Stop(info: int) | Refactor | Update | Undefined

  /** The bound is small against the scaled x. */
  predicate Tight(c: Control, tol: real) {
    c.delta <= tol * c.xnorm
  }

  /** The tests after a trial step. Later tests override earlier ones. */
  function Judge(mach: Machine, c: Control, pnorm: real, xtol: real, nfev: nat, maxfev: int): (v: Verdict)
    ensures v == Stop(1) <==> Tight(c, xtol) || c.fnorm == 0.0
    ensures !v.Stop? ==> nfev < maxfev && c.nslow2 != 5 && c.nslow1 != 10
    ensures v.Refactor? ==> c.ncfail == 2
    ensures v.Update? ==> c.ncfail != 2
    ensures v.Stop? ==> 1 <= v.info <= 5
    ensures !v.Undefined?
  {
    if Tight(c, xtol) || c.fnorm == 0.0 then Stop(1)
    else if c.nslow1 == 10 then Stop(5)
    else if c.nslow2 == 5 then Stop(4)
    else if 0.1 * Max(0.1 * c.delta, pnorm) <= mach.epsmch * c.xnorm then Stop(3)
    else if nfev >= maxfev then Stop(2)
    else if c.ncfail == 2 then Refactor
    else Update
  }

  // ---- one pass of the inner loop, as values ----

  /** Where a pass starts: the point, the scale, Q, the packed R, transpose(Q) f and the counters. */
  datatype State = State(x: Vec, d: Vec, q: Mat, r: seq<real>, qtf: Vec, c: Control)

  /** The invariant at the head of the inner loop: Q is orthogonal, qtf = transpose(Q) F(x), the scale and the bound are
      positive, and xnorm does not exceed |D x|. */
  ghost predicate StateOk(mach: Machine, fcn: Fcn, a: State) {
    && mach.Valid() && fcn.Valid() && 1 <= |a.x| == |a.d| == fcn.n == fcn.m && |a.r| >= Slots(|a.x|)
    && FactorOk(a.q, a.qtf, fcn.f(a.x), |a.x|) && Positive(a.d)
    && a.c.fnorm == mach.Norm(fcn.f(a.x)) && a.c.delta > 0.0 && a.c.iter >= 1
    && 0.0 <= a.c.xnorm <= ScaledNorm(mach, a.d, a.x)
  }

  /** p is the dogleg step at a. */
  ghost predicate Aimed(mach: Machine, fcn: Fcn, a: State, gn: Vec, p: Vec) {
    && StateOk(mach, fcn, a) && |p| == |a.x| && Inputs(Upper(a.r, |a.x|), a.d, a.qtf, a.c.delta)
    && DoglegStep(mach, Upper(a.r, |a.x|), a.d, a.qtf, a.c.delta, gn, Scale(-1.0, p))
  }

  /** dogleg's direction, negated. */
  lemma AimedAlong(mach: Machine, fcn: Fcn, a: State, r: Mat, gn: Vec, s: Vec, p: Vec)
    requires StateOk(mach, fcn, a) && r == Upper(a.r, |a.x|) && Inputs(r, a.d, a.qtf, a.c.delta)
    requires DoglegStep(mach, r, a.d, a.qtf, a.c.delta, gn, s) && p == Scale(-1.0, s)
    ensures Aimed(mach, fcn, a, gn, p)
  {
    hide StateOk, Upper;
    assert s == Scale(-1.0, p);
  }

  lemma DirectionInputs(mach: Machine, fcn: Fcn, a: State)
    requires StateOk(mach, fcn, a)
    ensures Inputs(Upper(a.r, |a.x|), a.d, a.qtf, a.c.delta)
  {
    UpperIsTriangular(a.r, |a.x|);
  }

  /** What is measured of the step p at a. */
  ghost function TrialAt(mach: Machine, fcn: Fcn, a: State, p: Vec): Trial
    requires StateOk(mach, fcn, a) && |p| == |a.x|
  {
    TrialOf(a.c.fnorm, ScaledNorm(mach, a.d, p), mach.Norm(fcn.f(Axpy(1.0, p, a.x))),
            mach.Norm(Axpy(1.0, Mul(Upper(a.r, |a.x|), p), a.qtf)))
  }

  lemma TrialFrom(mach: Machine, fcn: Fcn, a: State, p: Vec, f': Vec, model: Vec)
    requires StateOk(mach, fcn, a) && |p| == |a.x| && f' == fcn.f(Axpy(1.0, p, a.x))
    requires model == Axpy(1.0, Mul(Upper(a.r, |a.x|), p), a.qtf)
    ensures TrialAt(mach, fcn, a, p) == TrialOf(a.c.fnorm, ScaledNorm(mach, a.d, p), mach.Norm(f'), mach.Norm(model))
  {
  }

  /** On the first iteration the bound is cut to the step. */
  function Bound(c: Control, pnorm: real): real {
    if c.iter == 1 then Min(c.delta, pnorm) else c.delta
  }

  /** The counters after a trial, xnorm being the norm of the scaled trial point. */
  function After(c: Control, t: Trial, xnorm: real): Control {
    var b := UpdateBound(c.(delta := Bound(c, t.pnorm)), t);
    NoteProgress(if Success(t) then b.(xnorm := xnorm, fnorm := t.fnorm1, iter := b.iter + 1) else b, t.actred)
  }

  /** A pass from a: the step p, aimed at gn, its measures, and the counters afterwards. */
  datatype Step = Step(a: State, gn: Vec, p: Vec, t: Trial, e: Control) {
    function Point(): (y: Vec)
      requires |p| == |a.x|
    {
      Axpy(1.0, p, a.x)
    }

    /** The point after the pass. */
    function Next(): (y: Vec)
      requires |p| == |a.x|
    {
      if Success(t) then Point() else a.x
    }
  }

  ghost predicate StepOk(mach: Machine, fcn: Fcn, s: Step) {
    && Aimed(mach, fcn, s.a, s.gn, s.p) && s.t == TrialAt(mach, fcn, s.a, s.p)
    && s.e == After(s.a.c, s.t, ScaledNorm(mach, s.a.d, s.Point()))
  }

  /** How a pass ends: as the tests say, except that a rank-one update divides by the length of the step. */
  function Ruling(mach: Machine, s: Step, xtol: real, nfev: nat, maxfev: int): (v: Verdict)
    ensures v.Undefined? <==> s.t.pnorm == 0.0 && Judge(mach, s.e, s.t.pnorm, xtol, nfev, maxfev) == Update
    ensures v.Stop? ==> 1 <= v.info <= 5
  {
    var v := Judge(mach, s.e, s.t.pnorm, xtol, nfev, maxfev);
    if v.Update? && s.t.pnorm == 0.0 then Undefined else v
  }

  /** The factors were updated after the step s: what they were, what was observed, and what they are. */
  ghost predicate FactorsFollow(mach: Machine, fcn: Fcn, s: Step, q: Mat, r: seq<real>, up: Updating)
    requires mach.Valid() && fcn.Valid() && |s.p| == |s.a.x| == |s.a.d| == fcn.n
  {
    FactorsUpdated(mach, s.a.q, s.a.r, s.a.d, s.p, Axpy(-1.0, fcn.f(s.a.x), fcn.f(s.Point())), q, r, |s.a.x|, up)
  }

  // ---- what a pass achieves ----

  /** The step p = -s leaves the scaled length alone and turns the residual b - R s into b + R p. */
  lemma NegatedStep(mach: Machine, a: Mat, d: Vec, b: Vec, s: Vec, p: Vec)
    requires mach.Valid() && IsMat(a, |b|, |b|) && |d| == |s| == |p| == |b| && p == Scale(-1.0, s)
    ensures ScaledNorm(mach, d, p) == ScaledNorm(mach, d, s)
    ensures Axpy(1.0, Mul(a, p), b) == Residual(a, b, s)
  {
    MulScale(a, -1.0, s);
    NegatedLength(mach, d, s, p);
  }

  /** What dogleg guarantees of the step, seen from the solver: for nonsingular R the step stays in the region, and a
      nonzero residual is predicted to shrink. */
  lemma StepQuality(mach: Machine, a: Mat, q: Mat, d: Vec, qtf: Vec, f: Vec, delta: real, fnorm: real, gn: Vec, s: Vec,
                    p: Vec, model: Vec)
    requires mach.Valid() && Inputs(a, d, qtf, delta) && DoglegStep(mach, a, d, qtf, delta, gn, s) && Nonsingular(a)
    requires FactorOk(q, qtf, f, |qtf|) && fnorm == mach.Norm(f)
    requires p == Scale(-1.0, s) && model == Axpy(1.0, Mul(a, p), qtf)
    ensures ScaledNorm(mach, d, p) <= delta
    ensures fnorm > 0.0 ==> PredictedReduction(fnorm, mach.Norm(model)) > 0.0
  {
    StepWithinRadius(mach, a, d, qtf, delta, gn, s);
    NegatedStep(mach, a, d, qtf, s, p);
    if fnorm > 0.0 {
      QtfNorm(mach, q, qtf, f, |qtf|);
      ModelShrinks(mach, a, d, qtf, delta, gn, s);
    }
  }

  lemma ModelShrinks(mach: Machine, a: Mat, d: Vec, b: Vec, delta: real, gn: Vec, s: Vec)
    requires mach.Valid() && Inputs(a, d, b, delta) && DoglegStep(mach, a, d, b, delta, gn, s) && Nonsingular(a)
    requires mach.Norm(b) > 0.0
    ensures mach.Norm(Residual(a, b, s)) < mach.Norm(b)
  {
    hide Inputs, Dot, UpperTriangular, Pivoted, ScaledNorm, ScaledGradient, Blend, GradientWeight;
    NormZero(mach, b);
    StepDecreasesModel(mach, a, d, b, delta, gn, s);
    var z := Residual(a, b, s);
    SquareOrder(mach.Norm(z), mach.Norm(b), Dot(z, z), Dot(b, b));
  }

  lemma KernelOfZero(r: Mat, p: Vec, n: nat)
    requires IsMat(r, n, n) && |p| == n && forall i :: 0 <= i < n ==> p[i] == 0.0
    ensures Mul(r, p) == Zero(n)
  {
    forall i | 0 <= i < n
      ensures Mul(r, p)[i] == 0.0
    {
      DotRZero(r[i], p, 0, n);
    }
  }

  /** A step of length zero tries the point it starts from, and predicts no reduction. */
  lemma ZeroStep(mach: Machine, fcn: Fcn, a: State, p: Vec)
    requires StateOk(mach, fcn, a) && |p| == |a.x| && ScaledNorm(mach, a.d, p) == 0.0
    ensures p == Zero(|a.x|) && Axpy(1.0, p, a.x) == a.x
    ensures TrialAt(mach, fcn, a, p).prered == 0.0 && TrialAt(mach, fcn, a, p).ratio == 0.0
  {
    hide Zero, Axpy, Times, Upper, Mul, Slots, ScaledSquare;
    NormZero(mach, Times(a.d, p));
    forall i | 0 <= i < |p|
      ensures p[i] == 0.0
    {
      assert Times(a.d, p)[i] == 0.0;
      ZeroProduct(a.d[i], p[i]);
    }
    assert Axpy(1.0, p, a.x) == a.x;
    KernelOfZero(Upper(a.r, |a.x|), p, |a.x|);
    assert Axpy(1.0, Mul(Upper(a.r, |a.x|), p), a.qtf) == a.qtf;
    QtfNorm(mach, a.q, a.qtf, fcn.f(a.x), |a.x|);
  }

  lemma TrialPrediction(mach: Machine, fcn: Fcn, a: State, p: Vec, model: Vec)
    requires StateOk(mach, fcn, a) && |p| == |a.x| && model == Axpy(1.0, Mul(Upper(a.r, |a.x|), p), a.qtf)
    ensures TrialAt(mach, fcn, a, p).pnorm == ScaledNorm(mach, a.d, p)
    ensures TrialAt(mach, fcn, a, p).prered == PredictedReduction(a.c.fnorm, mach.Norm(model))
  {
    hide FactorOk, PredictedReduction, ActualReduction;
  }

  /** For nonsingular R the step stays within the bound, and a nonzero residual is predicted to shrink. */
  lemma StepPredicts(mach: Machine, fcn: Fcn, a: State, gn: Vec, p: Vec)
    requires Aimed(mach, fcn, a, gn, p) && Nonsingular(Upper(a.r, |a.x|))
    ensures TrialAt(mach, fcn, a, p).pnorm <= a.c.delta
    ensures a.c.fnorm > 0.0 ==> TrialAt(mach, fcn, a, p).prered > 0.0 && TrialAt(mach, fcn, a, p).pnorm > 0.0
  {
    hide DoglegStep, FactorOk, Nonsingular, UpperTriangular, PredictedReduction, TrialAt, Mul, ScaledNorm;
    var s, model := Scale(-1.0, p), Axpy(1.0, Mul(Upper(a.r, |a.x|), p), a.qtf);
    assert p == Scale(-1.0, s);
    TrialPrediction(mach, fcn, a, p, model);
    StepQuality(mach, Upper(a.r, |a.x|), a.q, a.d, a.qtf, fcn.f(a.x), a.c.delta, a.c.fnorm, gn, s, p, model);
    if ScaledNorm(mach, a.d, p) == 0.0 {
      ZeroStep(mach, fcn, a, p);
    }
  }

  /** What a pass does to the point and the counters. */
  ghost predicate Advanced(mach: Machine, fcn: Fcn, s: Step)
    requires mach.Valid() && fcn.Valid() && |s.p| == |s.a.x| == |s.a.d| == fcn.n
  {
    var c, e := s.a.c, s.e;
    && e.fnorm == mach.Norm(fcn.f(s.Next())) && 0.0 <= e.xnorm <= ScaledNorm(mach, s.a.d, s.Next())
    && (Success(s.t) ==> e.fnorm < c.fnorm && e.iter == c.iter + 1)
    && (!Success(s.t) ==> e.fnorm == c.fnorm && e.iter == c.iter && e.ncfail == c.ncfail + 1)
    && (e.ncfail == 0 || e.ncfail == c.ncfail + 1) && e.iter >= 1
  }

  lemma StateSizes(mach: Machine, fcn: Fcn, a: State)
    requires StateOk(mach, fcn, a)
    ensures mach.Valid() && fcn.Valid() && |a.x| == |a.d| == fcn.n == fcn.m
  {
  }

  lemma StepSizes(mach: Machine, fcn: Fcn, s: Step)
    requires StepOk(mach, fcn, s)
    ensures mach.Valid() && fcn.Valid() && |s.p| == |s.a.x| == |s.a.d| == fcn.n == fcn.m >= 1 && Positive(s.a.d)
  {
  }

  lemma StepAdvances(mach: Machine, fcn: Fcn, s: Step)
    requires StepOk(mach, fcn, s)
    ensures Advanced(mach, fcn, s)
  {
  }

  /** The length of a step is not negative; a step of length zero has no positive ratio. */
  lemma TrialLength(mach: Machine, fcn: Fcn, a: State, p: Vec, t: Trial)
    requires StateOk(mach, fcn, a) && |p| == |a.x| && t == TrialAt(mach, fcn, a, p)
    ensures t.pnorm == ScaledNorm(mach, a.d, p) >= 0.0 && (t.pnorm == 0.0 ==> t.ratio <= 0.0)
  {
    if t.pnorm == 0.0 {
      ZeroStep(mach, fcn, a, p);
    }
  }

  lemma BoundAfter(mach: Machine, c: Control, t: Trial, xnorm: real, e: Control, xtol: real, nfev: nat, maxfev: int)
    requires c.delta > 0.0 && c.xnorm >= 0.0 && xnorm >= 0.0 && e == After(c, t, xnorm) && xtol >= 0.0
    requires t.pnorm >= 0.0 && (t.pnorm == 0.0 ==> t.ratio <= 0.0)
    ensures e.delta >= 0.0 && (!Judge(mach, e, t.pnorm, xtol, nfev, maxfev).Stop? ==> e.delta > 0.0)
  {
    NonnegProduct(xtol, e.xnorm, xtol * e.xnorm);
  }

  /** The bound stays positive while the run goes on. */
  lemma BoundPositive(mach: Machine, fcn: Fcn, s: Step, xtol: real, nfev: nat, maxfev: int)
    requires StepOk(mach, fcn, s) && xtol >= 0.0
    ensures s.e.delta >= 0.0
    ensures !Ruling(mach, s, xtol, nfev, maxfev).Stop? ==> s.e.delta > 0.0
  {
    hide DoglegStep, FactorOk, TrialAt, Axpy, Mul, Times, After, Judge;
    TrialLength(mach, fcn, s.a, s.p, s.t);
    BoundAfter(mach, s.a.c, s.t, ScaledNorm(mach, s.a.d, s.Point()), s.e, xtol, nfev, maxfev);
  }

  /** Only a singular R can make the update divide by zero. */
  lemma UndefinedSingular(mach: Machine, fcn: Fcn, s: Step, xtol: real, nfev: nat, maxfev: int)
    requires StepOk(mach, fcn, s) && Ruling(mach, s, xtol, nfev, maxfev).Undefined?
    ensures s.a.c.fnorm > 0.0 && !Nonsingular(Upper(s.a.r, |s.a.x|))
  {
    hide DoglegStep, FactorOk, Nonsingular, UpperTriangular, TrialAt, Mul, ScaledNorm;
    StepAdvances(mach, fcn, s);
    if Nonsingular(Upper(s.a.r, |s.a.x|)) {
      StepPredicts(mach, fcn, s.a, s.gn, s.p);
    }
  }

  /** After a step of length zero the point and its norm are what they were. */
  lemma ZeroKeepsPoint(mach: Machine, fcn: Fcn, s: Step)
    requires StepOk(mach, fcn, s) && s.t.pnorm == 0.0
    ensures !Success(s.t) && s.e.fnorm == s.a.c.fnorm
  {
    hide DoglegStep, FactorOk, TrialAt, After, Inputs;
    TrialLength(mach, fcn, s.a, s.p, s.t);
    StepAdvances(mach, fcn, s);
  }

  /** Updated factors at the point reached make a state again. */
  lemma CarriedState(mach: Machine, fcn: Fcn, s: Step, a: State)
    requires StepOk(mach, fcn, s) && s.e.delta > 0.0 && |a.r| >= Slots(|a.x|)
    requires a.x == s.Next() && a.d == s.a.d && a.c == s.e.(jeval := false) && FactorOk(a.q, a.qtf, fcn.f(a.x), |a.x|)
    ensures StateOk(mach, fcn, a)
  {
    hide FactorOk, StepOk;
    StepSizes(mach, fcn, s);
    StepAdvances(mach, fcn, s);
  }

  lemma StepFactors(mach: Machine, fcn: Fcn, s: Step)
    requires StepOk(mach, fcn, s)
    ensures FactorOk(s.a.q, s.a.qtf, fcn.f(s.a.x), |s.a.x|) && s.t.pnorm == ScaledNorm(mach, s.a.d, s.p)
  {
  }
}
