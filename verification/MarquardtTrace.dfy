/** A run of the Levenberg-Marquardt method as the sequence of its trial steps: which sequences are runs, and what holds
    of all of them. */
module MarquardtTrace {
  import opened Reals
  import opened Vectors
  import opened Machines
  import opened Users
  import opened Runs
  import opened Dogleg
  import opened Scaling
  import opened MarquardtChoice
  import opened MarquardtStep

  /** The function with the columns of its Jacobian as the solver forms them, at cost calls each, the start, the scale
      the caller gave, and the limits. */
  datatype Problem = Problem(mach: Machine, fcn: Fcn, jac: Vec -> Mat, cost: nat, x0: Vec, d0: Vec, l: Limits)

  ghost predicate ProblemOk(g: Problem) {
    && g.mach.Valid() && g.fcn.Valid() && 1 <= |g.x0| == |g.d0| == g.fcn.n <= g.fcn.m
    && g.l.xtol >= 0.0 && g.l.gtol >= 0.0 && g.l.factor > 0.0 && (g.l.mode == 2 ==> Positive(g.d0))
    && forall x: Vec {:trigger g.jac(x)} :: |x| == g.fcn.n ==> IsMat(g.jac(x), g.fcn.n, g.fcn.m)
  }

  type History = seq<Step>

  /** The number of Jacobians the steps of h were taken with: one for every iteration. */
  function Jacobians(h: History): nat {
    if h == [] then 0 else Last(h).a.c.iter
  }

  /** The number of calls when the last step of h has been judged. */
  function Calls(g: Problem, h: History): nat {
    1 + |h| + g.cost * Jacobians(h)
  }

  /** How the last step of h ends. */
  function Ruled(g: Problem, h: History): Verdict
    requires h != []
  {
    Judge(g.mach, Last(h).e, Last(h).t, Last(h).a.gnorm, g.l, Calls(g, h))
  }

  // ---- the steps of a run ----

  /** The scale comes from the columns of the Jacobian and the scale d before it. */
  ghost predicate Rescaled(g: Problem, first: bool, d: Vec, a: State)
    requires ProblemOk(g) && StateOk(g.mach, g.fcn, a) && |d| == |a.x|
  {
    forall j :: 0 <= j < |a.x| ==> a.d[j] == ScaleAt(first, g.l.mode, g.mach.Norm(g.jac(a.x)[j]), d[j])
  }

  /** The scalars when the function has been evaluated at the start. */
  ghost function Started(g: Problem): Control
    requires ProblemOk(g)
  {
    Control(1, 0.0, 0.0, 0.0, g.mach.Norm(g.fcn.f(g.x0)))
  }

  /** The scalars with the first bound and the norm of x for the scale just chosen. */
  ghost function Bounded(g: Problem, c: Control, a: State): Control
    requires ProblemOk(g) && StateOk(g.mach, g.fcn, a)
  {
    var xnorm := ScaledNorm(g.mach, a.d, a.x);
    c.(delta := StartBound(g.l.factor, xnorm), xnorm := xnorm)
  }

  /** A new Jacobian at the point x, with scalars c and scale d from before; its gradient is not small. */
  ghost predicate Renewed(g: Problem, x: Vec, d: Vec, c: Control, a: State)
    requires ProblemOk(g) && StateOk(g.mach, g.fcn, a) && |d| == |a.x|
  {
    && a.x == x && a.j0 == g.jac(x) && a.gnorm > g.l.gtol && Rescaled(g, c.iter == 1, d, a)
    && a.c == if c.iter == 1 then Bounded(g, c, a) else c
  }

  /** The next step starts from a: with a new Jacobian at the beginning and after a success, otherwise with the same. */
  ghost predicate Joined(g: Problem, h: History, a: State)
    requires ProblemOk(g) && (h != [] ==> StepOk(g.mach, g.fcn, Last(h)))
  {
    && StateOk(g.mach, g.fcn, a)
    && if h == [] then Renewed(g, g.x0, g.d0, Started(g), a)
       else
         var s := Last(h);
         if Success(s.t) then Ruled(g, h).Next? && Renewed(g, s.Next(), s.a.d, s.e, a)
         else Ruled(g, h).Again? && a == s.a.(c := s.e)
  }

  /** h is a run as far as it has come. */
  ghost predicate Trace(g: Problem, h: History)
    decreases |h|
  {
    && ProblemOk(g)
    && (h != [] ==> Trace(g, Init(h)) && Joined(g, Init(h), Last(h).a) && StepOk(g.mach, g.fcn, Last(h)))
  }

  /** The point reached. */
  function Reached(g: Problem, h: History): Vec
    requires h != [] ==> |Last(h).p| == |Last(h).a.x|
  {
    if h == [] then g.x0 else Last(h).Next()
  }

  lemma TraceExtends(g: Problem, h: History, s: Step)
    requires Trace(g, h) && Joined(g, h, s.a) && StepOk(g.mach, g.fcn, s)
    ensures Trace(g, h + [s]) && Init(h + [s]) == h && Last(h + [s]) == s
    ensures Calls(g, h + [s]) == 2 + |h| + g.cost * s.a.c.iter
  {
    hide StepOk, Joined;
    assert Init(h + [s]) == h;
  }

  // ---- what holds of every run ----

  lemma JoinedPoint(g: Problem, h: History, a: State)
    requires ProblemOk(g) && (h != [] ==> StepOk(g.mach, g.fcn, Last(h))) && Joined(g, h, a)
    ensures a.x == Reached(g, h) && a.j0 == (if h != [] && !Success(Last(h).t) then Last(h).a.j0 else g.jac(a.x))
    ensures a.c.iter == (if h == [] then 1 else Last(h).e.iter)
    ensures h != [] ==> !Ruled(g, h).Stop?
  {
    hide StateOk, Ruled, Rescaled, Measured, NormalStep, Chosen, After;
    if h != [] {
      StepSizes(g.mach, g.fcn, Last(h));
    }
  }

  /** The norm never grows, and has fallen exactly when an iteration has succeeded; until then the point is the start.
      The Jacobian of a step is that at its point, and there are no more iterations than calls. */
  lemma {:induction false} RunDescends(g: Problem, h: History)
    requires Trace(g, h)
    ensures h != [] ==> StepOk(g.mach, g.fcn, Last(h)) && Last(h).a.j0 == g.jac(Last(h).a.x)
    ensures h != [] ==> 1 <= Last(h).a.c.iter <= |h| && Last(h).e.iter <= |h| + 1
    ensures |Reached(g, h)| == g.fcn.n
    ensures g.mach.Norm(g.fcn.f(Reached(g, h))) <= g.mach.Norm(g.fcn.f(g.x0))
    ensures Reached(g, h) == g.x0 || g.mach.Norm(g.fcn.f(Reached(g, h))) < g.mach.Norm(g.fcn.f(g.x0))
    decreases |h|
  {
    if h != [] {
      hide StateOk, Measured, NormalStep, Chosen, After, Joined;
      RunDescends(g, Init(h));
      StepAdvances(g.mach, g.fcn, Last(h));
      StepSizes(g.mach, g.fcn, Last(h));
      JoinedPoint(g, Init(h), Last(h).a);
    }
  }

  /** The calls stay within the limit, up to the step that reaches it. */
  lemma CallsBounded(g: Problem, h: History)
    requires Trace(g, h)
    ensures Calls(g, h) <= MaxInt(g.l.maxfev, 2) + g.cost
    ensures h != [] && !Ruled(g, h).Stop? ==> Calls(g, h) < g.l.maxfev
  {
    hide StepOk, Joined, Judge;
    if |h| > 1 {
      var i := Init(h);
      RunDescends(g, i);
      JoinedPoint(g, i, Last(h).a);
      StepSizes(g.mach, g.fcn, Last(i));
      StepAdvances(g.mach, g.fcn, Last(i));
      CostStep(g.cost, Last(i).a.c.iter, Last(h).a.c.iter);
    } else if |h| == 1 {
      assert Init(h) == [];
      JoinedPoint(g, [], Last(h).a);
    }
  }

  lemma CostStep(cost: nat, i: nat, j: nat)
    requires j <= i + 1
    ensures cost * j <= cost * i + cost
  {
    var t := i + 1 - j;
    assert cost * (i + 1) == cost * j + cost * t && cost * (i + 1) == cost * i + cost;
  }

  // ---- rejections ----

  /** 2^r */
  function Pow2(r: nat): (p: real)
    ensures p >= 1.0
  {
    if r == 0 then 1.0 else 2.0 * Pow2(r - 1)
  }

  /** The steps from the k-th on were all rejected. */
  ghost predicate Rejected(h: History, k: nat) {
    forall i :: k <= i < |h| ==> !Success(h[i].t)
  }

  /** r rejections in a row, with the run going on, have cut the bound from that of the first to at most 2^-r of it, and
      there is still room above epsmch xnorm: so their number is bounded by the bound they began with. */
  lemma {:induction false} RejectionsBounded(g: Problem, h: History, k: nat)
    requires Trace(g, h) && k < |h| && Rejected(h, k) && !Ruled(g, h).Stop?
    ensures Last(h).e.xnorm == h[k].a.c.xnorm && Last(h).e.delta * Pow2(|h| - k) <= h[k].a.c.delta
    ensures Pow2(|h| - k) * (g.mach.epsmch * h[k].a.c.xnorm) < h[k].a.c.delta
    decreases |h|
  {
    hide StepOk, Joined, Success, Judge, Tight, Step.Next, StateOk, ProblemOk, Calls, After, Aimed, Measured;
    hide LargestCosine, NormalStep;
    StepSizes(g.mach, g.fcn, Last(h));
    StepAdvances(g.mach, g.fcn, Last(h));
    assert !Success(h[|h| - 1].t);
    if k < |h| - 1 {
      var i := Init(h);
      assert Rejected(i, k) && Last(i) == h[|h| - 2] && h[k] == i[k];
      RejectedJoins(g, h);
      RejectionsBounded(g, i, k);
    }
    HalvedAgain(h[k].a.c.delta, Last(h).a.c.delta, |h| - 1 - k, Last(h).e.delta);
    RoomLeft(g.mach, h[k].a.c.delta, Last(h).e, |h| - k);
  }

  lemma RejectedJoins(g: Problem, h: History)
    requires Trace(g, h) && |h| > 1 && !Success(Last(Init(h)).t)
    ensures Last(h).a.c == Last(Init(h)).e && !Ruled(g, Init(h)).Stop?
  {
    hide StepOk, StateOk, Ruled;
  }

  lemma HalvedAgain(delta0: real, delta: real, r: nat, delta': real)
    requires delta * Pow2(r) <= delta0 && delta' <= 0.5 * delta
    ensures delta' * Pow2(r + 1) <= delta0
  {
    var p := Pow2(r);
    NonnegProduct(0.5 * delta - delta', 2.0 * p, (0.5 * delta - delta') * (2.0 * p));
  }

  lemma RoomLeft(mach: Machine, delta0: real, e: Control, r: nat)
    requires e.delta * Pow2(r) <= delta0 && !Tight(e, mach.epsmch)
    ensures Pow2(r) * (mach.epsmch * e.xnorm) < delta0
  {
    var p, t := Pow2(r), mach.epsmch * e.xnorm;
    ScaleOrder(p, t, e.delta, p * t, p * e.delta);
  }

  // ---- why a run ends ----

  /** What an info code says of the last step and of the point reached. */
  ghost predicate Reported(g: Problem, h: History, info: int)
    requires h != [] && |Last(h).p| == |Last(h).a.x| == |Last(h).a.d| && g.mach.Valid()
  {
    var s := Last(h);
    var reach := ScaledNorm(g.mach, s.a.d, s.Next());
    && info in {1, 2, 3, 5, 6, 7, 8}
    && (info == 1 || info == 3 ==> Small(s.t, g.l.ftol))
    && (info == 2 || info == 3 ==> s.e.delta <= g.l.xtol * reach)
    && (info == 5 ==> Calls(g, h) >= g.l.maxfev)
    && (info == 6 ==> Small(s.t, g.mach.epsmch))
    && (info == 7 ==> s.e.delta <= g.mach.epsmch * reach)
    && (info == 8 ==> s.a.gnorm <= g.mach.epsmch)
  }

  lemma LargerReach(tol: real, a: real, b: real, ta: real, tb: real)
    requires tol >= 0.0 && a <= b && ta == tol * a && tb == tol * b
    ensures ta <= tb
  {
    NonnegProduct(tol, b - a, tol * (b - a));
  }

  lemma JudgeSays(mach: Machine, e: Control, t: Trial, gnorm: real, l: Limits, nfev: nat, reach: real)
    requires mach.Valid() && l.xtol >= 0.0 && e.xnorm <= reach && Judge(mach, e, t, gnorm, l, nfev).Stop?
    ensures var info := Judge(mach, e, t, gnorm, l, nfev).info;
      && info in {1, 2, 3, 5, 6, 7, 8}
      && (info == 1 || info == 3 ==> Small(t, l.ftol))
      && (info == 2 || info == 3 ==> e.delta <= l.xtol * reach)
      && (info == 5 ==> nfev >= l.maxfev)
      && (info == 6 ==> Small(t, mach.epsmch))
      && (info == 7 ==> e.delta <= mach.epsmch * reach)
      && (info == 8 ==> gnorm <= mach.epsmch)
  {
    var tx, tr, px, pr := l.xtol * e.xnorm, l.xtol * reach, mach.epsmch * e.xnorm, mach.epsmch * reach;
    LargerReach(l.xtol, e.xnorm, reach, tx, tr);
    LargerReach(mach.epsmch, e.xnorm, reach, px, pr);
    JudgedBy(mach, e, t, gnorm, l, nfev, tx, px);
    hide Judge, Small;
  }

  /** The tests, with their products by name. */
  lemma JudgedBy(mach: Machine, e: Control, t: Trial, gnorm: real, l: Limits, nfev: nat, tx: real, px: real)
    requires tx == l.xtol * e.xnorm && px == mach.epsmch * e.xnorm && Judge(mach, e, t, gnorm, l, nfev).Stop?
    ensures var info := Judge(mach, e, t, gnorm, l, nfev).info;
      && info in {1, 2, 3, 5, 6, 7, 8}
      && (info == 1 || info == 3 ==> Small(t, l.ftol)) && (info == 2 || info == 3 ==> e.delta <= tx)
      && (info == 5 ==> nfev >= l.maxfev) && (info == 6 ==> Small(t, mach.epsmch)) && (info == 7 ==> e.delta <= px)
      && (info == 8 ==> gnorm <= mach.epsmch)
  {
    hide Small;
  }

  lemma RunReports(g: Problem, h: History)
    requires Trace(g, h) && h != [] && Ruled(g, h).Stop?
    ensures |Last(h).p| == |Last(h).a.x| == |Last(h).a.d| == g.fcn.n
    ensures Reported(g, h, Ruled(g, h).info)
  {
    hide StepOk, Joined, Judge, Small;
    var s := Last(h);
    StepSizes(g.mach, g.fcn, s);
    StepAdvances(g.mach, g.fcn, s);
    JudgeSays(g.mach, s.e, s.t, s.a.gnorm, g.l, Calls(g, h), ScaledNorm(g.mach, s.a.d, s.Next()));
  }

  /** Every step of a run follows from the steps before it. */
  lemma {:induction false} StepOfRun(g: Problem, h: History, i: nat)
    requires Trace(g, h) && i < |h|
    ensures Trace(g, h[..i]) && (i > 0 ==> StepOk(g.mach, g.fcn, Last(h[..i])))
    ensures Joined(g, h[..i], h[i].a) && StepOk(g.mach, g.fcn, h[i])
    decreases |h|
  {
    hide StepOk, Joined;
    if i < |h| - 1 {
      StepOfRun(g, Init(h), i);
      assert Init(h)[..i] == h[..i];
    }
  }

  /** Every step of a run meets the bound it was tried with, as lmpar's search allows. Where the columns of the Jacobian
      are independent it is within a tenth of the bound, or undamped and not longer than that, unless ten evaluations
      left it too long. */
  lemma StepMeetsBound(g: Problem, h: History, i: nat) returns (w: Choice)
    requires Trace(g, h) && i < |h|
    ensures StepOk(g.mach, g.fcn, h[i]) && h[i].a.j0 == g.jac(h[i].a.x)
    ensures FitsBound(g.mach, g.fcn, h[i], w)
  {
    hide Joined, StepOk, FitsBound;
    StepOfRun(g, h, i);
    StepJacobian(g, h, i);
    w := StepFits(g.mach, g.fcn, h[i]);
  }

  /** The Jacobian of a step is that at its point. */
  lemma StepJacobian(g: Problem, h: History, i: nat)
    requires Trace(g, h) && i < |h|
    ensures h[i].a.j0 == g.jac(h[i].a.x)
  {
    hide StepOk, Joined;
    if i + 1 < |h| {
      StepOfRun(g, h, i + 1);
    } else {
      assert h[..i + 1] == h;
    }
    RunDescends(g, h[..i + 1]);
  }
}
