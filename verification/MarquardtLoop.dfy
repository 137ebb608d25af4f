/** What lmder and lmdif share around their Jacobians: the first scale, the gradient test, and the inner loop. */
module MarquardtLoop {
  import opened Reals
  import opened Vectors
  import opened Machines
  import opened Arrays
  import opened Users
  import opened Runs
  import opened Dogleg
  import opened Qrfac
  import opened Scaling
  import opened MarquardtStep
  import opened MarquardtTrace
  import opened Marquardt
  import opened MarquardtGradient

  /** The input tests. */
  predicate Proper(k: Work, l: Limits)
    requires k.diag.Length == k.n
    reads k.diag
  {
    Admissible(k.n, l.xtol, l.maxfev, l.mode, l.factor, k.diag[..]) && k.m >= k.n && l.ftol >= 0.0 && l.gtol >= 0.0
  }

  method CheckInputs(k: Work, l: Limits) returns (ok: bool)
    requires k.diag.Length == k.n
    ensures ok == Proper(k, l)
  {
    if k.n <= 0 || k.m < k.n || l.ftol < 0.0 || l.xtol < 0.0 || l.gtol < 0.0 || l.maxfev <= 0 || l.factor <= 0.0 {
      return false;
    }
    ok := true;
    if l.mode == 2 {
      ok := CheckScale(k.diag);
    }
  }

  // ---- a fresh Jacobian ----

  /** The scalars after a Jacobian. */
  ghost predicate Rebounded(mach: Machine, c: Control, d: Control, diag: Vec, x: Vec, factor: real)
    requires mach.Valid() && |diag| == |x|
  {
    && d == c.(delta := d.delta, xnorm := d.xnorm)
    && BoundSet(mach, c.iter, c.delta, c.xnorm, d.delta, d.xnorm, diag, x, factor)
  }

  /** Scale and bound of the first iteration. */
  method ScaleFirst(mach: Machine, k: Work, c: Control, l: Limits) returns (d: Control)
    requires mach.Valid() && k.Shapes() && Scalable(c.iter, l.mode, l.factor, k.diag[..])
    requires forall j :: 0 <= j < k.n ==> k.wa2[j] >= 0.0
    modifies k.diag, k.wa3
    ensures Positive(k.diag[..]) && Rebounded(mach, c, d, k.diag[..], k.x[..], l.factor)
    ensures c.iter > 1 ==> k.diag[..] == old(k.diag[..])
    ensures c.iter == 1 ==> forall j :: 0 <= j < k.n ==> k.diag[j] == ScaleAt(true, l.mode, k.wa2[j], old(k.diag[j]))
  {
    hide StartBound;
    d := c;
    if c.iter == 1 {
      var delta, xnorm := StartScale(mach, k.x[..], k.wa2[..], k.diag, l.mode, l.factor, k.wa3);
      d := d.(delta := delta, xnorm := xnorm);
    }
  }

  /** The factorization, the first scale if it is wanted, transpose(Q) f, and the gradient's norm. */
  method FactorJacobian(mach: Machine, k: Work, c: Control, l: Limits, ghost j0: Mat) returns (d: Control, gnorm: real)
    requires mach.Valid() && k.Shapes() && Scalable(c.iter, l.mode, l.factor, k.diag[..])
    requires ColsOf(k.fjac) == j0 && c.fnorm == mach.Norm(k.fvec[..])
    modifies k.fjac, k.diag, k.qtf, k.ipvt, k.wa1, k.wa2, k.wa3, k.wa4
    ensures Positive(k.diag[..]) && Rebounded(mach, c, d, k.diag[..], k.x[..], l.factor)
    ensures c.iter > 1 ==> k.diag[..] == old(k.diag[..])
    ensures c.iter == 1 ==> forall j :: 0 <= j < k.n ==> k.diag[j] == ScaleAt(true, l.mode, k.wa2[j], old(k.diag[j]))
    ensures forall j :: 0 <= j < k.n ==> k.wa2[j] == mach.Norm(j0[j])
    ensures Marquardt.Factored(k, j0, k.fvec[..]) && LargestCosine(mach, j0, k.fvec[..], gnorm)
  {
    hide Rebounded, LargestCosine;
    Qrfac.Qrfac(mach, k.m, k.n, k.fjac, true, k.ipvt, k.wa1, k.wa2, k.wa3);
    d := ScaleFirst(mach, k, c, l);
    FormQtf(k, j0);
    gnorm := GradientNorm(mach, k, c.fnorm, j0, k.fvec[..]);
  }

  /** Before a Jacobian is formed: the point x reached by h, and the scale d and the scalars c that h left. */
  ghost predicate Awaiting(g: Problem, h: History, x: Vec, d: Vec, c: Control) {
    && Trace(g, h) && (h != [] ==> StepOk(g.mach, g.fcn, Last(h)))
    && |x| == |d| == g.fcn.n && x == Reached(g, h) && c.fnorm == g.mach.Norm(g.fcn.f(x))
    && if h == [] then d == g.d0 && c == Started(g) else d == Last(h).a.d && c == Last(h).e && Ruled(g, h).Next?
  }

  ghost predicate OuterHead(g: Problem, k: Work, h: History, c: Control)
    reads k.x, k.fvec, k.diag
  {
    Evaluated(g.mach, g.fcn, k, c.fnorm) && Awaiting(g, h, k.x[..], k.diag[..], c)
  }

  lemma AwaitingScale(g: Problem, h: History, x: Vec, d: Vec, c: Control)
    requires Awaiting(g, h, x, d, c)
    ensures ProblemOk(g) && c.iter >= 1 && c.par >= 0.0 && (c.iter > 1 || g.l.mode == 2 ==> Positive(d))
    ensures c.iter > 1 ==> c.delta > 0.0 && 0.0 <= c.xnorm <= ScaledNorm(g.mach, d, x)
    ensures c.iter == 1 <==> h == []
  {
    hide StepOk, Joined, Judge;
    if h != [] {
      StepSizes(g.mach, g.fcn, Last(h));
      StepAdvances(g.mach, g.fcn, Last(h));
      BoundPositive(g.mach, g.fcn, Last(h), Last(h).a.gnorm, g.l, Calls(g, h));
    }
  }

  /** The new Jacobian makes a state. */
  lemma FreshState(g: Problem, h: History, d: Vec, c: Control, a: State)
    requires Awaiting(g, h, a.x, d, c) && |a.d| == |a.x| && Positive(a.d)
    requires Rebounded(g.mach, c, a.c, a.d, a.x, g.l.factor)
    requires a.j0 == g.jac(a.x) && IsMat(a.j0, g.fcn.n, g.fcn.m) && |g.fcn.f(a.x)| == g.fcn.m
    requires LargestCosine(g.mach, a.j0, g.fcn.f(a.x), a.gnorm) && a.gnorm > g.l.gtol
    requires forall j :: 0 <= j < |a.x| ==> a.d[j] == ScaleAt(c.iter == 1, g.l.mode, g.mach.Norm(a.j0[j]), d[j])
    ensures StateOk(g.mach, g.fcn, a)
  {
    hide StepOk, Ruled, Reached;
    AwaitingScale(g, h, a.x, d, c);
    if c.iter > 1 {
      LongerInLarger(g.mach, d, a.d, a.x);
    }
  }

  /** The new Jacobian continues the run. */
  lemma FreshJoins(g: Problem, h: History, d: Vec, c: Control, a: State)
    requires Awaiting(g, h, a.x, d, c) && StateOk(g.mach, g.fcn, a) && Rebounded(g.mach, c, a.c, a.d, a.x, g.l.factor)
    requires a.j0 == g.jac(a.x) && a.gnorm > g.l.gtol && Rescaled(g, c.iter == 1, d, a)
    ensures Joined(g, h, a) && a.c.iter == c.iter
  {
    hide StepOk, StateOk, Rescaled, ScaledNorm;
    StateSizes(g.mach, g.fcn, a);
    AwaitingScale(g, h, a.x, d, c);
    if h != [] {
      StepSizes(g.mach, g.fcn, Last(h));
    }
  }

  /** Factors the Jacobian in fjac, and measures the gradient. Unless that is small the head of the inner loop holds,
      joined to the run h. */
  method Prepare(mach: Machine, fcn: Fcn, k: Work, c: Control, l: Limits, ghost g: Problem, ghost h: History)
    returns (d: Control, gnorm: real)
    requires mach == g.mach && fcn == g.fcn && l == g.l && OuterHead(g, k, h, c) && ColsOf(k.fjac) == g.jac(k.x[..])
    modifies k.fjac, k.diag, k.qtf, k.ipvt, k.wa1, k.wa2, k.wa3, k.wa4
    ensures IsMat(g.jac(k.x[..]), k.n, k.m) && LargestCosine(mach, g.jac(k.x[..]), k.fvec[..], gnorm)
    ensures d.iter == c.iter && d.fnorm == c.fnorm
    ensures gnorm > l.gtol ==>
              var j0 := g.jac(k.x[..]); Head(mach, fcn, k, d, j0, gnorm) && Joined(g, h, StateOf(k, j0, gnorm, d))
  {
    hide StepOk, Trace, Joined, Ruled, Reached, LargestCosine, ColsOf, IsMat, Factored, StateOk;
    ghost var diag, j0 := k.diag[..], g.jac(k.x[..]);
    AwaitingScale(g, h, k.x[..], diag, c);
    d, gnorm := FactorJacobian(mach, k, c, l, j0);
    if gnorm > l.gtol {
      EnlargeScale(k.wa2[..], k.diag, l.mode, c.iter == 1);
      FreshState(g, h, diag, c, StateOf(k, j0, gnorm, d));
      FreshJoins(g, h, diag, c, StateOf(k, j0, gnorm, d));
    }
  }

  // ---- the inner loop ----

  /** The run h continues with the arrays as they are, after nfev calls. */
  ghost predicate Going(g: Problem, k: Work, h: History, d: Control, j0: Mat, gnorm: real, nfev: nat)
    reads k.x, k.fvec, k.diag, k.qtf, k.fjac, k.ipvt
  {
    && ProblemOk(g) && Trace(g, h) && (h != [] ==> StepOk(g.mach, g.fcn, Last(h)))
    && Head(g.mach, g.fcn, k, d, j0, gnorm)
    && Joined(g, h, StateOf(k, j0, gnorm, d)) && nfev == 1 + |h| + g.cost * d.iter
  }

  /** The user stopped the run h in the call at the next trial point. */
  ghost predicate Cut(g: Problem, h: History, s: Step, info: int, nfev: nat, calls: nat) {
    && ProblemOk(g) && Trace(g, h) && (h != [] ==> StepOk(g.mach, g.fcn, Last(h)))
    && Joined(g, h, s.a) && Aimed(g.mach, g.fcn, s.a, s.par, s.p)
    && calls > 0 && info == g.fcn.flag(calls - 1, s.Point()) < 0 && nfev == 2 + |h| + g.cost * s.a.c.iter
  }

  /** The run h has come to the end of its last step. */
  ghost predicate Judged(g: Problem, h: History, x: Vec, diag: Vec, d: Control, v: Verdict, nfev: nat) {
    && Trace(g, h) && h != [] && StepOk(g.mach, g.fcn, Last(h)) && v == Ruled(g, h) && d == Last(h).e
    && x == Last(h).Next() && diag == Last(h).a.d && nfev == Calls(g, h)
  }

  /** The inner loop of iteration iter after a pass. s is the step that was cut, if one was. */
  ghost predicate Running(g: Problem, k: Work, h: History, d: Control, v: Verdict, j0: Mat, gnorm: real, iter: nat,
                          nfev: nat, calls: nat, s: Step)
    reads k.x, k.fvec, k.diag, k.qtf, k.fjac, k.ipvt
  {
    && Evaluated(g.mach, g.fcn, k, d.fnorm)
    && if v.Again? then Going(g, k, h, d, j0, gnorm, nfev) && d.iter == iter
       else if v.Stop? && v.info < 0 then
         Cut(g, h, s, v.info, nfev, calls) && k.x[..] == s.a.x && d == s.a.c && d.iter == iter
       else Judged(g, h, k.x[..], k.diag[..], d, v, nfev) && Jacobians(h) == iter
  }

  lemma PassExtends(g: Problem, h: History, s: Step, nfev: nat)
    requires Trace(g, h) && Joined(g, h, s.a) && StepOk(g.mach, g.fcn, s) && nfev == 1 + |h| + g.cost * s.a.c.iter
    ensures Trace(g, h + [s]) && Last(h + [s]) == s && Calls(g, h + [s]) == nfev + 1
    ensures Ruled(g, h + [s]) == Judge(g.mach, s.e, s.t, s.a.gnorm, g.l, nfev + 1)
  {
    hide Joined, StepOk, Trace;
    TraceExtends(g, h, s);
  }

  /** A rejected step is followed by another from the same point. */
  lemma RejectedContinues(g: Problem, h: History, a: State)
    requires Trace(g, h) && h != [] && StepOk(g.mach, g.fcn, Last(h)) && Ruled(g, h).Again? && StateOk(g.mach, g.fcn, a)
    requires a == Last(h).a.(c := Last(h).e)
    ensures Joined(g, h, a) && a.c.iter == Last(h).a.c.iter && Last(h).Next() == a.x
  {
    hide StepOk, StateOk;
    StepSizes(g.mach, g.fcn, Last(h));
    StepAdvances(g.mach, g.fcn, Last(h));
  }

  /** One pass: the run grows by a step, or is cut. */
  method Pass(mach: Machine, fcn: Fcn, k: Work, l: Limits, d0: Control, gnorm: real, nfev: nat, calls: nat,
              ghost g: Problem, ghost h0: History, ghost j0: Mat)
    returns (d: Control, v: Verdict, ghost h: History, ghost s: Step)
    requires mach == g.mach && fcn == g.fcn && l == g.l && Going(g, k, h0, d0, j0, gnorm, nfev)
    modifies k.x, k.fvec, k.fjac, k.wa1, k.wa2, k.wa3, k.wa4
    ensures Running(g, k, h, d, v, j0, gnorm, d0.iter, nfev + 1, calls + 1, s)
    ensures !v.Stop? ==> nfev + 1 < l.maxfev
  {
    hide StepOk, StateOk, Joined, Trace, Ruled, Factored, NormalStep, Last, ScaledNorm, Success, Judge;
    d, v, s := InnerStep(mach, fcn, k, d0, gnorm, l, nfev, calls, j0);
    h := h0;
    if fcn.flag(calls, s.Point()) >= 0 {
      h := h0 + [s];
      PassExtends(g, h0, s, nfev);
      if v.Again? {
        HeadState(mach, fcn, k, d, j0, gnorm);
        RejectedContinues(g, h, s.a.(c := s.e));
      }
    }
  }

  lemma HeadState(mach: Machine, fcn: Fcn, k: Work, c: Control, j0: Mat, gnorm: real)
    requires Head(mach, fcn, k, c, j0, gnorm)
    ensures StateOk(mach, fcn, StateOf(k, j0, gnorm, c))
  {
  }

  /** The inner loop: until a step succeeds or the run stops. */
  method Iterate(mach: Machine, fcn: Fcn, k: Work, c: Control, gnorm: real, l: Limits, nfev0: nat, calls0: nat,
                 ghost g: Problem, ghost h0: History, ghost j0: Mat)
    returns (d: Control, v: Verdict, nfev: nat, calls: nat, ghost h: History, ghost s: Step)
    requires mach == g.mach && fcn == g.fcn && l == g.l && Going(g, k, h0, c, j0, gnorm, nfev0)
    modifies k.x, k.fvec, k.fjac, k.wa1, k.wa2, k.wa3, k.wa4
    ensures !v.Again? && nfev - nfev0 == calls - calls0 >= 1 && (!v.Stop? ==> nfev < l.maxfev)
    ensures Running(g, k, h, d, v, j0, gnorm, c.iter, nfev, calls, s)
  {
    hide StepOk, StateOk, Joined, Trace, Aimed, Ruled, Factored;
    d, nfev, calls, v, h := c, nfev0, calls0, Again, h0;
    s := Step(StateOf(k, j0, gnorm, c), 0.0, [], Trial(0.0, 0.0, 0.0, 0.0, 0.0, 0.0), c);
    while v.Again?
      invariant nfev - nfev0 == calls - calls0 && Running(g, k, h, d, v, j0, gnorm, c.iter, nfev, calls, s)
      invariant nfev == nfev0 ==> v.Again?
      invariant !v.Stop? && nfev > nfev0 ==> nfev < l.maxfev
      decreases MaxInt(nfev0 + 1, l.maxfev) - nfev, v.Again?
    {
      d, v, h, s := Pass(mach, fcn, k, l, d, gnorm, nfev, calls, g, h, j0);
      nfev, calls := nfev + 1, calls + 1;
    }
  }

  // ---- how an outer iteration ends ----

  /** The number of Jacobians with the one at the point reached. */
  function NextJacobian(h: History): nat {
    if h == [] then 1 else Last(h).e.iter
  }

  /** The gradient at the point reached by h passes the test. */
  ghost predicate Flat(g: Problem, h: History, x: Vec, gnorm: real) {
    && ProblemOk(g) && Trace(g, h) && (h != [] ==> StepOk(g.mach, g.fcn, Last(h)) && Ruled(g, h).Next?)
    && x == Reached(g, h)
    && |x| == g.fcn.n && LargestCosine(g.mach, g.jac(x), g.fcn.f(x), gnorm) && gnorm <= g.l.gtol
  }

  /** Factors the Jacobian, tests the gradient, and steps until a step succeeds or the run stops; nfev0 counts its
      calls. */
  method FactorAndIterate(mach: Machine, fcn: Fcn, k: Work, c: Control, l: Limits, nfev0: nat, calls0: nat,
                          ghost g: Problem, ghost h0: History)
    returns (d: Control, v: Verdict, nfev: nat, calls: nat, ghost h: History, ghost j0: Mat, ghost gnorm: real,
             ghost s: Step)
    requires mach == g.mach && fcn == g.fcn && l == g.l && OuterHead(g, k, h0, c) && ColsOf(k.fjac) == g.jac(k.x[..])
    requires nfev0 == 1 + |h0| + g.cost * NextJacobian(h0)
    modifies k.x, k.fvec, k.diag, k.qtf, k.ipvt, k.fjac, k.wa1, k.wa2, k.wa3, k.wa4
    ensures !v.Again? && nfev - nfev0 == calls - calls0 >= 0 && (!v.Stop? ==> nfev0 < nfev < l.maxfev)
    ensures v == Stop(4) ==> h == h0 && nfev == nfev0 && Evaluated(mach, fcn, k, d.fnorm) && Flat(g, h, k.x[..], gnorm)
    ensures v != Stop(4) ==> Running(g, k, h, d, v, j0, gnorm, NextJacobian(h0), nfev, calls, s)
  {
    hide StepOk, StateOk, Joined, Aimed, Judge, LargestCosine, Factored;
    var gn;
    j0 := g.jac(k.x[..]);
    d, gn := Prepare(mach, fcn, k, c, l, g, h0);
    gnorm, nfev, calls, h := gn, nfev0, calls0, h0;
    s := Step(StateOf(k, j0, gnorm, d), 0.0, [], Trial(0.0, 0.0, 0.0, 0.0, 0.0, 0.0), d);
    if gn <= l.gtol {
      v := Stop(4);
      return;
    }
    d, v, nfev, calls, h, s := Iterate(mach, fcn, k, d, gn, l, nfev0, calls0, g, h0, j0);
  }

  // ---- how a run ends ----

  /** h is a run with the function value f at the point reached: never larger than at the start, and smaller unless the
      point is the start. */
  ghost predicate Descending(g: Problem, h: History, f: Vec) {
    && ProblemOk(g) && Trace(g, h) && (h != [] ==> StepOk(g.mach, g.fcn, Last(h)))
    && Descends(g.mach, g.fcn, g.x0, Reached(g, h), f)
  }

  lemma RunIsDescending(g: Problem, h: History, f: Vec)
    requires Trace(g, h) && (h != [] ==> StepOk(g.mach, g.fcn, Last(h))) && f == g.fcn.f(Reached(g, h))
    ensures Descending(g, h, f)
  {
    hide StepOk, Reached;
    RunDescends(g, h);
  }

  /** The last step of h ended the run, for the reason reported; its Jacobian was that at the point it was taken
      from. */
  ghost predicate Explained(g: Problem, h: History, x: Vec, diag: Vec, d: Control, v: Verdict, nfev: nat) {
    && ProblemOk(g) && Judged(g, h, x, diag, d, v, nfev) && |diag| == |x| == g.fcn.n
    && Last(h).a.j0 == g.jac(Last(h).a.x)
    && v.Stop? && Reported(g, h, v.info)
  }

  lemma JudgedIsExplained(g: Problem, h: History, x: Vec, diag: Vec, d: Control, v: Verdict, nfev: nat)
    requires Judged(g, h, x, diag, d, v, nfev) && v.Stop?
    ensures Explained(g, h, x, diag, d, v, nfev)
  {
    hide StepOk, Reported, Judge, Joined;
    StepSizes(g.mach, g.fcn, Last(h));
    RunDescends(g, h);
    RunReports(g, h);
  }

  /** A run that is explained ends for a reason of its own. */
  lemma ExplainedOtherwise(g: Problem, h: History, x: Vec, diag: Vec, d: Control, v: Verdict, nfev: nat)
    requires Explained(g, h, x, diag, d, v, nfev)
    ensures v != Stop(0)
  {
    hide StepOk, Trace, Judge, Joined;
  }

  /** The counts of a run that was cut in a trial. */
  lemma CutCalls(g: Problem, h: History, s: Step, info: int, nfev: nat, calls: nat)
    requires Cut(g, h, s, info, nfev, calls)
    ensures s.a.x == Reached(g, h) && s.a.c.iter == NextJacobian(h) && (h != [] ==> !Ruled(g, h).Stop?)
  {
    hide StepOk, StateOk, Trace, Ruled, Rescaled, NormalStep;
    JoinedPoint(g, h, s.a);
  }

  /** A run that goes on has calls left, and no more Jacobians than calls. */
  lemma OpenCalls(g: Problem, h: History)
    requires Trace(g, h) && (h != [] ==> !Ruled(g, h).Stop?)
    ensures 1 + |h| + g.cost * NextJacobian(h) + 1 <= MaxInt(g.l.maxfev, 2) + g.cost
    ensures 1 <= NextJacobian(h) <= |h| + 1
  {
    hide StepOk, Joined, Judge;
    CallsBounded(g, h);
    RunDescends(g, h);
    if h != [] {
      StepSizes(g.mach, g.fcn, Last(h));
      StepAdvances(g.mach, g.fcn, Last(h));
      CostStep(g.cost, Last(h).a.c.iter, Last(h).e.iter);
    }
  }
}
