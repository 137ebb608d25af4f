/** What hybrd and hybrj share around their Jacobians: preparing a fresh one, and the inner loop. */
module HybridLoop {
  import opened Reals
  import opened Vectors
  import opened Machines
  import opened Packed
  import opened Arrays
  import opened Users
  import opened Runs
  import opened Dogleg
  import opened Qrfac
  import opened Broyden
  import opened Scaling
  import opened HybridStep
  import opened HybridTrace
  import opened Hybrid

  /** The input tests the two solvers share. */
  predicate Proper(k: Work, l: Limits)
    requires k.diag.Length == k.n
    reads k.diag
  {
    Admissible(k.n, l.xtol, l.maxfev, l.mode, l.factor, k.diag[..]) && k.r.Length >= Slots(k.n)
  }

  method CheckInputs(k: Work, l: Limits) returns (ok: bool)
    requires k.diag.Length == k.n
    ensures ok == Proper(k, l)
  {
    if k.n <= 0 || l.xtol < 0.0 || l.maxfev <= 0 || l.factor <= 0.0 || k.r.Length < k.n * (k.n + 1) / 2 {
      return false;
    }
    ok := true;
    if l.mode == 2 {
      ok := CheckScale(k.diag);
    }
  }

  // ---- a fresh Jacobian ----

  /** The scalars after a Jacobian. */
  ghost predicate Rebounded(mach: Machine, c: Control, d: Control, diag: Vec, x: Vec, factor: real)
    requires mach.Valid() && |diag| == |x|
  {
    && d == c.(jeval := true, delta := d.delta, xnorm := d.xnorm)
    && BoundSet(mach, c.iter, c.delta, c.xnorm, d.delta, d.xnorm, diag, x, factor)
  }

  /** Factors the Jacobian in fjac, scales, and forms transpose(Q) f. */
  method FactorFresh(mach: Machine, k: Work, c: Control, l: Limits) returns (d: Control)
    requires mach.Valid() && k.Shapes() && Scalable(c.iter, l.mode, l.factor, k.diag[..])
    modifies k.diag, k.qtf, k.r, k.fjac, k.wa1, k.wa2, k.wa3
    ensures FactorOk(RowsOf(k.fjac), k.qtf[..], k.fvec[..], k.n) && Positive(k.diag[..])
    ensures Rebounded(mach, c, d, k.diag[..], k.x[..], l.factor)
    ensures forall j :: 0 <= j < k.n ==>
              k.diag[j] == ScaleAt(c.iter == 1, l.mode, mach.Norm(old(ColsOf(k.fjac))[j]), old(k.diag[j]))
    ensures forall a, j :: 0 <= a < k.n && 0 <= j < k.n ==>
              Product(RowsOf(k.fjac), Upper(k.r[..], k.n), k.n)[a][j] == old(ColsOf(k.fjac))[j][a]
  {
    hide FactorOk, Product, Upper, StartBound;
    ghost var j0 := ColsOf(k.fjac);
    var iwa := new int[1];
    Qrfac.Qrfac(mach, k.n, k.n, k.fjac, false, iwa, k.wa1, k.wa2, k.wa3);
    assert Order(false, iwa[..], k.n) == Order(false, [], k.n);
    d := c.(jeval := true);
    if c.iter == 1 {
      var delta, xnorm := StartScale(mach, k.x[..], k.wa2[..], k.diag, l.mode, l.factor, k.wa3);
      d := d.(delta := delta, xnorm := xnorm);
    }
    var sing := SplitFactors(mach, k, j0);
    EnlargeScale(k.wa2[..], k.diag, l.mode, c.iter == 1);
  }

  /** Before a Jacobian is formed: the point x reached by h, and the scale d and the counters c that h left. */
  ghost predicate Awaiting(g: Problem, h: History, x: Vec, d: Vec, c: Control) {
    && Trace(g, h) && (h != [] ==> StepOk(g.mach, g.fcn, Last(h)))
    && |x| == |d| == g.fcn.n && x == Reached(g, h) && c.fnorm == g.mach.Norm(g.fcn.f(x))
    && if h == [] then d == g.d0 && c == Started(g) else d == Last(h).a.d && c == Last(h).e && Ruled(g, h).Refactor?
  }

  ghost predicate OuterHead(g: Problem, k: Work, h: History, c: Control)
    reads k.x, k.fvec, k.diag
  {
    Evaluated(g.mach, g.fcn, k, c.fnorm) && Awaiting(g, h, k.x[..], k.diag[..], c)
  }

  lemma AwaitingScale(g: Problem, h: History, x: Vec, d: Vec, c: Control)
    requires Awaiting(g, h, x, d, c)
    ensures ProblemOk(g) && c.iter >= 1 && (c.iter > 1 || g.l.mode == 2 ==> Positive(d))
    ensures c.iter > 1 ==> c.delta > 0.0 && 0.0 <= c.xnorm <= ScaledNorm(g.mach, d, x)
  {
    hide StepOk, Joined, Judge;
    if h != [] {
      StepSizes(g.mach, g.fcn, Last(h));
      StepAdvances(g.mach, g.fcn, Last(h));
      BoundPositive(g.mach, g.fcn, Last(h), g.l.xtol, Calls(g, h), g.l.maxfev);
    }
  }

  /** The fresh factors make a state. */
  lemma FreshState(g: Problem, h: History, d: Vec, c: Control, a: State)
    requires Awaiting(g, h, a.x, d, c) && |a.r| >= Slots(|a.x|) && |a.d| == |a.x| && Positive(a.d)
    requires FactorOk(a.q, a.qtf, g.fcn.f(a.x), |a.x|) && Rebounded(g.mach, c, a.c, a.d, a.x, g.l.factor)
    requires forall j :: 0 <= j < |a.x| ==> a.d[j] == ScaleAt(c.iter == 1, g.l.mode, g.mach.Norm(g.jac(a.x)[j]), d[j])
    ensures StateOk(g.mach, g.fcn, a)
  {
    hide FactorOk, StepOk, Ruled, Reached;
    AwaitingScale(g, h, a.x, d, c);
    if c.iter > 1 {
      LongerInLarger(g.mach, d, a.d, a.x);
    }
  }

  /** The fresh factors continue the run. */
  lemma FreshJoins(g: Problem, h: History, d: Vec, c: Control, a: State)
    requires Awaiting(g, h, a.x, d, c) && StateOk(g.mach, g.fcn, a) && Rebounded(g.mach, c, a.c, a.d, a.x, g.l.factor)
    requires Factors(g, a) && Rescaled(g, c.iter == 1, d, a)
    ensures Joined(g, h, a) && a.c.jeval
  {
    hide FactorOk, StepOk, StateOk, Factors, Rescaled, Ruled, ScaledNorm;
    StateSizes(g.mach, g.fcn, a);
    AwaitingScale(g, h, a.x, d, c);
    if h != [] {
      StepSizes(g.mach, g.fcn, Last(h));
    }
  }

  /** A fresh Jacobian factored and scaled: the head of the inner loop, joined to the run h. */
  method Prepare(mach: Machine, fcn: Fcn, k: Work, c: Control, l: Limits, ghost g: Problem, ghost h: History)
    returns (d: Control)
    requires mach == g.mach && fcn == g.fcn && l == g.l && OuterHead(g, k, h, c) && ColsOf(k.fjac) == g.jac(k.x[..])
    modifies k.diag, k.qtf, k.r, k.fjac, k.wa1, k.wa2, k.wa3
    ensures Head(mach, fcn, k, d) && Joined(g, h, StateOf(k, d)) && d.jeval && d.fnorm == c.fnorm
  {
    hide FactorOk, StepOk, Trace, Joined, Product, Upper, Ruled, Reached;
    ghost var diag := k.diag[..];
    AwaitingScale(g, h, k.x[..], diag, c);
    d := FactorFresh(mach, k, c, l);
    FreshState(g, h, diag, c, StateOf(k, d));
    FreshJoins(g, h, diag, c, StateOf(k, d));
  }

  // ---- the inner loop ----

  /** The calls of a Jacobian not yet counted by the run: those of the next step's, when it is fresh. */
  function Due(g: Problem, c: Control): nat {
    if c.jeval then g.cost else 0
  }

  /** The Jacobians formed for the run, with the next step's when it is fresh. */
  function Opened(h: History, c: Control): nat {
    Fresh(h) + if c.jeval then 1 else 0
  }

  /** The run h continues with the arrays as they are, after nfev calls and njev Jacobians. */
  ghost predicate Going(g: Problem, k: Work, h: History, d: Control, nfev: nat, njev: nat)
    reads k.x, k.fvec, k.diag, k.qtf, k.r, k.fjac
  {
    && ProblemOk(g) && Trace(g, h) && (h != [] ==> StepOk(g.mach, g.fcn, Last(h))) && Head(g.mach, g.fcn, k, d)
    && Joined(g, h, StateOf(k, d)) && nfev == Calls(g, h) + Due(g, d) && njev == Opened(h, d)
  }

  /** The user stopped the run h in the call at the next trial point. */
  ghost predicate Cut(g: Problem, h: History, s: Step, info: int, nfev: nat, calls: nat) {
    && ProblemOk(g) && Trace(g, h) && (h != [] ==> StepOk(g.mach, g.fcn, Last(h)))
    && Joined(g, h, s.a) && Aimed(g.mach, g.fcn, s.a, s.gn, s.p)
    && calls > 0 && info == g.fcn.flag(calls - 1, s.Point()) < 0 && nfev == Calls(g, h) + Due(g, s.a.c) + 1
  }

  /** The run h has come to the end of its last step. */
  ghost predicate Judged(g: Problem, h: History, x: Vec, diag: Vec, d: Control, v: Verdict, nfev: nat) {
    && Trace(g, h) && h != [] && StepOk(g.mach, g.fcn, Last(h)) && v == Ruled(g, h) && d == Last(h).e
    && x == Last(h).Next() && diag == Last(h).a.d && nfev == Calls(g, h)
  }

  /** The inner loop after a pass. s is the step that was cut, if one was. */
  ghost predicate Running(g: Problem, k: Work, h: History, d: Control, v: Verdict, nfev: nat, njev: nat, calls: nat,
                          s: Step)
    reads k.x, k.fvec, k.diag, k.qtf, k.r, k.fjac
  {
    && Evaluated(g.mach, g.fcn, k, d.fnorm)
    && if v.Update? then Going(g, k, h, d, nfev, njev)
       else if v.Stop? && v.info < 0 then
         Cut(g, h, s, v.info, nfev, calls) && k.x[..] == s.a.x && d == s.a.c && njev == Opened(h, d)
       else Judged(g, h, k.x[..], k.diag[..], d, v, nfev) && njev == Fresh(h)
  }

  lemma PassExtends(g: Problem, h: History, s: Step, nfev: nat) returns (h': History)
    requires nfev == Calls(g, h) + Due(g, s.a.c)
    requires Trace(g, h) && Joined(g, h, s.a) && StepOk(g.mach, g.fcn, s)
    ensures h' == h + [s] && h' != [] && Last(h') == s && Calls(g, h') == nfev + 1 && Fresh(h') == Opened(h, s.a.c)
    ensures Ruled(g, h') == Ruling(g.mach, s, g.l.xtol, nfev + 1, g.l.maxfev)
    ensures Trace(g, h')
  {
    hide Joined, StepOk, Trace;
    h' := h + [s];
    TraceExtends(g, h, s);
  }

  lemma CarriedJoins(g: Problem, h: History, a: State, up: Updating)
    requires Trace(g, h) && h != [] && StepOk(g.mach, g.fcn, Last(h)) && Ruled(g, h).Update?
    requires StateOk(g.mach, g.fcn, a)
    requires a.x == Last(h).Next() && a.d == Last(h).a.d && a.c == Last(h).e.(jeval := false)
    requires FactorsFollow(g.mach, g.fcn, Last(h), a.q, a.r, up)
    ensures Joined(g, h, a)
  {
    hide StepOk, StateOk, FactorsFollow, Ruled;
  }

  /** One pass: the run grows by a step, or is cut. */
  method Pass(mach: Machine, fcn: Fcn, k: Work, l: Limits, d0: Control, nfev: nat, calls: nat, ghost g: Problem,
              ghost h0: History, ghost njev: nat)
    returns (d: Control, v: Verdict, ghost h: History, ghost s: Step)
    requires mach == g.mach && fcn == g.fcn && l == g.l && Going(g, k, h0, d0, nfev, njev)
    modifies k.x, k.fvec, k.qtf, k.r, k.fjac, k.wa1, k.wa2, k.wa3, k.wa4
    ensures Running(g, k, h, d, v, nfev + 1, njev, calls + 1, s)
    ensures !v.Stop? ==> nfev + 1 < l.maxfev
  {
    hide StepOk, StateOk, Joined, Trace, Inputs, DoglegStep, FactorsFollow, Ruled;
    ghost var up;
    d, v, s, up := InnerStep(mach, fcn, k, d0, l.xtol, nfev, l.maxfev, calls);
    h := h0;
    if fcn.flag(calls, s.Point()) >= 0 {
      h := PassExtends(g, h0, s, nfev);
      if v.Update? {
        CarriedJoins(g, h, StateOf(k, d), up);
      }
    }
  }

  /** The inner loop, until it stops or asks for a new Jacobian. */
  method Iterate(mach: Machine, fcn: Fcn, k: Work, c: Control, l: Limits, nfev0: nat, calls0: nat, ghost g: Problem,
                 ghost h0: History, ghost njev: nat)
    returns (d: Control, v: Verdict, nfev: nat, calls: nat, ghost h: History, ghost s: Step)
    requires mach == g.mach && fcn == g.fcn && l == g.l && Going(g, k, h0, c, nfev0, njev)
    modifies k.x, k.fvec, k.qtf, k.r, k.fjac, k.wa1, k.wa2, k.wa3, k.wa4
    ensures !v.Update? && nfev - nfev0 == calls - calls0 >= 1 && (!v.Stop? ==> nfev < l.maxfev)
    ensures Running(g, k, h, d, v, nfev, njev, calls, s)
  {
    hide StepOk, StateOk, Joined, Trace, Aimed, Ruled;
    d, nfev, calls, v, h := c, nfev0, calls0, Update, h0;
    s := Step(StateOf(k, c), [], [], Trial(0.0, 0.0, 0.0, 0.0, 0.0), c);
    while v.Update?
      invariant nfev - nfev0 == calls - calls0 && Running(g, k, h, d, v, nfev, njev, calls, s)
      invariant nfev == nfev0 ==> v.Update?
      invariant !v.Stop? && nfev > nfev0 ==> nfev < l.maxfev
      decreases MaxInt(nfev0 + 1, l.maxfev) - nfev, v.Update?
    {
      d, v, h, s := Pass(mach, fcn, k, l, d, nfev, calls, g, h, njev);
      nfev, calls := nfev + 1, calls + 1;
    }
  }

  /** An outer iteration once its Jacobian is in fjac: nfev0 counts its calls. */
  method FactorAndIterate(mach: Machine, fcn: Fcn, k: Work, c: Control, l: Limits, nfev0: nat, calls0: nat,
                          ghost g: Problem, ghost h0: History)
    returns (d: Control, v: Verdict, nfev: nat, calls: nat, ghost h: History, ghost s: Step)
    requires mach == g.mach && fcn == g.fcn && l == g.l && OuterHead(g, k, h0, c) && ColsOf(k.fjac) == g.jac(k.x[..])
    requires nfev0 == Calls(g, h0) + g.cost
    modifies k.x, k.fvec, k.diag, k.qtf, k.r, k.fjac, k.wa1, k.wa2, k.wa3, k.wa4
    ensures !v.Update? && nfev - nfev0 == calls - calls0 >= 1 && (!v.Stop? ==> nfev < l.maxfev)
    ensures Running(g, k, h, d, v, nfev, Fresh(h0) + 1, calls, s)
  {
    hide StepOk, StateOk, Joined, Aimed, Ruled;
    d := Prepare(mach, fcn, k, c, l, g, h0);
    d, v, nfev, calls, h, s := Iterate(mach, fcn, k, d, l, nfev0, calls0, g, h0, Fresh(h0) + 1);
  }

  // ---- how a run ends ----

  /** h is a run with the function value f at the point reached: never larger than at the start, and smaller unless the
      point is the start. */
  ghost predicate Descending(g: Problem, h: History, f: Vec) {
    && ProblemOk(g) && Trace(g, h) && (h != [] ==> StepOk(g.mach, g.fcn, Last(h)))
    && Descends(g.mach, g.fcn, g.x0, Reached(g, h), f)
  }

  lemma RunIsDescending(g: Problem, h: History, f: Vec)
    requires Trace(g, h) && (h != [] ==> StepOk(g.mach, g.fcn, Last(h))) && f == g.fcn.f(Reached(g, h))
    ensures Descending(g, h, f)
  {
    hide StepOk, Reached;
    RunDescends(g, h);
  }

  /** The last step of h ended the run, for the reason reported; or its update would have divided by its length of zero,
      which takes a singular R and a point that is no solution. */
  ghost predicate Explained(g: Problem, h: History, x: Vec, diag: Vec, d: Control, v: Verdict, nfev: nat) {
    && ProblemOk(g) && Judged(g, h, x, diag, d, v, nfev) && |diag| == |x| == g.fcn.n
    && (v.Stop? ==> Reported(g, h, v.info))
    && (!v.Stop? ==> v.Undefined? && Last(h).t.pnorm == 0.0 && g.fcn.f(x) != Zero(g.fcn.n)
                     && !Nonsingular(Upper(Last(h).a.r, g.fcn.n)))
  }

  lemma JudgedIsExplained(g: Problem, h: History, x: Vec, diag: Vec, d: Control, v: Verdict, nfev: nat)
    requires Judged(g, h, x, diag, d, v, nfev) && !v.Refactor? && !v.Update?
    ensures Explained(g, h, x, diag, d, v, nfev)
  {
    hide StepOk, Reported, Judge, Joined, Nonsingular, Upper;
    StepSizes(g.mach, g.fcn, Last(h));
    if v.Stop? {
      RunReports(g, h);
    } else {
      UndefinedSingular(g.mach, g.fcn, Last(h), g.l.xtol, nfev, g.l.maxfev);
      StepAdvances(g.mach, g.fcn, Last(h));
      ZeroKeepsPoint(g.mach, g.fcn, Last(h));
      NormZero(g.mach, g.fcn.f(x));
    }
  }

  /** A run that is explained ends for a reason of its own. */
  lemma ExplainedOtherwise(g: Problem, h: History, x: Vec, diag: Vec, d: Control, v: Verdict, nfev: nat)
    requires Explained(g, h, x, diag, d, v, nfev)
    ensures v != Stop(0)
  {
    hide StepOk, Trace, Judge, Joined, SlowOver, SlowSince;
  }

  /** The calls of a run that was cut in a trial, and of one that waits for a Jacobian. */
  lemma OpenCalls(g: Problem, h: History)
    requires Trace(g, h) && (h != [] ==> !Ruled(g, h).Stop? && !Ruled(g, h).Undefined?)
    ensures Calls(g, h) + 1 <= MaxInt(g.l.maxfev, 2)
  {
    hide StepOk, Joined;
  }

  /** What a user's function that stops the run in a trial finds. */
  lemma CutCalls(g: Problem, h: History, s: Step, info: int, nfev: nat, calls: nat)
    requires Cut(g, h, s, info, nfev, calls)
    ensures h != [] ==> if s.a.c.jeval then Ruled(g, h).Refactor? else Ruled(g, h).Update?
    ensures h == [] ==> s.a.c.jeval
    ensures s.a.x == Reached(g, h)
  {
    hide StepOk, StateOk, Trace, Ruled, FactorsFollow, Factors, Rescaled, Aimed;
    JoinedPoint(g, h, s.a);
  }
}
