/** lmder: the Levenberg-Marquardt method with a Jacobian supplied by the user. */
module Lmder {
  import opened Reals
  import opened Vectors
  import opened Machines
  import opened Users
  import opened Runs
  import opened MarquardtStep
  import opened MarquardtTrace
  import opened Marquardt
  import opened MarquardtLoop

  /** The problem a call of lmder poses. Its Jacobians cost no function calls. */
  ghost function ProblemOf(mach: Machine, g: FcnDer, x0: Vec, d0: Vec, l: Limits): Problem {
    Problem(mach, g.fcn, g.jac, 0, x0, d0, l)
  }

  /** Who stopped the run h, or why it ended; nfev and njev count the calls made until then. gnorm is the gradient's
      norm when that ended the run, s the step cut by the user. */
  ghost predicate Ends(p: Problem, g: FcnDer, h: History, x: Vec, diag: Vec, d: Control, v: Verdict, nfev: nat,
                       njev: nat, who: Caller, gnorm: real, s: Step) {
    match who
    case Nobody =>
      if v == Stop(4) then Flat(p, h, x, gnorm) && nfev == 1 + |h| && njev == NextJacobian(h)
      else Explained(p, h, x, diag, d, v, nfev) && njev == Jacobians(h)
    case Start => h == [] && nfev == 1 && njev == 0 && v == Stop(g.fcn.flag(0, x)) && v.info < 0
    case Trying => v.Stop? && Cut(p, h, s, v.info, nfev, nfev) && njev == s.a.c.iter
    case Jacobian =>
      && njev == NextJacobian(h) > 0 && nfev == 1 + |h| && v == Stop(g.jflag(njev - 1, x)) && v.info < 0
      && (h != [] ==> Ruled(p, h).Next?)
  }

  /** How a run ends at x with the function value f: the run h explains the result, the point is no worse than the
      start, the calls stay within the limit, and there are no more Jacobians than function calls. */
  ghost predicate Outcome(p: Problem, g: FcnDer, h: History, x: Vec, f: Vec, diag: Vec, v: Verdict, nfev: nat,
                          njev: nat, d: Control, who: Caller, gnorm: real, s: Step) {
    && Descending(p, h, f) && x == Reached(p, h) && Ends(p, g, h, x, diag, d, v, nfev, njev, who, gnorm, s)
    && 1 <= nfev <= MaxInt(p.l.maxfev, 2) && njev <= nfev && v != Stop(0)
  }

  lemma CountsBounded(p: Problem, g: FcnDer, h: History, x: Vec, diag: Vec, d: Control, v: Verdict, nfev: nat,
                      njev: nat, who: Caller, gnorm: real, s: Step)
    requires Trace(p, h) && p.cost == 0 && Ends(p, g, h, x, diag, d, v, nfev, njev, who, gnorm, s)
    ensures 1 <= nfev <= MaxInt(p.l.maxfev, 2) && njev <= nfev && v != Stop(0)
  {
    hide Trace, Joined, StepOk, Aimed, Reported, LargestCosine;
    CallsBounded(p, h);
    RunDescends(p, h);
    match who
    case Nobody =>
      if v == Stop(4) {
        OpenCalls(p, h);
      } else {
        ExplainedOtherwise(p, h, x, diag, d, v, nfev);
      }
    case Start =>
    case Trying =>
      CutCalls(p, h, s, v.info, nfev, nfev);
      OpenCalls(p, h);
    case Jacobian =>
      OpenCalls(p, h);
  }

  lemma EndsWell(p: Problem, g: FcnDer, h: History, x: Vec, f: Vec, diag: Vec, v: Verdict, nfev: nat, njev: nat,
                 d: Control, who: Caller, gnorm: real, s: Step)
    requires Trace(p, h) && (h != [] ==> StepOk(p.mach, p.fcn, Last(h))) && p.cost == 0
    requires x == Reached(p, h) && f == p.fcn.f(x) && Ends(p, g, h, x, diag, d, v, nfev, njev, who, gnorm, s)
    ensures Outcome(p, g, h, x, f, diag, v, nfev, njev, d, who, gnorm, s)
  {
    hide StepOk, Trace, Ends, Reached;
    RunIsDescending(p, h, f);
    CountsBounded(p, g, h, x, diag, d, v, nfev, njev, who, gnorm, s);
  }

  /** Between outer iterations the run waits for a Jacobian. */
  ghost predicate Between(p: Problem, g: FcnDer, k: Work, h: History, d: Control, v: Verdict, nfev: nat, njev: nat,
                          who: Caller, gnorm: real, s: Step)
    reads k.x, k.fvec, k.diag
  {
    if v.Next? then OuterHead(p, k, h, d) && nfev == 1 + |h| && njev + 1 == NextJacobian(h)
    else Outcome(p, g, h, k.x[..], k.fvec[..], k.diag[..], v, nfev, njev, d, who, gnorm, s)
  }

  /** How the inner loop ended. */
  ghost method Settled(p: Problem, g: FcnDer, k: Work, h: History, d: Control, v: Verdict, j0: Mat, gnorm: real,
                       nfev: nat, calls: nat, njev: nat, s: Step)
    returns (who: Caller)
    requires Running(p, k, h, d, v, j0, gnorm, njev, nfev, calls, s) && v != Stop(4) && !v.Again? && calls == nfev
    requires p.cost == 0
    ensures Trace(p, h) && (h != [] ==> StepOk(p.mach, p.fcn, Last(h))) && k.x[..] == Reached(p, h)
    ensures v.Next? ==> Awaiting(p, h, k.x[..], k.diag[..], d) && nfev == 1 + |h|
    ensures v.Next? ==> NextJacobian(h) == njev + 1
    ensures v.Stop? ==> Ends(p, g, h, k.x[..], k.diag[..], d, v, nfev, njev, who, gnorm, s)
  {
    hide StepOk, StateOk, Joined, Aimed, Explained, Judge;
    if v.Stop? && v.info < 0 {
      who := Trying;
      CutCalls(p, h, s, v.info, nfev, calls);
    } else {
      who := Nobody;
      StepSizes(p.mach, p.fcn, Last(h));
      if v.Stop? {
        JudgedIsExplained(p, h, k.x[..], k.diag[..], d, v, nfev);
      } else {
        StepAdvances(p.mach, p.fcn, Last(h));
      }
    }
  }

  /** One outer iteration: evaluate and factor the Jacobian, test the gradient, and step until a step succeeds. */
  method OuterPass(mach: Machine, g: FcnDer, k: Work, l: Limits, d0: Control, nfev0: nat, njev0: nat, ghost p: Problem,
                   ghost h0: History)
    returns (d: Control, v: Verdict, nfev: nat, njev: nat, ghost h: History, ghost who: Caller, ghost gnorm: real,
             ghost s: Step)
    requires g.Valid() && mach == p.mach && g.fcn == p.fcn && g.jac == p.jac && l == p.l && p.cost == 0
    requires OuterHead(p, k, h0, d0) && nfev0 == 1 + |h0| && njev0 + 1 == NextJacobian(h0)
    modifies k.x, k.fvec, k.diag, k.qtf, k.ipvt, k.fjac, k.wa1, k.wa2, k.wa3, k.wa4
    ensures Between(p, g, k, h, d, v, nfev, njev, who, gnorm, s) && !v.Again?
    ensures v.Next? ==> nfev0 < nfev < l.maxfev
  {
    hide StepOk, Trace, Joined, Aimed, Explained, Judge, Descending, Reached, Outcome, LargestCosine;
    h, who, gnorm := h0, Nobody, 0.0;
    s := Step(StateOf(k, [], 0.0, d0), 0.0, [], Trial(0.0, 0.0, 0.0, 0.0, 0.0, 0.0), d0);
    var iflag := CallJacobian(g, k.x[..], k.fjac, njev0);
    njev := njev0 + 1;
    if iflag < 0 {
      nfev, d, v, who := nfev0, d0, Stop(iflag), Jacobian;
    } else {
      var calls;
      ghost var j0;
      d, v, nfev, calls, h, j0, gnorm, s := FactorAndIterate(mach, g.fcn, k, d0, l, nfev0, nfev0, p, h0);
      if v != Stop(4) {
        who := Settled(p, g, k, h, d, v, j0, gnorm, nfev, calls, njev, s);
      }
    }
    if v.Stop? {
      EndsWell(p, g, h, k.x[..], k.fvec[..], k.diag[..], v, nfev, njev, d, who, gnorm, s);
    }
  }

  /** The outer loop, from the first evaluation on. */
  method Run(mach: Machine, g: FcnDer, k: Work, l: Limits, c0: Control, ghost p: Problem)
    returns (v: Verdict, nfev: nat, njev: nat, d: Control, ghost h: History, ghost who: Caller, ghost gnorm: real,
             ghost s: Step)
    requires g.Valid() && p == ProblemOf(mach, g, k.x[..], k.diag[..], l) && OuterHead(p, k, [], c0)
    modifies k.x, k.fvec, k.diag, k.qtf, k.ipvt, k.fjac, k.wa1, k.wa2, k.wa3, k.wa4
    ensures Outcome(p, g, h, k.x[..], k.fvec[..], k.diag[..], v, nfev, njev, d, who, gnorm, s)
  {
    hide OuterHead, Outcome, StepOk, Trace;
    v, nfev, njev, d, h, who, gnorm := Next, 1, 0, c0, [], Nobody, 0.0;
    s := Step(StateOf(k, [], 0.0, c0), 0.0, [], Trial(0.0, 0.0, 0.0, 0.0, 0.0, 0.0), c0);
    while v.Next?
      invariant Between(p, g, k, h, d, v, nfev, njev, who, gnorm, s) && (v.Next? ==> nfev == 1 || nfev < l.maxfev)
      decreases if v.Next? then MaxInt(l.maxfev, 2) + 1 - nfev else 0
    {
      d, v, nfev, njev, h, who, gnorm, s := OuterPass(mach, g, k, l, d, nfev, njev, p, h);
    }
  }

  /** lmder. nfev counts the calls of the function, njev those of the Jacobian; h is the run. */
  method Lmder(mach: Machine, g: FcnDer, k: Work, l: Limits)
    returns (v: Verdict, nfev: nat, njev: nat, d: Control, ghost h: History, ghost who: Caller, ghost gnorm: real,
             ghost s: Step)
    requires mach.Valid() && g.Valid() && g.fcn.n == k.n && g.fcn.m == k.m && k.Apart()
    modifies k.x, k.fvec, k.diag, k.qtf, k.ipvt, k.fjac, k.wa1, k.wa2, k.wa3, k.wa4
    ensures v == Stop(0) <==>
              k.n == 0 || k.m < k.n || l.ftol < 0.0 || l.xtol < 0.0 || l.gtol < 0.0 || l.maxfev <= 0 || l.factor <= 0.0
              || (l.mode == 2 && exists j :: 0 <= j < k.n && old(k.diag[j]) <= 0.0)
    ensures !old(Proper(k, l)) ==>
              v == Stop(0) && nfev == njev == 0
              && unchanged(k.x, k.fvec, k.diag, k.qtf, k.ipvt, k.fjac, k.wa1, k.wa2, k.wa3, k.wa4)
    ensures old(Proper(k, l)) ==>
              Outcome(old(ProblemOf(mach, g, k.x[..], k.diag[..], l)), g, h, k.x[..], k.fvec[..], k.diag[..],
                      v, nfev, njev, d, who, gnorm, s)
  {
    v, nfev, njev, h, who, gnorm := Stop(0), 0, 0, [], Nobody, 0.0;
    d := Control(1, 0.0, 0.0, 0.0, 0.0);
    s := Step(StateOf(k, [], 0.0, d), 0.0, [], Trial(0.0, 0.0, 0.0, 0.0, 0.0, 0.0), d);
    ghost var p := ProblemOf(mach, g, k.x[..], k.diag[..], l);
    var ok := CheckInputs(k, l);
    if !ok {
      return;
    }
    var iflag := Call(g.fcn, k.x[..], k.fvec, 0);
    nfev := 1;
    if iflag < 0 {
      v, who := Stop(iflag), Start;
      return;
    }
    v, nfev, njev, d, h, who, gnorm, s := Run(mach, g, k, l, d.(fnorm := mach.Norm(k.fvec[..])), p);
  }
}
