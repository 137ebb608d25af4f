/** lmdif: the Levenberg-Marquardt method with difference Jacobians, each counted as n calls. */
module Lmdif {
  import opened Reals
  import opened Vectors
  import opened Machines
  import opened Arrays
  import opened Users
  import opened Runs
  import opened Fdjac
  import opened MarquardtStep
  import opened MarquardtTrace
  import opened Marquardt
  import opened MarquardtLoop

  /** The problem a call of lmdif poses: its Jacobians are differences, and cost n calls each. */
  ghost function ProblemOf(mach: Machine, fcn: Fcn, epsfcn: real, x0: Vec, d0: Vec, l: Limits): Problem {
    Problem(mach, fcn,
            x => if mach.Valid() && fcn.Valid() && |x| == fcn.n then DifferenceJacobian(mach, fcn, x, epsfcn) else [],
            fcn.n, x0, d0, l)
  }

  /** Who stopped the run h, or why it ended. nfev counts the calls actually made unless the user stopped the run inside
      a Jacobian, in the call at the point at; then all its calls are counted, and x is left where it was moved. */
  ghost predicate Ends(p: Problem, h: History, x: Vec, diag: Vec, d: Control, v: Verdict, nfev: nat, calls: nat,
                       who: Caller, gnorm: real, s: Step, at: Vec) {
    match who
    case Nobody =>
      && calls == nfev
      && if v == Stop(4) then Flat(p, h, x, gnorm) && nfev == 1 + |h| + p.cost * NextJacobian(h)
         else Explained(p, h, x, diag, d, v, nfev)
    case Start => h == [] && x == p.x0 && nfev == calls == 1 && v == Stop(p.fcn.flag(0, x)) && v.info < 0
    case Trying => v.Stop? && Cut(p, h, s, v.info, nfev, calls) && calls == nfev
    case Jacobian =>
      && nfev == 1 + |h| + p.cost * NextJacobian(h) && nfev - p.cost < calls <= nfev && calls > 0
      && v == Stop(p.fcn.flag(calls - 1, at)) && v.info < 0 && (h != [] ==> Ruled(p, h).Next?)
  }

  /** The count of a run that has ended. */
  lemma CountBounded(p: Problem, h: History, x: Vec, diag: Vec, d: Control, v: Verdict, nfev: nat, calls: nat,
                     who: Caller, gnorm: real, s: Step, at: Vec)
    requires Trace(p, h) && Ends(p, h, x, diag, d, v, nfev, calls, who, gnorm, s, at) && p.cost >= 1
    ensures 1 <= calls <= nfev <= MaxInt(p.l.maxfev, 2) + p.cost && v != Stop(0)
  {
    hide Trace, Joined, StepOk, Aimed, Reported, LargestCosine;
    CallsBounded(p, h);
    match who
    case Nobody =>
      if v == Stop(4) {
        OpenCalls(p, h);
      } else {
        ExplainedOtherwise(p, h, x, diag, d, v, nfev);
      }
    case Start =>
    case Trying =>
      CutCalls(p, h, s, v.info, nfev, calls);
      OpenCalls(p, h);
    case Jacobian =>
      OpenCalls(p, h);
      CostStep(p.cost, 0, 1);
      AtLeastOnce(p.cost, NextJacobian(h));
  }

  lemma AtLeastOnce(cost: nat, k: nat)
    requires k >= 1
    ensures cost * k >= cost
  {
    assert cost * (k - 1) >= 0;
  }

  /** How a run ends with the function value f: the run h explains the result, the point it reached is no worse than the
      start, and the count stays within the limit by at most a Jacobian. */
  ghost predicate Outcome(p: Problem, h: History, x: Vec, f: Vec, diag: Vec, v: Verdict, nfev: nat, calls: nat,
                          d: Control, who: Caller, gnorm: real, s: Step, at: Vec) {
    && Descending(p, h, f) && Ends(p, h, x, diag, d, v, nfev, calls, who, gnorm, s, at)
    && (x == Reached(p, h) || who.Jacobian?)
    && 1 <= calls <= nfev <= MaxInt(p.l.maxfev, 2) + p.cost && v != Stop(0)
  }

  lemma EndsWell(p: Problem, h: History, x: Vec, f: Vec, diag: Vec, v: Verdict, nfev: nat, calls: nat, d: Control,
                 who: Caller, gnorm: real, s: Step, at: Vec)
    requires Trace(p, h) && (h != [] ==> StepOk(p.mach, p.fcn, Last(h))) && f == p.fcn.f(Reached(p, h)) && p.cost >= 1
    requires Ends(p, h, x, diag, d, v, nfev, calls, who, gnorm, s, at) && (x == Reached(p, h) || who.Jacobian?)
    ensures Outcome(p, h, x, f, diag, v, nfev, calls, d, who, gnorm, s, at)
  {
    hide StepOk, Trace, Ends, Reached;
    RunIsDescending(p, h, f);
    CountBounded(p, h, x, diag, d, v, nfev, calls, who, gnorm, s, at);
  }

  /** Between outer iterations the run waits for a Jacobian. */
  ghost predicate Between(p: Problem, k: Work, h: History, d: Control, v: Verdict, nfev: nat, calls: nat, who: Caller,
                          gnorm: real, s: Step, at: Vec)
    reads k.x, k.fvec, k.diag
  {
    if v.Next? then OuterHead(p, k, h, d) && calls == nfev == 1 + |h| + p.cost * (NextJacobian(h) - 1)
    else Outcome(p, h, k.x[..], k.fvec[..], k.diag[..], v, nfev, calls, d, who, gnorm, s, at)
  }

  /** How the inner loop ended. */
  ghost method Settled(p: Problem, k: Work, h: History, d: Control, v: Verdict, j0: Mat, gnorm: real, iter: nat,
                       nfev: nat, calls: nat, s: Step, at: Vec)
    returns (who: Caller)
    requires Running(p, k, h, d, v, j0, gnorm, iter, nfev, calls, s) && v != Stop(4) && !v.Again? && calls == nfev
    ensures Trace(p, h) && (h != [] ==> StepOk(p.mach, p.fcn, Last(h))) && k.x[..] == Reached(p, h)
    ensures v.Next? ==> Awaiting(p, h, k.x[..], k.diag[..], d) && nfev == 1 + |h| + p.cost * (NextJacobian(h) - 1)
    ensures v.Stop? ==> Ends(p, h, k.x[..], k.diag[..], d, v, nfev, calls, who, gnorm, s, at)
  {
    hide StepOk, StateOk, Joined, Aimed, Explained, Judge;
    if v.Stop? && v.info < 0 {
      who := Trying;
      CutCalls(p, h, s, v.info, nfev, calls);
    } else {
      who := Nobody;
      StepSizes(p.mach, p.fcn, Last(h));
      if v.Stop? {
        JudgedIsExplained(p, h, k.x[..], k.diag[..], d, v, nfev);
      } else {
        StepAdvances(p.mach, p.fcn, Last(h));
        assert NextJacobian(h) - 1 == Jacobians(h);
      }
    }
  }

  /** Stopped inside the Jacobian at the point reached by h. */
  lemma JacobianEnds(p: Problem, h: History, x: Vec, diag: Vec, d: Control, iflag: int, nfev0: nat, nfev: nat,
                     calls: nat, gnorm: real, s: Step, at: Vec)
    requires (h != [] ==> Ruled(p, h).Next?) && nfev0 == 1 + |h| + p.cost * (NextJacobian(h) - 1)
    requires NextJacobian(h) >= 1
    requires nfev == nfev0 + p.cost && nfev0 < calls <= nfev && iflag == p.fcn.flag(calls - 1, at) < 0
    ensures Ends(p, h, x, diag, d, Stop(iflag), nfev, calls, Jacobian, gnorm, s, at)
    ensures nfev == 1 + |h| + p.cost * NextJacobian(h)
  {
    OneMore(p.cost, NextJacobian(h));
  }

  /** Stopped by the gradient. */
  lemma FlatEnds(p: Problem, h: History, x: Vec, diag: Vec, d: Control, nfev: nat, gnorm: real, s: Step, at: Vec)
    requires Flat(p, h, x, gnorm) && nfev == 1 + |h| + p.cost * NextJacobian(h)
    ensures Ends(p, h, x, diag, d, Stop(4), nfev, nfev, Nobody, gnorm, s, at)
    ensures Trace(p, h) && (h != [] ==> StepOk(p.mach, p.fcn, Last(h))) && x == Reached(p, h)
  {
    hide Trace, StepOk, LargestCosine;
  }

  /** The rest of an outer iteration whose Jacobian is in fjac; nfev0 counts its calls. */
  method StepPass(mach: Machine, fcn: Fcn, k: Work, l: Limits, d0: Control, nfev0: nat,
                  ghost p: Problem, ghost h0: History, ghost at: Vec)
    returns (d: Control, v: Verdict, nfev: nat, ghost h: History, ghost who: Caller, ghost gnorm: real, ghost s: Step)
    requires mach == p.mach && fcn == p.fcn && l == p.l && OuterHead(p, k, h0, d0) && p.cost >= 1
    requires ColsOf(k.fjac) == p.jac(k.x[..]) && nfev0 == 1 + |h0| + p.cost * NextJacobian(h0)
    modifies k.x, k.fvec, k.diag, k.qtf, k.ipvt, k.fjac, k.wa1, k.wa2, k.wa3, k.wa4
    ensures Between(p, k, h, d, v, nfev, nfev, who, gnorm, s, at) && !v.Again?
    ensures v.Next? ==> nfev0 < nfev < l.maxfev && NextJacobian(h) >= 1
  {
    hide StepOk, Trace, Joined, Aimed, Explained, Judge, Descending, Reached, Outcome, LargestCosine, Ends, Flat;
    hide Cut, ColsOf, ColOf, Last, StateOk, Jacobians, Success;
    who := Nobody;
    var calls;
    ghost var j0;
    d, v, nfev, calls, h, j0, gnorm, s := FactorAndIterate(mach, fcn, k, d0, l, nfev0, nfev0, p, h0);
    if v == Stop(4) {
      FlatEnds(p, h, k.x[..], k.diag[..], d, nfev, gnorm, s, at);
    } else {
      who := Settled(p, k, h, d, v, j0, gnorm, NextJacobian(h0), nfev, calls, s, at);
    }
    if v.Stop? {
      EndsWell(p, h, k.x[..], k.fvec[..], k.diag[..], v, nfev, nfev, d, who, gnorm, s, at);
    }
  }

  /** One outer iteration. */
  method OuterPass(mach: Machine, fcn: Fcn, k: Work, l: Limits, epsfcn: real, d0: Control, nfev0: nat,
                   ghost p: Problem, ghost h0: History)
    returns (d: Control, v: Verdict, nfev: nat, calls: nat, ghost h: History, ghost who: Caller, ghost gnorm: real,
             ghost s: Step, ghost at: Vec)
    requires p == ProblemOf(mach, fcn, epsfcn, p.x0, p.d0, l) && OuterHead(p, k, h0, d0)
    requires NextJacobian(h0) >= 1 && nfev0 == 1 + |h0| + p.cost * (NextJacobian(h0) - 1)
    modifies k.x, k.fvec, k.diag, k.qtf, k.ipvt, k.fjac, k.wa1, k.wa2, k.wa3, k.wa4
    ensures Between(p, k, h, d, v, nfev, calls, who, gnorm, s, at) && !v.Again?
    ensures v.Next? ==> nfev0 < nfev < l.maxfev && NextJacobian(h) >= 1
  {
    hide StepOk, Trace, Joined, Judge, Descending, Reached, Outcome, Ends, DifferenceJacobian;
    h, who, gnorm, d := h0, Nobody, 0.0, d0;
    s := Step(StateOf(k, [], 0.0, d0), 0.0, [], Trial(0.0, 0.0, 0.0, 0.0, 0.0, 0.0), d0);
    var iflag, made;
    iflag, made, at := Fdjac2(mach, fcn, k.x, k.fvec[..], k.fjac, epsfcn, k.wa4, nfev0);
    nfev, calls := nfev0 + k.n, nfev0 + made;
    if iflag < 0 {
      v, who := Stop(iflag), Jacobian;
      JacobianEnds(p, h, k.x[..], k.diag[..], d, iflag, nfev0, nfev, calls, gnorm, s, at);
      EndsWell(p, h, k.x[..], k.fvec[..], k.diag[..], v, nfev, calls, d, who, gnorm, s, at);
    } else {
      OneMore(p.cost, NextJacobian(h0));
      d, v, nfev, h, who, gnorm, s := StepPass(mach, fcn, k, l, d0, nfev, p, h0, at);
      calls := nfev;
    }
  }

  lemma OneMore(cost: nat, k: nat)
    requires k >= 1
    ensures cost * k == cost * (k - 1) + cost
  {
  }

  /** The outer loop, from the first evaluation on. */
  method Run(mach: Machine, fcn: Fcn, k: Work, l: Limits, epsfcn: real, c0: Control, ghost p: Problem)
    returns (v: Verdict, nfev: nat, d: Control, calls: nat, ghost h: History, ghost who: Caller, ghost gnorm: real,
             ghost s: Step, ghost at: Vec)
    requires p == ProblemOf(mach, fcn, epsfcn, k.x[..], k.diag[..], l) && OuterHead(p, k, [], c0)
    modifies k.x, k.fvec, k.diag, k.qtf, k.ipvt, k.fjac, k.wa1, k.wa2, k.wa3, k.wa4
    ensures Outcome(p, h, k.x[..], k.fvec[..], k.diag[..], v, nfev, calls, d, who, gnorm, s, at)
  {
    hide OuterHead, Outcome, StepOk, Trace;
    v, nfev, d, calls, h, who, gnorm, at := Next, 1, c0, 1, [], Nobody, 0.0, k.x[..];
    s := Step(StateOf(k, [], 0.0, c0), 0.0, [], Trial(0.0, 0.0, 0.0, 0.0, 0.0, 0.0), c0);
    while v.Next?
      invariant Between(p, k, h, d, v, nfev, calls, who, gnorm, s, at)
      invariant v.Next? ==> (nfev == 1 || nfev < l.maxfev) && NextJacobian(h) >= 1
      decreases if v.Next? then MaxInt(l.maxfev, 2) + 1 - nfev else 0
    {
      d, v, nfev, calls, h, who, gnorm, s, at := OuterPass(mach, fcn, k, l, epsfcn, d, nfev, p, h);
    }
  }

  /** lmdif. calls counts the calls actually made, d holds the final scalars, h is the run. */
  method Lmdif(mach: Machine, fcn: Fcn, k: Work, l: Limits, epsfcn: real)
    returns (v: Verdict, nfev: nat, d: Control, calls: nat, ghost h: History, ghost who: Caller, ghost gnorm: real,
             ghost s: Step, ghost at: Vec)
    requires mach.Valid() && fcn.Valid() && fcn.n == k.n && fcn.m == k.m && k.Apart()
    modifies k.x, k.fvec, k.diag, k.qtf, k.ipvt, k.fjac, k.wa1, k.wa2, k.wa3, k.wa4
    ensures v == Stop(0) <==>
              k.n == 0 || k.m < k.n || l.ftol < 0.0 || l.xtol < 0.0 || l.gtol < 0.0 || l.maxfev <= 0 || l.factor <= 0.0
              || (l.mode == 2 && exists j :: 0 <= j < k.n && old(k.diag[j]) <= 0.0)
    ensures !old(Proper(k, l)) ==>
              v == Stop(0) && nfev == calls == 0
              && unchanged(k.x, k.fvec, k.diag, k.qtf, k.ipvt, k.fjac, k.wa1, k.wa2, k.wa3, k.wa4)
    ensures old(Proper(k, l)) ==>
              Outcome(old(ProblemOf(mach, fcn, epsfcn, k.x[..], k.diag[..], l)), h, k.x[..], k.fvec[..], k.diag[..],
                      v, nfev, calls, d, who, gnorm, s, at)
  {
    hide Dot, StepOk, NextJacobian, Explained, Cut, Ruled, IsMat, DenseColumn, Increments;
    v, nfev, calls, h, who, gnorm, at := Stop(0), 0, 0, [], Nobody, 0.0, k.x[..];
    d := Control(1, 0.0, 0.0, 0.0, 0.0);
    s := Step(StateOf(k, [], 0.0, d), 0.0, [], Trial(0.0, 0.0, 0.0, 0.0, 0.0, 0.0), d);
    ghost var p := ProblemOf(mach, fcn, epsfcn, k.x[..], k.diag[..], l);
    var ok := CheckInputs(k, l);
    if !ok {
      return;
    }
    var iflag := Call(fcn, k.x[..], k.fvec, 0);
    nfev, calls := 1, 1;
    if iflag < 0 {
      v, who := Stop(iflag), Start;
      return;
    }
    v, nfev, d, calls, h, who, gnorm, s, at := Run(mach, fcn, k, l, epsfcn, d.(fnorm := mach.Norm(k.fvec[..])), p);
  }
}
