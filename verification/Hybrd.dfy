/** hybrd: Powell's hybrid method with difference Jacobians. */
module Hybrd {
  import opened Reals
  import opened Vectors
  import opened Machines
  import opened Users
  import opened Runs
  import opened Fdjac
  import opened HybridStep
  import opened HybridTrace
  import opened Hybrid
  import opened HybridLoop

  /** The problem a call of hybrd poses: its Jacobians are differences, and count as so many calls. */
  ghost function ProblemOf(mach: Machine, fcn: Fcn, ml: nat, mu: nat, epsfcn: real, x0: Vec, d0: Vec,
                           l: Limits): Problem {
    Problem(mach, fcn,
            x => if mach.Valid() && fcn.Valid() && |x| == fcn.n then BandJacobian(mach, fcn, x, ml, mu, epsfcn) else [],
            JacobianCalls(fcn.n, ml, mu), x0, d0, l)
  }

  /** Who stopped the run h, or why it ended. nfev counts the calls actually made unless the user stopped the run inside
      a Jacobian, in the call at the point at; then all its calls are counted, and x is left where it was moved. */
  ghost predicate Ends(p: Problem, h: History, x: Vec, diag: Vec, d: Control, v: Verdict, nfev: nat, calls: nat,
                       who: Caller, s: Step, at: Vec) {
    match who
    case Nobody => Explained(p, h, x, diag, d, v, nfev) && x == Last(h).Next() && calls == nfev
    case Start => h == [] && x == p.x0 && nfev == calls == 1 && v == Stop(p.fcn.flag(0, x)) && v.info < 0
    case Trying => v.Stop? && Cut(p, h, s, v.info, nfev, calls) && x == s.a.x && calls == nfev
    case Jacobian =>
      && nfev == Calls(p, h) + p.cost && Calls(p, h) < calls <= nfev && v == Stop(p.fcn.flag(calls - 1, at))
      && v.info < 0
      && (h != [] ==> Ruled(p, h).Refactor?)
  }

  /** The count of a run that has ended. */
  lemma CountBounded(p: Problem, h: History, x: Vec, diag: Vec, d: Control, v: Verdict, nfev: nat, calls: nat,
                     who: Caller, s: Step, at: Vec)
    requires Trace(p, h) && Ends(p, h, x, diag, d, v, nfev, calls, who, s, at)
    ensures 1 <= calls <= nfev <= MaxInt(p.l.maxfev, 2) + p.cost && v != Stop(0)
  {
    hide Trace, Joined, StepOk, Aimed, Reported;
    CallsBounded(p, h);
    match who
    case Nobody => ExplainedOtherwise(p, h, x, diag, d, v, nfev);
    case Start =>
    case Trying =>
      CutCalls(p, h, s, v.info, nfev, calls);
      OpenCalls(p, h);
    case Jacobian =>
      OpenCalls(p, h);
  }

  /** How a run ends with the function value f: the run h explains the result, the point it reached is no worse than the
      start, and the count stays within the limit by at most a Jacobian. */
  ghost predicate Outcome(p: Problem, h: History, x: Vec, f: Vec, diag: Vec, v: Verdict, nfev: nat, calls: nat,
                          d: Control, who: Caller, s: Step, at: Vec) {
    && Descending(p, h, f) && Ends(p, h, x, diag, d, v, nfev, calls, who, s, at)
    && (x == Reached(p, h) || who.Jacobian?)
    && 1 <= calls <= nfev <= MaxInt(p.l.maxfev, 2) + p.cost && v != Stop(0)
  }

  lemma EndsWell(p: Problem, h: History, x: Vec, f: Vec, diag: Vec, v: Verdict, nfev: nat, calls: nat, d: Control,
                 who: Caller, s: Step, at: Vec)
    requires Trace(p, h) && (h != [] ==> StepOk(p.mach, p.fcn, Last(h))) && f == p.fcn.f(Reached(p, h))
    requires Ends(p, h, x, diag, d, v, nfev, calls, who, s, at) && (x == Reached(p, h) || who.Jacobian?)
    ensures Outcome(p, h, x, f, diag, v, nfev, calls, d, who, s, at)
  {
    hide StepOk, Trace, Ends, Reached;
    RunIsDescending(p, h, f);
    CountBounded(p, h, x, diag, d, v, nfev, calls, who, s, at);
  }

  /** Between outer iterations the run waits for a Jacobian. */
  ghost predicate Between(p: Problem, k: Work, h: History, d: Control, v: Verdict, nfev: nat, calls: nat, who: Caller,
                          s: Step, at: Vec)
    reads k.x, k.fvec, k.diag
  {
    if v.Refactor? then OuterHead(p, k, h, d) && nfev == calls == Calls(p, h)
    else Outcome(p, h, k.x[..], k.fvec[..], k.diag[..], v, nfev, calls, d, who, s, at)
  }

  /** How the inner loop ended. */
  ghost method Settled(p: Problem, k: Work, h: History, d: Control, v: Verdict, nfev: nat, njev: nat, calls: nat,
                       s: Step, at: Vec)
    returns (who: Caller)
    requires Running(p, k, h, d, v, nfev, njev, calls, s) && !v.Update? && calls == nfev
    ensures Trace(p, h) && (h != [] ==> StepOk(p.mach, p.fcn, Last(h))) && k.x[..] == Reached(p, h)
    ensures v.Refactor? ==> Awaiting(p, h, k.x[..], k.diag[..], d) && nfev == Calls(p, h)
    ensures !v.Refactor? ==> Ends(p, h, k.x[..], k.diag[..], d, v, nfev, calls, who, s, at)
  {
    hide StepOk, StateOk, Joined, Aimed, Explained;
    if v.Stop? && v.info < 0 {
      who := Trying;
      CutCalls(p, h, s, v.info, nfev, calls);
    } else {
      who := Nobody;
      if !v.Refactor? {
        JudgedIsExplained(p, h, k.x[..], k.diag[..], d, v, nfev);
      }
    }
  }

  /** One outer iteration: difference the function, factor, and iterate. */
  method OuterPass(mach: Machine, fcn: Fcn, k: Work, l: Limits, ml: nat, mu: nat, epsfcn: real, d0: Control, nfev0: nat,
                   ghost p: Problem, ghost h0: History)
    returns (d: Control, v: Verdict, nfev: nat, calls: nat, ghost h: History, ghost who: Caller, ghost s: Step,
             ghost at: Vec)
    requires p == ProblemOf(mach, fcn, ml, mu, epsfcn, p.x0, p.d0, l) && OuterHead(p, k, h0, d0)
    requires nfev0 == Calls(p, h0)
    modifies k.x, k.fvec, k.diag, k.qtf, k.r, k.fjac, k.wa1, k.wa2, k.wa3, k.wa4
    ensures Between(p, k, h, d, v, nfev, calls, who, s, at)
    ensures v.Refactor? ==> nfev0 < nfev < l.maxfev
  {
    hide StepOk, Trace, Joined, Aimed, Explained, Ruled, Descending, Reached, Outcome, BandJacobian, StateOk, Calls;
    hide StateOf, Fresh, Last;
    h, who := h0, Nobody;
    s := Step(StateOf(k, d0), [], [], Trial(0.0, 0.0, 0.0, 0.0, 0.0), d0);
    var iflag, made;
    iflag, made, at := Fdjac1(mach, fcn, k.x, k.fvec[..], k.fjac, ml, mu, epsfcn, k.wa1, k.wa2, nfev0);
    nfev, calls := nfev0 + JacobianCalls(k.n, ml, mu), nfev0 + made;
    if iflag < 0 {
      d, v, who := d0, Stop(iflag), Jacobian;
    } else {
      d, v, nfev, calls, h, s := FactorAndIterate(mach, fcn, k, d0, l, nfev, calls, p, h0);
      who := Settled(p, k, h, d, v, nfev, Fresh(h0) + 1, calls, s, at);
    }
    if !v.Refactor? {
      EndsWell(p, h, k.x[..], k.fvec[..], k.diag[..], v, nfev, calls, d, who, s, at);
    }
  }

  /** The outer loop, from the first evaluation on. */
  method Run(mach: Machine, fcn: Fcn, k: Work, l: Limits, ml: nat, mu: nat, epsfcn: real, c0: Control, ghost p: Problem)
    returns (v: Verdict, nfev: nat, d: Control, calls: nat, ghost h: History, ghost who: Caller, ghost s: Step,
             ghost at: Vec)
    requires p == ProblemOf(mach, fcn, ml, mu, epsfcn, k.x[..], k.diag[..], l) && OuterHead(p, k, [], c0)
    modifies k.x, k.fvec, k.diag, k.qtf, k.r, k.fjac, k.wa1, k.wa2, k.wa3, k.wa4
    ensures Outcome(p, h, k.x[..], k.fvec[..], k.diag[..], v, nfev, calls, d, who, s, at)
  {
    hide OuterHead, Outcome, StepOk, Trace;
    v, nfev, d, calls, h, who, at := Refactor, 1, c0, 1, [], Nobody, k.x[..];
    s := Step(StateOf(k, c0), [], [], Trial(0.0, 0.0, 0.0, 0.0, 0.0), c0);
    while v.Refactor?
      invariant Between(p, k, h, d, v, nfev, calls, who, s, at) && (v.Refactor? ==> nfev == 1 || nfev < l.maxfev)
      decreases if v.Refactor? then MaxInt(l.maxfev, 2) + 1 - nfev else 0
    {
      d, v, nfev, calls, h, who, s, at := OuterPass(mach, fcn, k, l, ml, mu, epsfcn, d, nfev, p, h);
    }
  }

  /** hybrd. calls counts the calls actually made, d holds the final counters, h is the run. */
  method Hybrd(mach: Machine, fcn: Fcn, k: Work, l: Limits, ml: int, mu: int, epsfcn: real)
    returns (v: Verdict, nfev: nat, d: Control, calls: nat, ghost h: History, ghost who: Caller, ghost s: Step,
             ghost at: Vec)
    requires mach.Valid() && fcn.Valid() && fcn.n == fcn.m == k.n && k.Apart()
    modifies k.x, k.fvec, k.diag, k.qtf, k.r, k.fjac, k.wa1, k.wa2, k.wa3, k.wa4
    ensures v == Stop(0) <==>
              k.n == 0 || l.xtol < 0.0 || l.maxfev <= 0 || ml < 0 || mu < 0 || l.factor <= 0.0
              || k.r.Length < k.n * (k.n + 1) / 2
              || (l.mode == 2 && exists j :: 0 <= j < k.n && old(k.diag[j]) <= 0.0)
    ensures !(old(Proper(k, l)) && ml >= 0 && mu >= 0) ==>
              v == Stop(0) && nfev == calls == 0
              && unchanged(k.x, k.fvec, k.diag, k.qtf, k.r, k.fjac, k.wa1, k.wa2, k.wa3, k.wa4)
    ensures old(Proper(k, l)) && ml >= 0 && mu >= 0 ==>
              Outcome(old(ProblemOf(mach, fcn, ml, mu, epsfcn, k.x[..], k.diag[..], l)), h, k.x[..], k.fvec[..],
                      k.diag[..],
                      v, nfev, calls, d, who, s, at)
  {
    v, nfev, calls, h, who, at := Stop(0), 0, 0, [], Nobody, k.x[..];
    d := Control(1, 0, 0, 0, 0, true, 0.0, 0.0, 0.0);
    s := Step(StateOf(k, d), [], [], Trial(0.0, 0.0, 0.0, 0.0, 0.0), d);
    var ok := CheckInputs(k, l);
    if !ok || ml < 0 || mu < 0 {
      return;
    }
    ghost var p := ProblemOf(mach, fcn, ml, mu, epsfcn, k.x[..], k.diag[..], l);
    var iflag := Call(fcn, k.x[..], k.fvec, 0);
    nfev, calls := 1, 1;
    if iflag < 0 {
      v, who := Stop(iflag), Start;
      return;
    }
    v, nfev, d, calls, h, who, s, at := Run(mach, fcn, k, l, ml, mu, epsfcn, d.(fnorm := mach.Norm(k.fvec[..])), p);
  }
}
