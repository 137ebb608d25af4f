/** hybrj: the hybrid method with a Jacobian supplied by the user, and its two call counters. */
module Hybrj {
  import opened Reals
  import opened Vectors
  import opened Machines
  import opened Users
  import opened Runs
  import opened HybridStep
  import opened HybridTrace
  import opened Hybrid
  import opened HybridLoop

  /** The problem a call of hybrj poses. Its Jacobians cost no function calls. */
  ghost function ProblemOf(mach: Machine, g: FcnDer, x0: Vec, d0: Vec, l: Limits): Problem {
    Problem(mach, g.fcn, g.jac, 0, x0, d0, l)
  }

  /** Who stopped the run h, or why it ended; nfev and njev count the calls made until then. s is the step cut by the
      user. */
  ghost predicate Ends(p: Problem, g: FcnDer, h: History, x: Vec, diag: Vec, d: Control, v: Verdict, nfev: nat,
                       njev: nat, who: Caller, s: Step) {
    match who
    case Nobody => Explained(p, h, x, diag, d, v, nfev) && njev == Fresh(h)
    case Start => h == [] && nfev == 1 && njev == 0 && v == Stop(g.fcn.flag(0, x)) && v.info < 0
    case Trying => v.Stop? && Cut(p, h, s, v.info, nfev, nfev) && njev == Fresh(h) + if s.a.c.jeval then 1 else 0
    case Jacobian =>
      && njev == Fresh(h) + 1 && nfev == Calls(p, h) && v == Stop(g.jflag(njev - 1, x)) && v.info < 0
      && (h != [] ==> Ruled(p, h).Refactor?)
  }

  /** The counts of a run that has ended. */
  lemma CountsBounded(p: Problem, g: FcnDer, h: History, x: Vec, diag: Vec, d: Control, v: Verdict, nfev: nat,
                      njev: nat, who: Caller, s: Step)
    requires Trace(p, h) && p.cost == 0 && Ends(p, g, h, x, diag, d, v, nfev, njev, who, s)
    ensures 1 <= nfev <= MaxInt(p.l.maxfev, 2) && 3 * (njev - 1) <= nfev && v != Stop(0)
  {
    hide Trace, Explained, Joined, StepOk, Aimed;
    CallsBounded(p, h);
    if h != [] {
      JacobiansPaid(p, h);
    }
    match who
    case Nobody =>
      assert nfev == Calls(p, h) by { ExplainedCalls(p, h, x, diag, d, v, nfev); }
      ExplainedOtherwise(p, h, x, diag, d, v, nfev);
    case Start =>
    case Trying =>
      CutCalls(p, h, s, v.info, nfev, nfev);
      OpenCalls(p, h);
    case Jacobian =>
  }

  lemma ExplainedCalls(p: Problem, h: History, x: Vec, diag: Vec, d: Control, v: Verdict, nfev: nat)
    requires Explained(p, h, x, diag, d, v, nfev)
    ensures nfev == Calls(p, h)
  {
    hide StepOk, Reported, Trace;
  }

  /** How a run ends at x with the function value f: the run h explains the result, the point is no worse than the
      start, the calls stay within the limit, and every Jacobian after the first was paid for by three function
      calls. */
  ghost predicate Outcome(p: Problem, g: FcnDer, h: History, x: Vec, f: Vec, diag: Vec, v: Verdict, nfev: nat,
                          njev: nat, d: Control, who: Caller, s: Step) {
    && Descending(p, h, f) && x == Reached(p, h) && Ends(p, g, h, x, diag, d, v, nfev, njev, who, s)
    && 1 <= nfev <= MaxInt(p.l.maxfev, 2) && 3 * (njev - 1) <= nfev && v != Stop(0)
  }

  lemma EndsWell(p: Problem, g: FcnDer, h: History, x: Vec, f: Vec, diag: Vec, v: Verdict, nfev: nat, njev: nat,
                 d: Control, who: Caller, s: Step)
    requires Trace(p, h) && (h != [] ==> StepOk(p.mach, p.fcn, Last(h))) && p.cost == 0
    requires x == Reached(p, h) && f == p.fcn.f(x) && Ends(p, g, h, x, diag, d, v, nfev, njev, who, s)
    ensures Outcome(p, g, h, x, f, diag, v, nfev, njev, d, who, s)
  {
    hide StepOk, Trace, Ends, Reached;
    RunIsDescending(p, h, f);
    CountsBounded(p, g, h, x, diag, d, v, nfev, njev, who, s);
  }

  /** Between outer iterations the run waits for a Jacobian. */
  ghost predicate Between(p: Problem, g: FcnDer, k: Work, h: History, d: Control, v: Verdict, nfev: nat, njev: nat,
                          who: Caller, s: Step)
    reads k.x, k.fvec, k.diag
  {
    if v.Refactor? then OuterHead(p, k, h, d) && nfev == Calls(p, h) && njev == Fresh(h)
    else Outcome(p, g, h, k.x[..], k.fvec[..], k.diag[..], v, nfev, njev, d, who, s)
  }

  /** How the inner loop ended. */
  ghost method Settled(p: Problem, g: FcnDer, k: Work, h: History, d: Control, v: Verdict, nfev: nat, njev: nat,
                       calls: nat, s: Step)
    returns (who: Caller)
    requires Running(p, k, h, d, v, nfev, njev, calls, s) && !v.Update? && calls == nfev && p.cost == 0
    ensures Trace(p, h) && (h != [] ==> StepOk(p.mach, p.fcn, Last(h))) && k.x[..] == Reached(p, h)
    ensures v.Refactor? ==> Awaiting(p, h, k.x[..], k.diag[..], d) && nfev == Calls(p, h) && njev == Fresh(h)
    ensures !v.Refactor? ==> Ends(p, g, h, k.x[..], k.diag[..], d, v, nfev, njev, who, s)
  {
    hide StepOk, StateOk, Joined, Aimed, Explained;
    if v.Stop? && v.info < 0 {
      who := Trying;
      CutCalls(p, h, s, v.info, nfev, calls);
    } else {
      who := Nobody;
      if !v.Refactor? {
        JudgedIsExplained(p, h, k.x[..], k.diag[..], d, v, nfev);
      }
    }
  }

  /** One outer iteration. */
  method OuterPass(mach: Machine, g: FcnDer, k: Work, l: Limits, d0: Control, nfev0: nat, njev0: nat, ghost p: Problem,
                   ghost h0: History)
    returns (d: Control, v: Verdict, nfev: nat, njev: nat, ghost h: History, ghost who: Caller, ghost s: Step)
    requires g.Valid() && mach == p.mach && g.fcn == p.fcn && g.jac == p.jac && l == p.l && p.cost == 0
    requires OuterHead(p, k, h0, d0) && nfev0 == Calls(p, h0) && njev0 == Fresh(h0)
    modifies k.x, k.fvec, k.diag, k.qtf, k.r, k.fjac, k.wa1, k.wa2, k.wa3, k.wa4
    ensures Between(p, g, k, h, d, v, nfev, njev, who, s)
    ensures v.Refactor? ==> nfev0 < nfev < l.maxfev
  {
    hide StepOk, Trace, Joined, Aimed, Explained, Ruled, Descending, Reached, Outcome;
    h, who := h0, Nobody;
    s := Step(StateOf(k, d0), [], [], Trial(0.0, 0.0, 0.0, 0.0, 0.0), d0);
    var iflag := CallJacobian(g, k.x[..], k.fjac, njev0);
    njev := njev0 + 1;
    if iflag < 0 {
      nfev, d, v, who := nfev0, d0, Stop(iflag), Jacobian;
    } else {
      var calls;
      d, v, nfev, calls, h, s := FactorAndIterate(mach, g.fcn, k, d0, l, nfev0, nfev0, p, h0);
      who := Settled(p, g, k, h, d, v, nfev, njev, calls, s);
    }
    if !v.Refactor? {
      EndsWell(p, g, h, k.x[..], k.fvec[..], k.diag[..], v, nfev, njev, d, who, s);
    }
  }

  /** The outer loop, from the first evaluation on. */
  method Run(mach: Machine, g: FcnDer, k: Work, l: Limits, c0: Control, ghost p: Problem)
    returns (v: Verdict, nfev: nat, njev: nat, d: Control, ghost h: History, ghost who: Caller, ghost s: Step)
    requires g.Valid() && p == ProblemOf(mach, g, k.x[..], k.diag[..], l) && OuterHead(p, k, [], c0)
    modifies k.x, k.fvec, k.diag, k.qtf, k.r, k.fjac, k.wa1, k.wa2, k.wa3, k.wa4
    ensures Outcome(p, g, h, k.x[..], k.fvec[..], k.diag[..], v, nfev, njev, d, who, s)
  {
    hide OuterHead, Outcome, StepOk, Trace;
    v, nfev, njev, d, h, who := Refactor, 1, 0, c0, [], Nobody;
    s := Step(StateOf(k, c0), [], [], Trial(0.0, 0.0, 0.0, 0.0, 0.0), c0);
    while v.Refactor?
      invariant Between(p, g, k, h, d, v, nfev, njev, who, s) && (v.Refactor? ==> nfev == 1 || nfev < l.maxfev)
      decreases if v.Refactor? then MaxInt(l.maxfev, 2) + 1 - nfev else 0
    {
      d, v, nfev, njev, h, who, s := OuterPass(mach, g, k, l, d, nfev, njev, p, h);
    }
  }

  /** hybrj. nfev counts the calls of the function, njev those of the Jacobian; h is the run. */
  method Hybrj(mach: Machine, g: FcnDer, k: Work, l: Limits)
    returns (v: Verdict, nfev: nat, njev: nat, d: Control, ghost h: History, ghost who: Caller, ghost s: Step)
    requires mach.Valid() && g.Valid() && g.fcn.n == g.fcn.m == k.n && k.Apart()
    modifies k.x, k.fvec, k.diag, k.qtf, k.r, k.fjac, k.wa1, k.wa2, k.wa3, k.wa4
    ensures v == Stop(0) <==>
              k.n == 0 || l.xtol < 0.0 || l.maxfev <= 0 || l.factor <= 0.0 || k.r.Length < k.n * (k.n + 1) / 2
              || (l.mode == 2 && exists j :: 0 <= j < k.n && old(k.diag[j]) <= 0.0)
    ensures !old(Proper(k, l)) ==>
              v == Stop(0) && nfev == njev == 0
              && unchanged(k.x, k.fvec, k.diag, k.qtf, k.r, k.fjac, k.wa1, k.wa2, k.wa3, k.wa4)
    ensures old(Proper(k, l)) ==>
              Outcome(old(ProblemOf(mach, g, k.x[..], k.diag[..], l)), g, h, k.x[..], k.fvec[..], k.diag[..],
                      v, nfev, njev, d, who, s)
  {
    v, nfev, njev, h, who := Stop(0), 0, 0, [], Nobody;
    d := Control(1, 0, 0, 0, 0, true, 0.0, 0.0, 0.0);
    s := Step(StateOf(k, d), [], [], Trial(0.0, 0.0, 0.0, 0.0, 0.0), d);
    ghost var p := ProblemOf(mach, g, k.x[..], k.diag[..], l);
    var ok := CheckInputs(k, l);
    if !ok {
      return;
    }
    var iflag := Call(g.fcn, k.x[..], k.fvec, 0);
    nfev := 1;
    if iflag < 0 {
      v, who := Stop(iflag), Start;
      return;
    }
    v, nfev, njev, d, h, who, s := Run(mach, g, k, l, d.(fnorm := mach.Norm(k.fvec[..])), p);
  }
}
