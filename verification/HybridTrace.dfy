/** A run of the hybrid method as the sequence of its trial steps: which sequences are runs, and what holds of all of
    them. */
module HybridTrace {
  import opened Reals
  import opened Vectors
  import opened Machines
  import opened Packed
  import opened Users
  import opened Runs
  import opened Dogleg
  import opened Broyden
  import opened Scaling
  import opened HybridStep

  /** The limits a run is given. */
  datatype Limits = Limits(xtol: real, maxfev: int, mode: int, factor: real)

  /** The function with the columns of its Jacobian as the solver forms them, at cost calls each, the start, the scale
      the caller gave, and the limits. */
  datatype Problem = Problem(mach: Machine, fcn: Fcn, jac: Vec -> Mat, cost: nat, x0: Vec, d0: Vec, l: Limits)

  ghost predicate ProblemOk(g: Problem) {
    && g.mach.Valid() && g.fcn.Valid() && 1 <= |g.x0| == |g.d0| == g.fcn.n == g.fcn.m
    && g.l.xtol >= 0.0 && g.l.factor > 0.0 && (g.l.mode == 2 ==> Positive(g.d0))
    && forall x: Vec {:trigger g.jac(x)} :: |x| == g.fcn.n ==> IsMat(g.jac(x), g.fcn.n, g.fcn.n)
  }

  type History = seq<Step>

  /** The number of steps taken with a Jacobian just formed. */
  function Fresh(h: History): (k: nat)
    ensures k <= |h|
  {
    if h == [] then 0 else Fresh(Init(h)) + if Last(h).a.c.jeval then 1 else 0
  }

  /** The number of calls when the last step of h has been judged. */
  function Calls(g: Problem, h: History): nat {
    1 + |h| + g.cost * Fresh(h)
  }

  /** How the last step of h ends. */
  function Ruled(g: Problem, h: History): Verdict
    requires h != []
  {
    Ruling(g.mach, Last(h), g.l.xtol, Calls(g, h), g.l.maxfev)
  }

  // ---- the steps of a run ----

  /** Q R is the Jacobian at x. */
  ghost predicate Factors(g: Problem, a: State)
    requires ProblemOk(g) && StateOk(g.mach, g.fcn, a)
  {
    forall i, j :: 0 <= i < |a.x| && 0 <= j < |a.x| ==> Product(a.q, Upper(a.r, |a.x|), |a.x|)[i][j] == g.jac(a.x)[j][i]
  }

  /** The scale comes from the columns of the Jacobian and the scale d before it. */
  ghost predicate Rescaled(g: Problem, first: bool, d: Vec, a: State)
    requires ProblemOk(g) && StateOk(g.mach, g.fcn, a) && |d| == |a.x|
  {
    forall j :: 0 <= j < |a.x| ==> a.d[j] == ScaleAt(first, g.l.mode, g.mach.Norm(g.jac(a.x)[j]), d[j])
  }

  /** The counters with the bound and the norm of x for a scale just chosen. */
  ghost function Restarted(g: Problem, c: Control, a: State): Control
    requires ProblemOk(g) && StateOk(g.mach, g.fcn, a)
  {
    var xnorm := ScaledNorm(g.mach, a.d, a.x);
    c.(jeval := true, delta := StartBound(g.l.factor, xnorm), xnorm := xnorm)
  }

  /** The counters when the function has been evaluated at the start. */
  ghost function Started(g: Problem): Control
    requires ProblemOk(g)
  {
    Control(1, 0, 0, 0, 0, true, 0.0, 0.0, g.mach.Norm(g.fcn.f(g.x0)))
  }

  /** A new Jacobian at the point reached, with counters c and scale d from before. While no iteration has succeeded the
      scale and the bound are chosen anew. */
  ghost predicate Renewed(g: Problem, x: Vec, d: Vec, c: Control, a: State)
    requires ProblemOk(g) && StateOk(g.mach, g.fcn, a) && |d| == |a.x|
  {
    && a.x == x && Factors(g, a) && Rescaled(g, c.iter == 1, d, a)
    && a.c == if c.iter == 1 then Restarted(g, c, a) else c.(jeval := true)
  }

  /** The next step starts from a: with a new Jacobian at the beginning and when the tests ask for one, and otherwise
      with the factors updated. */
  ghost predicate Joined(g: Problem, h: History, a: State)
    requires ProblemOk(g) && (h != [] ==> StepOk(g.mach, g.fcn, Last(h)))
  {
    && StateOk(g.mach, g.fcn, a)
    && if h == [] then Renewed(g, g.x0, g.d0, Started(g), a)
       else
         var s := Last(h);
         var v := Ruled(g, h);
         if a.c.jeval then v.Refactor? && Renewed(g, s.Next(), s.a.d, s.e, a) else v.Update? && Carried(g, s, a)
  }

  /** The state after a rank-one update. */
  ghost predicate Carried(g: Problem, s: Step, a: State)
    requires ProblemOk(g) && StepOk(g.mach, g.fcn, s)
  {
    && a.x == s.Next() && a.d == s.a.d && a.c == s.e.(jeval := false)
    && exists up :: FactorsFollow(g.mach, g.fcn, s, a.q, a.r, up)
  }

  /** h is a run as far as it has come. */
  ghost predicate Trace(g: Problem, h: History)
    decreases |h|
  {
    && ProblemOk(g)
    && (h != [] ==> Trace(g, Init(h)) && Joined(g, Init(h), Last(h).a) && StepOk(g.mach, g.fcn, Last(h)))
  }

  /** The point reached. */
  function Reached(g: Problem, h: History): Vec
    requires h != [] ==> |Last(h).p| == |Last(h).a.x|
  {
    if h == [] then g.x0 else Last(h).Next()
  }

  lemma TraceExtends(g: Problem, h: History, s: Step)
    requires Trace(g, h) && Joined(g, h, s.a) && StepOk(g.mach, g.fcn, s)
    ensures Trace(g, h + [s]) && Calls(g, h + [s]) == Calls(g, h) + 1 + (if s.a.c.jeval then g.cost else 0)
    ensures Init(h + [s]) == h && Last(h + [s]) == s
  {
    hide StepOk, Joined;
    assert Init(h + [s]) == h;
    CallsStep(g, h, s);
  }

  lemma CallsStep(g: Problem, h: History, s: Step)
    ensures Calls(g, h + [s]) == Calls(g, h) + 1 + (if s.a.c.jeval then g.cost else 0)
  {
    assert Init(h + [s]) == h;
  }

  // ---- what holds of every run ----

  /** All trials from the k-th on improved the norm by less than tol. */
  ghost predicate SlowSince(h: History, k: nat, tol: real) {
    forall i :: k <= i < |h| ==> h[i].t.actred < tol
  }

  lemma SlowSinceInit(h: History, k: nat, tol: real)
    requires h != [] && k < |h|
    ensures SlowSince(h, k, tol) <==> SlowSince(Init(h), k, tol) && Last(h).t.actred < tol
  {
    var i := Init(h);
    if SlowSince(i, k, tol) && Last(h).t.actred < tol {
      forall j | k <= j < |h|
        ensures h[j].t.actred < tol
      {
        assert j < |i| ==> i[j] == h[j];
      }
    }
    if SlowSince(h, k, tol) {
      forall j | k <= j < |i|
        ensures i[j].t.actred < tol
      {
        assert i[j] == h[j];
      }
    }
  }

  /** The first counter of slow progress: v when the last v trials each gained less than a thousandth. */
  lemma {:induction false} SlowTrials(g: Problem, h: History, v: nat)
    requires Trace(g, h) && h != [] && v >= 1
    ensures Last(h).e.nslow1 >= v <==> |h| >= v && SlowSince(h, |h| - v, 0.001)
    decreases |h|
  {
    hide StepOk, Joined, SlowSince;
    CountersCarried(g, h);
    if |h| >= v {
      SlowSinceInit(h, |h| - v, 0.001);
    }
    if v > 1 && |h| > 1 {
      SlowTrials(g, Init(h), v - 1);
    } else {
      SlowNone(Init(h), 0.001);
    }
  }

  lemma SlowNone(h: History, tol: real)
    ensures SlowSince(h, |h|, tol)
  {
  }

  /** The counters at the head of a step are those the step before left. */
  ghost predicate CountersOf(h: History)
    requires h != []
  {
    var s := Last(h); var c, e := s.a.c, s.e;
    && c.nslow1 == (if |h| == 1 then 0 else Last(Init(h)).e.nslow1)
    && c.nslow2 == (if |h| == 1 then 0 else Last(Init(h)).e.nslow2)
    && c.ncfail == (if |h| == 1 then 0 else Last(Init(h)).e.ncfail)
    && c.iter == (if |h| == 1 then 1 else Last(Init(h)).e.iter)
    && (|h| == 1 ==> c.jeval)
    && e.nslow1 == (if s.t.actred >= 0.001 then 0 else c.nslow1 + 1)
    && e.nslow2 == (if s.t.actred >= 0.1 then 0 else if c.jeval then c.nslow2 + 1 else c.nslow2)
    && e.ncfail == (if s.t.ratio < 0.1 then c.ncfail + 1 else 0)
    && (|h| > 1 ==> (c.jeval <==> c.ncfail == 2))
  }

  lemma CountersCarried(g: Problem, h: History)
    requires Trace(g, h) && h != []
    ensures CountersOf(h)
  {
    hide Joined, FactorOk, DoglegStep, Inputs, TrialAt, After, Ruled;
    var s := Last(h);
    CountersAfter(s.a.c, s.t, ScaledNorm(g.mach, s.a.d, s.Point()));
    if |h| > 1 {
      JudgedOn(g, h);
    } else {
      StartedFrom(g, h);
    }
  }

  lemma CountersAfter(c: Control, t: Trial, xnorm: real)
    ensures var e := After(c, t, xnorm);
      && e.nslow1 == (if t.actred >= 0.001 then 0 else c.nslow1 + 1)
      && e.nslow2 == (if t.actred >= 0.1 then 0 else if c.jeval then c.nslow2 + 1 else c.nslow2)
      && e.ncfail == (if t.ratio < 0.1 then c.ncfail + 1 else 0)
  {
  }

  lemma StartedFrom(g: Problem, h: History)
    requires Trace(g, h) && |h| == 1
    ensures var c := Last(h).a.c; c.nslow1 == c.nslow2 == c.ncfail == 0 && c.iter == 1 && c.jeval
  {
    hide StepOk, StateOk, Factors, Rescaled;
    assert Init(h) == [];
  }

  lemma JudgedOn(g: Problem, h: History)
    requires Trace(g, h) && |h| > 1
    ensures var v, w := Ruled(g, Init(h)), Last(Init(h));
      var c := Last(h).a.c;
      && (if c.jeval then v.Refactor? else v.Update?) && Calls(g, Init(h)) < g.l.maxfev
      && c.ncfail == w.e.ncfail && c.nslow1 == w.e.nslow1 && c.nslow2 == w.e.nslow2 && c.iter == w.e.iter
      && (c.jeval <==> w.e.ncfail == 2)
  {
    hide FactorsFollow, FactorOk, DoglegStep, Mul, Product, TrialOf, After, Factors, Rescaled;
  }

  /** The second counter: v when there is a step, taken with a Jacobian just formed, since which v Jacobians were formed
      and no trial gained a tenth. */
  lemma {:induction false} SlowJacobians(g: Problem, h: History, v: nat)
    requires Trace(g, h) && h != [] && v >= 1
    ensures Last(h).e.nslow2 >= v <==> SlowOver(h, v)
    decreases |h|
  {
    hide StepOk, Joined, SlowSince;
    CountersCarried(g, h);
    var s := Last(h);
    var w := if s.a.c.jeval then v - 1 else v;
    SlowOverInit(h, v);
    if w >= 1 && |h| > 1 {
      SlowJacobians(g, Init(h), w);
    }
  }

  /** Since some step no trial gained a tenth, and v Jacobians were formed. */
  ghost predicate SlowOver(h: History, v: nat) {
    exists k :: 0 <= k < |h| && SlowSince(h, k, 0.1) && Fresh(h) - Fresh(h[..k]) >= v
  }

  lemma SlowOverInit(h: History, v: nat)
    requires h != [] && v >= 1
    ensures var w := if Last(h).a.c.jeval then v - 1 else v;
      SlowOver(h, v) <==> Last(h).t.actred < 0.1 && (w == 0 || SlowOver(Init(h), w))
  {
    hide Last;
    var i, w := Init(h), if Last(h).a.c.jeval then v - 1 else v;
    forall k | 0 <= k < |h|
      ensures SlowSince(h, k, 0.1) <==> SlowSince(i, k, 0.1) && Last(h).t.actred < 0.1
      ensures i[..k] == h[..k]
    {
      SlowSinceInit(h, k, 0.1);
    }
    hide SlowSince;
    if Last(h).t.actred < 0.1 {
      if w == 0 {
        SlowNone(i, 0.1);
        assert SlowSince(h, |i|, 0.1);
      } else if SlowOver(i, w) {
        var k :| 0 <= k < |i| && SlowSince(i, k, 0.1) && Fresh(i) - Fresh(i[..k]) >= w;
        assert SlowSince(h, k, 0.1);
      }
    }
    if SlowOver(h, v) {
      var k :| 0 <= k < |h| && SlowSince(h, k, 0.1) && Fresh(h) - Fresh(h[..k]) >= v;
      if w > 0 {
        assert h[..|i|] == i;
        assert SlowSince(i, k, 0.1);
      }
    }
  }

  /** At least three trials pay for every new Jacobian. */
  lemma {:induction false} JacobiansPaid(g: Problem, h: History)
    requires Trace(g, h) && h != []
    ensures |h| + Needed(Last(h).e.ncfail) + 1 >= 3 * Fresh(h)
    decreases |h|
  {
    hide StepOk, Joined;
    CountersCarried(g, h);
    if |h| > 1 {
      JacobiansPaid(g, Init(h));
    } else {
      assert Init(h) == [];
    }
  }

  /** The least number of further trial steps before the failure counter can ask for a new Jacobian. */
  function Needed(ncfail: nat): nat {
    if ncfail < 2 then 2 - ncfail else if ncfail == 2 then 0 else 3
  }

  /** The calls stay within the limit, up to the step that reaches it. */
  lemma CallsBounded(g: Problem, h: History)
    requires Trace(g, h)
    ensures Calls(g, h) <= MaxInt(g.l.maxfev, 2) + g.cost
  {
    hide StepOk, Joined;
    if h != [] {
      assert Init(h) + [Last(h)] == h;
      CallsStep(g, Init(h), Last(h));
      if |h| > 1 {
        JudgedOn(g, h);
      } else {
        assert Init(h) == [];
      }
    }
  }

  /** The norm never grows, and has fallen exactly when an iteration has succeeded; until then the point is the
      start. */
  lemma {:induction false} RunDescends(g: Problem, h: History)
    requires Trace(g, h)
    ensures h != [] ==> StepOk(g.mach, g.fcn, Last(h))
    ensures |Reached(g, h)| == g.fcn.n
    ensures g.mach.Norm(g.fcn.f(Reached(g, h))) <= g.mach.Norm(g.fcn.f(g.x0))
    ensures Reached(g, h) == g.x0 || g.mach.Norm(g.fcn.f(Reached(g, h))) < g.mach.Norm(g.fcn.f(g.x0))
    decreases |h|
  {
    if h != [] {
      hide DoglegStep, FactorOk, FactorsFollow, Product, Mul, Joined, TrialAt, After, Inputs;
      RunDescends(g, Init(h));
      StepAdvances(g.mach, g.fcn, Last(h));
      JoinedPoint(g, Init(h), Last(h).a);
    }
  }

  lemma JoinedPoint(g: Problem, h: History, a: State)
    requires ProblemOk(g) && (h != [] ==> StepOk(g.mach, g.fcn, Last(h))) && Joined(g, h, a)
    ensures a.x == Reached(g, h)
  {
    hide DoglegStep, FactorOk, FactorsFollow, Factors, Rescaled, TrialAt, After, Judge, Inputs, Upper, Restarted;
  }

  /** What an info code says of the run and of the point it reached. */
  ghost predicate Reported(g: Problem, h: History, info: int)
    requires Trace(g, h) && h != [] && |Last(h).p| == |Last(h).a.x| == |Last(h).a.d| == g.fcn.n && g.mach.Valid()
  {
    var s := Last(h);
    var x := s.Next();
    && 1 <= info <= 5
    && (info == 1 ==> g.fcn.f(x) == Zero(g.fcn.n) || s.e.delta <= g.l.xtol * ScaledNorm(g.mach, s.a.d, x))
    && (info == 2 ==> Calls(g, h) >= g.l.maxfev)
    && (info == 3 ==> 0.01 * s.e.delta <= g.mach.epsmch * ScaledNorm(g.mach, s.a.d, x)
                      && 0.1 * s.t.pnorm <= g.mach.epsmch * ScaledNorm(g.mach, s.a.d, x))
    && (info == 4 ==> SlowOver(h, 5))
    && (info == 5 ==> |h| >= 10 && SlowSince(h, |h| - 10, 0.001))
  }

  lemma LargerReach(tol: real, a: real, b: real, ta: real, tb: real)
    requires tol >= 0.0 && a <= b && ta == tol * a && tb == tol * b
    ensures ta <= tb
  {
    NonnegProduct(tol, b - a, tol * (b - a));
  }

  /** The tests in terms of any bound on xnorm. */
  lemma JudgeSays(mach: Machine, e: Control, pnorm: real, xtol: real, nfev: nat, maxfev: int, reach: real)
    requires mach.Valid() && xtol >= 0.0 && e.xnorm <= reach && Judge(mach, e, pnorm, xtol, nfev, maxfev).Stop?
    ensures var info := Judge(mach, e, pnorm, xtol, nfev, maxfev).info;
      && 1 <= info <= 5
      && (info == 1 ==> e.fnorm == 0.0 || e.delta <= xtol * reach)
      && (info == 2 ==> nfev >= maxfev)
      && (info == 3 ==> 0.01 * e.delta <= mach.epsmch * reach && 0.1 * pnorm <= mach.epsmch * reach)
      && (info == 4 ==> e.nslow2 == 5) && (info == 5 ==> e.nslow1 == 10)
  {
    var tx, tr, px, pr := xtol * e.xnorm, xtol * reach, mach.epsmch * e.xnorm, mach.epsmch * reach;
    LargerReach(xtol, e.xnorm, reach, tx, tr);
    LargerReach(mach.epsmch, e.xnorm, reach, px, pr);
    JudgedBy(mach, e, pnorm, xtol, nfev, maxfev, tx, px);
    hide Judge, Max;
    if Judge(mach, e, pnorm, xtol, nfev, maxfev).info == 3 {
      BothBelow(e.delta, pnorm, px);
    }
  }

  /** The tests, with their products by name. */
  lemma JudgedBy(mach: Machine, e: Control, pnorm: real, xtol: real, nfev: nat, maxfev: int, tx: real, px: real)
    requires tx == xtol * e.xnorm && px == mach.epsmch * e.xnorm && Judge(mach, e, pnorm, xtol, nfev, maxfev).Stop?
    ensures var info := Judge(mach, e, pnorm, xtol, nfev, maxfev).info;
      && 1 <= info <= 5
      && (info == 1 ==> e.fnorm == 0.0 || e.delta <= tx) && (info == 2 ==> nfev >= maxfev)
      && (info == 3 ==> 0.1 * Max(0.1 * e.delta, pnorm) <= px)
      && (info == 4 ==> e.nslow2 == 5) && (info == 5 ==> e.nslow1 == 10)
  {
  }

  lemma BothBelow(delta: real, pnorm: real, t: real)
    requires 0.1 * Max(0.1 * delta, pnorm) <= t
    ensures 0.01 * delta <= t && 0.1 * pnorm <= t
  {
  }

  lemma RunReports(g: Problem, h: History)
    requires Trace(g, h) && h != [] && Ruled(g, h).Stop?
    ensures |Last(h).p| == |Last(h).a.x| == |Last(h).a.d| == g.fcn.n
    ensures Reported(g, h, Ruled(g, h).info)
  {
    hide DoglegStep, FactorOk, FactorsFollow, TrialAt, After, Inputs, Joined, SlowSince, SlowOver, Judge, Upper, Calls;
    hide StepOk;
    var s := Last(h);
    StepSizes(g.mach, g.fcn, s);
    StepAdvances(g.mach, g.fcn, s);
    NormZero(g.mach, g.fcn.f(s.Next()));
    JudgeSays(g.mach, s.e, s.t.pnorm, g.l.xtol, Calls(g, h), g.l.maxfev, ScaledNorm(g.mach, s.a.d, s.Next()));
    SlowTrials(g, h, 10);
    SlowJacobians(g, h, 5);
  }

  /** Every step of a run follows from the steps before it. */
  lemma {:induction false} StepOfRun(g: Problem, h: History, i: nat)
    requires Trace(g, h) && i < |h|
    ensures Trace(g, h[..i]) && (i > 0 ==> StepOk(g.mach, g.fcn, Last(h[..i])))
    ensures Joined(g, h[..i], h[i].a) && StepOk(g.mach, g.fcn, h[i])
    decreases |h|
  {
    hide StepOk, Joined;
    if i < |h| - 1 {
      StepOfRun(g, Init(h), i);
      assert Init(h)[..i] == h[..i];
    }
  }
}
