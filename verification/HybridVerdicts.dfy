/** When hybrd and hybrj stop, form a Jacobian or update their factors, in terms of the run alone; and how the scale
    grows. */
module HybridVerdicts {
  import opened Reals
  import opened Vectors
  import opened Machines
  import opened Users
  import opened Runs
  import opened Dogleg
  import opened Scaling
  import opened HybridStep
  import opened HybridTrace
  import opened HybridLaws

  // ---- the norm the bound is measured against ----

  /** The scale that was in use when the last point was reached, or chosen last while the run is still at its start. */
  ghost function Arrival(h: History): (d: Vec)
    requires h != []
    decreases |h|
  {
    if |h| == 1 || Gained(Last(h), 0.0001) || Last(h).a.c.iter == 1 then Last(h).a.d else Arrival(Init(h))
  }

  /** While no trial point has been taken, xnorm is |D x| for the scale in use. */
  lemma {:induction false} StartNorm(g: Problem, h: History)
    requires Trace(g, h) && h != [] && Last(h).a.c.iter == 1
    ensures g.mach.Valid() && |Last(h).a.d| == |Last(h).a.x|
    ensures Last(h).a.c.xnorm == ScaledNorm(g.mach, Last(h).a.d, Last(h).a.x)
    decreases |h|
  {
    hide StepOk, Joined, Gained;
    StateSizesOf(g, h);
    if |h| == 1 || Last(h).a.c.jeval {
      FirstBound(g, h);
    } else {
      FirstIteration(g, h);
      assert !Gained(h[|h| - 2], 0.0001);
      FirstIteration(g, Init(h));
      StartNorm(g, Init(h));
      NormKept(g, h);
      NormAfter(g, Init(h));
      PointCarried(g, h);
      StepTaken(g, Init(h));
    }
  }

  /** A step with updated factors keeps the scale; a step not on the first iteration keeps xnorm. */
  lemma NormKept(g: Problem, h: History)
    requires Trace(g, h) && |h| > 1
    ensures !Last(h).a.c.jeval ==> Last(h).a.d == Last(Init(h)).a.d
    ensures !Last(h).a.c.jeval || Last(h).a.c.iter > 1 ==> Last(h).a.c.xnorm == Last(Init(h)).e.xnorm
  {
    hide StepOk, StateOk, Factors, FactorsFollow, Ruled, Rescaled;
    CountersCarried(g, h);
  }

  lemma NormAfter(g: Problem, h: History)
    requires Trace(g, h) && h != []
    ensures g.mach.Valid() && |Last(h).p| == |Last(h).a.x| == |Last(h).a.d|
    ensures var s := Last(h);
      s.e.xnorm == if Gained(s, 0.0001) then ScaledNorm(g.mach, s.a.d, s.Point()) else s.a.c.xnorm
  {
    hide StepOk, Joined, Gained, ScaledNorm;
    RatioMeans(g, h, 0.0001);
    StepSizes(g.mach, g.fcn, Last(h));
    NormOf(g.mach, g.fcn, Last(h));
  }

  lemma NormOf(mach: Machine, fcn: Fcn, s: Step)
    requires StepOk(mach, fcn, s)
    ensures mach.Valid() && |s.p| == |s.a.x| == |s.a.d|
    ensures s.e.xnorm == if s.t.ratio >= 0.0001 then ScaledNorm(mach, s.a.d, s.Point()) else s.a.c.xnorm
    ensures s.e.fnorm == mach.Norm(fcn.f(s.Next()))
  {
    hide TrialAt, ScaledNorm, DoglegStep, Inputs, FactorOk;
    StepAdvances(mach, fcn, s);
  }

  /** xnorm is the scaled length of the point reached, in the scale it was reached with. */
  lemma {:induction false} ArrivalNorm(g: Problem, h: History)
    requires Trace(g, h) && h != []
    ensures g.mach.Valid() && |Last(h).p| == |Last(h).a.x|
    ensures |Arrival(h)| == |Reached(g, h)| == g.fcn.n
    ensures Last(h).e.xnorm == ScaledNorm(g.mach, Arrival(h), Reached(g, h))
    decreases |h|
  {
    hide StepOk, Joined, Gained, ScaledNorm, Reached;
    var s := Last(h);
    StateSizesOf(g, h);
    NormAfter(g, h);
    TakenOrNot(g, h);
    FirstIteration(g, h);
    if !Gained(s, 0.0001) {
      if s.a.c.iter == 1 {
        StartNorm(g, h);
      } else {
        ArrivalNorm(g, Init(h));
        NormKept(g, h);
        PointCarried(g, h);
      }
    }
  }

  lemma TakenOrNot(g: Problem, h: History)
    requires Trace(g, h) && h != []
    ensures |Last(h).p| == |Last(h).a.x|
    ensures Reached(g, h) == if Gained(Last(h), 0.0001) then Last(h).Point() else Last(h).a.x
  {
    hide StepOk, Joined, Gained;
    StepTaken(g, h);
  }

  // ---- the tests ----

  /** The function vanishes at the point reached, or the bound is at most xtol times the scaled length of the point. */
  ghost predicate Converged(g: Problem, h: History)
    requires h != [] && |Last(h).p| == |Last(h).a.x| && g.mach.Valid() && |Arrival(h)| == |Reached(g, h)|
  {
    || g.fcn.f(Reached(g, h)) == Zero(g.fcn.n)
    || Last(h).e.delta <= g.l.xtol * ScaledNorm(g.mach, Arrival(h), Reached(g, h))
  }

  /** Neither the bound nor the step is above the precision of the point. */
  ghost predicate Exhausted(g: Problem, h: History)
    requires h != [] && |Last(h).p| == |Last(h).a.x| == |Last(h).a.d| && g.mach.Valid()
    requires |Arrival(h)| == |Reached(g, h)|
  {
    var s, x := Last(h), ScaledNorm(g.mach, Arrival(h), Reached(g, h));
    0.01 * s.e.delta <= g.mach.epsmch * x && 0.1 * ScaledNorm(g.mach, s.a.d, s.p) <= g.mach.epsmch * x
  }

  /** The last two trials did not gain a tenth, the one before did, or there was none. */
  predicate FailedTwice(h: History) {
    && |h| >= 2 && !Gained(h[|h| - 1], 0.1) && !Gained(h[|h| - 2], 0.1) && (|h| == 2 || Gained(h[|h| - 3], 0.1))
  }

  /** The verdict on the last step of a run: first whether the run has converged, then five Jacobians or ten trials
      without progress, then the precision and the calls, then whether two trials in a row have failed. */
  lemma RuledExactly(g: Problem, h: History)
    requires Trace(g, h) && h != []
    ensures |Last(h).p| == |Last(h).a.x| == |Last(h).a.d| && g.mach.Valid() && |Arrival(h)| == |Reached(g, h)|
    ensures Ruled(g, h) ==
            if Converged(g, h) then Stop(1)
            else if |h| >= 10 && SlowSince(h, |h| - 10, 0.001) then Stop(5)
            else if SlowOver(h, 5) then Stop(4)
            else if Exhausted(g, h) then Stop(3)
            else if Calls(g, h) >= g.l.maxfev then Stop(2)
            else if FailedTwice(h) then Refactor
            else if ScaledNorm(g.mach, Last(h).a.d, Last(h).p) == 0.0 then Undefined
            else Update
  {
    hide StepOk, Joined, Gained, ScaledNorm, Reached, SlowSince, SlowOver, Judge, Calls, Converged, Exhausted, Trace;
    hide FailedTwice, Arrival;
    var s := Last(h);
    var tx, px := g.l.xtol * s.e.xnorm, g.mach.epsmch * s.e.xnorm;
    ArrivalSizes(g, h);
    ConvergedMeans(g, h, tx);
    ExhaustedMeans(g, h, px);
    RatioMeans(g, h, 0.1);
    SlowTrials(g, h, 10);
    SlowJacobians(g, h, 5);
    CountersLow(g, h);
    FailuresCounted(g, h);
    JudgedExactly(g.mach, s.e, s.t.pnorm, g.l.xtol, Calls(g, h), g.l.maxfev, tx, px);
  }

  lemma ArrivalSizes(g: Problem, h: History)
    requires Trace(g, h) && h != []
    ensures g.mach.Valid() && |Last(h).p| == |Last(h).a.x| == |Last(h).a.d| && |Arrival(h)| == |Reached(g, h)|
  {
    hide StepOk, Joined, ScaledNorm, Reached;
    NormAfter(g, h);
    ArrivalNorm(g, h);
  }

  lemma ConvergedMeans(g: Problem, h: History, tx: real)
    requires Trace(g, h) && h != [] && tx == g.l.xtol * Last(h).e.xnorm
    ensures g.mach.Valid() && |Last(h).p| == |Last(h).a.x| && |Arrival(h)| == |Reached(g, h)|
    ensures Converged(g, h) <==> Last(h).e.fnorm == 0.0 || Last(h).e.delta <= tx
  {
    hide StepOk, Joined, ScaledNorm, Reached, Arrival, Trace;
    ArrivalNorm(g, h);
    ValueVanishes(g, h);
  }

  lemma ExhaustedMeans(g: Problem, h: History, px: real)
    requires Trace(g, h) && h != [] && px == g.mach.epsmch * Last(h).e.xnorm
    ensures g.mach.Valid() && |Last(h).p| == |Last(h).a.x| == |Last(h).a.d| && |Arrival(h)| == |Reached(g, h)|
    ensures Exhausted(g, h) <==> 0.01 * Last(h).e.delta <= px && 0.1 * Last(h).t.pnorm <= px
  {
    hide StepOk, Joined, ScaledNorm, Reached, Arrival, Trace;
    ArrivalSizes(g, h);
    ArrivalNorm(g, h);
    RatioMeans(g, h, 0.1);
  }

  lemma ValueVanishes(g: Problem, h: History)
    requires Trace(g, h) && h != []
    ensures |Last(h).p| == |Last(h).a.x|
    ensures Last(h).e.fnorm == 0.0 <==> g.fcn.f(Reached(g, h)) == Zero(g.fcn.n)
  {
    hide StepOk, Joined;
    var s := Last(h);
    NormOf(g.mach, g.fcn, s);
    StepSizes(g.mach, g.fcn, s);
    NormZero(g.mach, g.fcn.f(s.Next()));
  }

  /** The tests on the counters, with their products by name. */
  lemma JudgedExactly(mach: Machine, e: Control, l: real, xtol: real, nfev: nat, maxfev: int, tx: real, px: real)
    requires tx == xtol * e.xnorm && px == mach.epsmch * e.xnorm
    ensures Judge(mach, e, l, xtol, nfev, maxfev) ==
            if e.fnorm == 0.0 || e.delta <= tx then Stop(1)
            else if e.nslow1 == 10 then Stop(5)
            else if e.nslow2 == 5 then Stop(4)
            else if 0.01 * e.delta <= px && 0.1 * l <= px then Stop(3)
            else if nfev >= maxfev then Stop(2)
            else if e.ncfail == 2 then Refactor
            else Update
  {
  }

  /** The counters of slow progress stop the run as soon as they reach their limits. */
  lemma {:induction false} CountersLow(g: Problem, h: History)
    requires Trace(g, h) && h != []
    ensures Last(h).e.nslow1 <= 10 && Last(h).e.nslow2 <= 5
    decreases |h|
  {
    hide StepOk, Joined;
    CountersCarried(g, h);
    if |h| > 1 {
      CountersLow(g, Init(h));
      WentOn(g, h);
    }
  }

  lemma WentOn(g: Problem, h: History)
    requires Trace(g, h) && |h| > 1
    ensures Last(Init(h)).e.nslow1 != 10 && Last(Init(h)).e.nslow2 != 5
  {
    hide StepOk, Trace, Init, Calls;
    JudgedOn(g, h);
  }

  lemma FailuresCounted(g: Problem, h: History)
    requires Trace(g, h) && h != []
    ensures Last(h).e.ncfail == 2 <==> FailedTwice(h)
    decreases |h|
  {
    hide StepOk, Joined, Gained;
    FailuresAfter(g, h);
    if |h| > 1 {
      FailuresAfter(g, Init(h));
      if |h| > 2 {
        FailuresAfter(g, Init(Init(h)));
      }
    }
  }

  lemma FailuresAfter(g: Problem, h: History)
    requires Trace(g, h) && h != []
    ensures Last(h).e.ncfail == if Gained(Last(h), 0.1) then 0 else 1 + if |h| == 1 then 0 else Last(Init(h)).e.ncfail
    ensures |h| > 1 ==> Trace(g, Init(h))
  {
    hide StepOk, Joined, Gained;
    CountersCarried(g, h);
    RatioMeans(g, h, 0.1);
  }

  // ---- the scale ----

  /** The norm of column j of the Jacobian formed for step i. */
  ghost function ColumnNorm(g: Problem, h: History, i: nat, j: nat): real
    requires ProblemOk(g) && i < |h| && |h[i].a.x| == g.fcn.n && j < g.fcn.n
  {
    g.mach.Norm(g.jac(h[i].a.x)[j])
  }

  lemma {:induction false} StepSizesAt(g: Problem, h: History, i: nat)
    requires Trace(g, h) && i < |h|
    ensures ProblemOk(g) && |h[i].a.x| == |h[i].a.d| == g.fcn.n
    decreases |h|
  {
    hide StepOk, Joined;
    if i == |h| - 1 {
      StepSizes(g.mach, g.fcn, h[i]);
    } else {
      StepSizesAt(g, Init(h), i);
    }
  }

  /** A scale fixed by the caller never changes. */
  lemma {:induction false} ScaleFixed(g: Problem, h: History)
    requires Trace(g, h) && h != [] && g.l.mode == 2
    ensures Last(h).a.d == g.d0
    decreases |h|
  {
    hide StepOk, Joined;
    ScaleStep(g, h);
    if |h| > 1 {
      ScaleFixed(g, Init(h));
    }
    assert Last(h).a.d == g.d0;
  }

  /** The scale of a step and the scale before it: kept with updated factors or by the caller, and otherwise chosen from
      the columns of the new Jacobian, 1 for a zero column, or enlarged to them. */
  lemma ScaleStep(g: Problem, h: History)
    requires Trace(g, h) && h != []
    ensures ProblemOk(g) && |Last(h).a.x| == |Last(h).a.d| == g.fcn.n
    ensures |h| > 1 ==> |Last(Init(h)).a.d| == g.fcn.n
    ensures var a := Last(h).a; var d := if |h| == 1 then g.d0 else Last(Init(h)).a.d;
      forall j :: 0 <= j < g.fcn.n ==>
        a.d[j] ==
        if !a.c.jeval || g.l.mode == 2 then d[j]
        else if a.c.iter == 1 then NonzeroOr(ColumnNorm(g, h, |h| - 1, j), 1.0)
        else Max(d[j], ColumnNorm(g, h, |h| - 1, j))
  {
    hide StepOk, StateOk, Factors, FactorsFollow, Ruled, StartBound;
    StepSizesAt(g, h, |h| - 1);
    if |h| > 1 {
      StepSizesAt(g, h, |h| - 2);
      CountersCarried(g, h);
    } else {
      assert Init(h) == [];
    }
  }

  /** A scale chosen by the solver is the largest norm of its column over all Jacobians formed, with 1 for a column that
      was zero when the scale was chosen: it is at least each of them ... */
  lemma {:induction false} ScaleCovers(g: Problem, h: History, i: nat, j: nat)
    requires Trace(g, h) && i < |h| && h[i].a.c.jeval && g.l.mode != 2 && j < g.fcn.n
    ensures ProblemOk(g) && |h[i].a.x| == |Last(h).a.d| == g.fcn.n
    ensures Last(h).a.d[j] >= ColumnNorm(g, h, i, j)
    decreases |h|
  {
    hide StepOk, Joined, ScaledNorm;
    StepSizesAt(g, h, i);
    ScaleStep(g, h);
    if i < |h| - 1 {
      ScaleCovers(g, Init(h), i, j);
      SameStart(g, h, i);
    }
  }

  /** While no trial point has been taken every Jacobian is that at the start. */
  lemma SameStart(g: Problem, h: History, i: nat)
    requires Trace(g, h) && i < |h|
    ensures Last(h).a.c.iter == 1 ==> h[i].a.x == Last(h).a.x == g.x0
  {
    hide StepOk, Joined, Gained;
    if Last(h).a.c.iter == 1 {
      StillAtStart(g, h);
      FirstIteration(g, h);
      StepOfRun(g, h, i);
      var k := h[..i] + [h[i]];
      TraceExtends(g, h[..i], h[i]);
      assert k == h[..i + 1];
      FirstIteration(g, k);
      forall m | 0 <= m < |k| - 1
        ensures !Gained(k[m], 0.0001)
      {
        assert k[m] == h[m];
      }
      StillAtStart(g, k);
    }
  }

  /** ... and it is one of them, or the 1. */
  lemma {:induction false} ScaleAttained(g: Problem, h: History, j: nat) returns (i: nat)
    requires Trace(g, h) && h != [] && g.l.mode != 2 && j < g.fcn.n
    ensures i < |h| && h[i].a.c.jeval && ProblemOk(g) && |h[i].a.x| == |Last(h).a.d| == g.fcn.n
    ensures Last(h).a.d[j] == NonzeroOr(ColumnNorm(g, h, i, j), 1.0)
    ensures Last(h).a.d[j] != ColumnNorm(g, h, i, j) ==> h[i].a.c.iter == 1
    decreases |h|
  {
    hide StepOk, Joined, ScaledNorm;
    ScaleStep(g, h);
    CountersCarried(g, h);
    var a := Last(h).a;
    if a.c.jeval && (a.c.iter == 1 || a.d[j] == ColumnNorm(g, h, |h| - 1, j) != 0.0) {
      i := |h| - 1;
    } else {
      i := ScaleAttained(g, Init(h), j);
      StepSizesAt(g, h, i);
    }
  }
}
