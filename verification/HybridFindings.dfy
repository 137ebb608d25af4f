/** Where the hybrid solvers fall short of what they set out to do, with inputs, and exactly when. */
module HybridFindings {
  import opened Reals
  import opened Vectors
  import opened Machines
  import opened Packed
  import opened Users
  import opened Dogleg
  import opened DoglegZero
  import opened Rotations
  import opened Scaling
  import opened HybridStep

  // ---- the division by the length of the step ----

  /** A trial step of length zero is dogleg's, exactly when its last leg cancels, wherever the function is not zero. */
  lemma ZeroStepExactly(mach: Machine, fcn: Fcn, s: Step)
    requires StepOk(mach, fcn, s) && s.a.c.fnorm > 0.0
    ensures |s.gn| == |s.a.x| && Inputs(Upper(s.a.r, |s.a.x|), s.a.d, s.a.qtf, s.a.c.delta)
    ensures s.t.pnorm == 0.0 <==> Cancels(mach, Upper(s.a.r, |s.a.x|), s.a.d, s.a.qtf, s.a.c.delta, s.gn)
  {
    StepFactors(mach, fcn, s);
    AimedDirection(mach, fcn, s.a, s.gn, s.p);
    hide StepOk, FactorOk, DoglegStep, Inputs, Cancels, Upper;
    var a, x := s.a, Scale(-1.0, s.p);
    NonzeroFactors(mach, a.q, a.qtf, fcn.f(a.x));
    StepVanishes(mach, Upper(a.r, |a.x|), a.d, a.qtf, a.c.delta, s.gn, x);
    NegatedLength(mach, a.d, s.p, x);
  }

  lemma AimedDirection(mach: Machine, fcn: Fcn, a: State, gn: Vec, p: Vec)
    requires Aimed(mach, fcn, a, gn, p)
    ensures |gn| == |p| == |a.x| == |a.d| == |a.qtf| && |fcn.f(a.x)| == |a.x| && a.c.fnorm == mach.Norm(fcn.f(a.x))
    ensures Inputs(Upper(a.r, |a.x|), a.d, a.qtf, a.c.delta)
    ensures DoglegStep(mach, Upper(a.r, |a.x|), a.d, a.qtf, a.c.delta, gn, Scale(-1.0, p))
  {
  }

  lemma NonzeroFactors(mach: Machine, q: Mat, qtf: Vec, f: Vec)
    requires mach.Valid() && FactorOk(q, qtf, f, |qtf|) && mach.Norm(f) > 0.0
    ensures qtf != Zero(|qtf|)
  {
    QtfNorm(mach, q, qtf, f, |qtf|);
    NormZero(mach, qtf);
  }

  /** On the first iteration such a step takes the bound to zero, and the run reports convergence although the function
      is not zero there. */
  lemma FirstZeroStep(mach: Machine, fcn: Fcn, s: Step, xtol: real, nfev: nat, maxfev: int)
    requires StepOk(mach, fcn, s) && s.t.pnorm == 0.0 && s.a.c.iter == 1 && xtol >= 0.0
    ensures Ruling(mach, s, xtol, nfev, maxfev) == Stop(1) && s.e.delta == 0.0 && s.Next() == s.a.x
  {
    hide StepOk, Judge, ScaledNorm;
    StepSizes(mach, fcn, s);
    StepAdvances(mach, fcn, s);
    ZeroKeepsPoint(mach, fcn, s);
    AfterZero(mach, fcn, s);
    NonnegProduct(xtol, s.e.xnorm, xtol * s.e.xnorm);
    ZeroBoundStops(mach, s.e, s.t.pnorm, xtol, nfev, maxfev);
  }

  lemma AfterZero(mach: Machine, fcn: Fcn, s: Step)
    requires StepOk(mach, fcn, s) && s.t.pnorm == 0.0
    ensures s.e.delta == 0.5 * Bound(s.a.c, 0.0) && s.a.c.delta > 0.0
  {
    hide DoglegStep, FactorOk, TrialAt, Inputs;
    TrialLength(mach, fcn, s.a, s.p, s.t);
  }

  lemma ZeroBoundStops(mach: Machine, e: Control, pnorm: real, xtol: real, nfev: nat, maxfev: int)
    requires e.delta == 0.0 && 0.0 <= xtol * e.xnorm
    ensures Judge(mach, e, pnorm, xtol, nfev, maxfev) == Stop(1)
  {
  }

  lemma ExamplePacked(x: Example, r: seq<real>)
    requires r == [2.0, 1.0, x.u, 0.0, x.v, x.w]
    ensures |r| == Slots(3) && Upper(r, 3) == x.R()
  {
    assert Off(3, 0) == 0;
    assert Off(3, 1) == 3;
    assert Off(3, 2) == 5;
    assert Off(3, 3) == 6;
    assert Upper(r, 3)[0] == UpperRow(r, 3, 0) == [2.0, 1.0, x.u];
    assert Upper(r, 3)[1] == UpperRow(r, 3, 1) == [0.0, 0.0, x.v];
    assert Upper(r, 3)[2] == UpperRow(r, 3, 2) == [0.0, 0.0, x.w];
  }

  // ---- the rotation that is recorded as another ----

  /** r1updt's record of a rotation fails to give it back exactly when the cosine is not zero but at most 1 / giant in
      size. Every machine has such a rotation: that of g = 4 giant^2 - 1 against f = 4 giant is recorded as a quarter
      turn. */
  lemma RecordCanLie(mach: Machine, f: real, g: real) returns (r: Made)
    requires mach.Valid() && f == 4.0 * mach.giant && g == 4.0 * (mach.giant * mach.giant) - 1.0
    ensures g > f && r == Eliminator(mach, f, g) && Rotates(r, f, g)
    ensures r.cos > 0.0 && Flushed(mach, r.cos)
    ensures RecoverCos(mach, r.tau) == 0.0 && RecoverSin(mach, r.tau) == 1.0
  {
    hide Eliminator, RecoverCos, RecoverSin;
    var k2 := 4.0 * (mach.giant * mach.giant);
    SteepPair(mach.giant, k2, f, g);
    r := Eliminator(mach, f, g);
    EliminatorEliminates(mach, f, g);
    SteepSides(mach, k2, f, g);
    TinyCosine(mach, k2, r.cos);
    RecordReads(mach, f, g);
  }

  lemma SteepPair(giant: real, k2: real, f: real, g: real)
    requires giant >= 2.0 && k2 == 4.0 * (giant * giant) && f == 4.0 * giant && g == k2 - 1.0
    ensures f * f == 4.0 * k2 && g > f > 0.0
  {
    NonnegProduct(giant - 2.0, giant, (giant - 2.0) * giant);
  }

  /** The sides of the rotation for the cotangent f / g: their squares make (k^2 + 1)^2. */
  lemma SteepSides(mach: Machine, k2: real, f: real, g: real)
    requires mach.Valid() && f * f == 4.0 * k2 && g == k2 - 1.0 && g > f > 0.0
    ensures (k2 + 1.0) * Eliminator(mach, f, g).cos == f
  {
    var t, h := f / g, k2 + 1.0;
    var root := 0.5 * h / g;
    TimesBack(f, g, t);
    RootOfSum(t, f, g, h, root, k2);
    DivisionSign(0.5 * h, g, root);
    RootUnique(mach.sqrt(0.25 + 0.25 * (t * t)), root);
    HalfOver(root, g, h, t, f, Side(mach, t), Side(mach, t) * t);
  }

  lemma TimesBack(a: real, b: real, q: real)
    requires b != 0.0 && q == a / b
    ensures q * b == a
  {
  }

  lemma RootOfSum(t: real, f: real, g: real, h: real, root: real, k2: real)
    requires t * g == f && g > 0.0 && root == 0.5 * h / g && f * f == 4.0 * k2 && g == k2 - 1.0
    requires h == k2 + 1.0
    ensures root * root == 0.25 + 0.25 * (t * t) && 0.25 + 0.25 * (t * t) >= 0.0
  {
    SquareSign(t, t * t);
    var x := root * g;
    assert x == 0.5 * h;
    var g2, t2, root2 := g * g, t * t, root * root;
    SquareOfProduct(root, g, root2, g2, x);
    SquareOfProduct(t, g, t2, g2, f);
    assert h * h == g2 + 4.0 * k2;
    assert (root2 - 0.25 - 0.25 * t2) * g2 == 0.0;
    PositiveProduct(g, g, g2);
    ZeroProduct(root2 - 0.25 - 0.25 * t2, g2);
  }

  lemma HalfOver(root: real, g: real, h: real, t: real, f: real, sin: real, cos: real)
    requires g > 0.0 && h > 0.0 && root == 0.5 * h / g && root > 0.0 && t * g == f
    requires sin == 0.5 / root && cos == sin * t
    ensures h * cos == f
  {
    assert root * g == 0.5 * h;
    assert sin * root == 0.5;
    assert sin * h == g by {
      assert sin * (root * g) == (sin * root) * g;
    }
    assert h * cos == (sin * h) * t;
  }

  lemma TinyCosine(mach: Machine, k2: real, cos: real)
    requires mach.Valid() && k2 == 4.0 * (mach.giant * mach.giant) && (k2 + 1.0) * cos == 4.0 * mach.giant
    ensures cos > 0.0 && Flushed(mach, cos)
  {
    var giant, h := mach.giant, k2 + 1.0;
    PositiveProduct(giant, giant, giant * giant);
    if cos <= 0.0 {
      NonnegProduct(h, -cos, h * -cos);
    }
    BelowOne(h, k2, cos, giant, cos * giant);
    CosineFlushed(mach, cos, cos * giant);
  }

  lemma BelowOne(h: real, k2: real, cos: real, giant: real, p: real)
    requires h == k2 + 1.0 && h > 0.0 && k2 == 4.0 * (giant * giant) && h * cos == 4.0 * giant && p == cos * giant
    ensures p <= 1.0
  {
    assert h * p == (h * cos) * giant;
    assert (4.0 * giant) * giant == k2;
    if p > 1.0 {
      PositiveProduct(h, p - 1.0, h * (p - 1.0));
    }
  }
}
