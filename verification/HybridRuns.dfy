/** Two runs of the hybrid method that go wrong: one that reports a solution where there is none, and one that comes to
    divide by zero. */
module HybridRuns {
  import opened Reals
  import opened Vectors
  import opened Machines
  import opened Packed
  import opened Users
  import opened Runs
  import opened Dogleg
  import opened DoglegZero
  import opened Rotations
  import opened R1updt
  import opened Broyden
  import opened CornerSteps
  import opened HybridStep
  import opened HybridTrace
  import opened HybridFindings

  // ---- factors with a diagonal Q ----

  /** The diagonal matrix of the signs s. */
  function Flip(s: Vec): (q: Mat)
    requires |s| == 3
  {
    [[s[0], 0.0, 0.0], [0.0, s[1], 0.0], [0.0, 0.0, s[2]]]
  }

  predicate Signs(s: Vec) {
    |s| == 3 && forall i :: 0 <= i < 3 ==> s[i] == 1.0 || s[i] == -1.0
  }

  lemma FlipOrthonormal(s: Vec)
    requires Signs(s)
    ensures OrthonormalRows(Flip(s), 3)
  {
    var q := Flip(s);
    forall i, j | 0 <= i < 3 && 0 <= j < 3
      ensures Dot(q[i], q[j]) == if i == j then 1.0 else 0.0
    {
      Dot3(q[i], q[j]);
    }
  }

  lemma FlipFactors(s: Vec, b: Vec)
    requires Signs(s) && |b| == 3
    ensures FactorOk(Flip(s), b, Times(s, b), 3)
  {
    hide Times, Dot, CombTo;
    FlipOrthonormal(s);
    hide OrthonormalRows;
    forall j | 0 <= j < 3
      ensures Comb(Times(s, b), Flip(s), 3)[j] == b[j]
    {
      CombAt(Times(s, b), Flip(s), 3, j);
      Dot3(Times(s, b), Col(Flip(s), j));
    }
  }

  lemma FlipProduct(s: Vec, r: Mat, i: nat, j: nat)
    requires Signs(s) && IsMat(r, 3, 3) && i < 3 && j < 3
    ensures Product(Flip(s), r, 3)[i][j] == s[i] * r[i][j]
  {
    hide Product, Col, Dot, CombTo;
    ProductAt(Flip(s), r, 3, i, j);
    Dot3(Flip(s)[i], Col(r, j));
  }

  lemma CornerPacked(k: real, r: seq<real>)
    requires r == [0.0, 0.0, 0.0, 0.0, 0.0, k]
    ensures |r| == Slots(3) && Upper(r, 3) == Corner(k)
  {
    assert Off(3, 0) == 0;
    assert Off(3, 1) == 3;
    assert Off(3, 2) == 5;
    assert Off(3, 3) == 6;
    assert Upper(r, 3)[0] == UpperRow(r, 3, 0) == [0.0, 0.0, 0.0];
    assert Upper(r, 3)[1] == UpperRow(r, 3, 1) == [0.0, 0.0, 0.0];
    assert Upper(r, 3)[2] == UpperRow(r, 3, 2) == [0.0, 0.0, k];
  }

  // ---- a linear function on which the first step vanishes ----

  /** transpose(Q) times the constant term of the first function, and the signs of Q as qrfac leaves them. */
  const SIGNS: Vec := [-1.0, 1.0, -1.0]

  /** Q (B + R y) for the example's triangle R and residual B. */
  function Linear(x: Example, y: Vec): (f: Vec)
    requires |y| == 3
    ensures |f| == 3
  {
    [-(1.0 + (2.0 * y[0] + y[1] + x.u * y[2])), -x.beta + x.v * y[2], -(1.0 + x.w * y[2])]
  }

  /** The columns of Q R. */
  function LinearColumns(x: Example): (cols: Mat)
    ensures IsMat(cols, 3, 3)
  {
    [[-2.0, 0.0, 0.0], [-1.0, 0.0, 0.0], [-x.u, x.v, -x.w]]
  }

  /** The example's factors belong to the linear function at the origin. */
  lemma LinearFactors(x: Example)
    ensures FactorOk(Flip(SIGNS), x.B(), Linear(x, Zero(3)), 3)
    ensures forall i, j :: 0 <= i < 3 && 0 <= j < 3 ==> Product(Flip(SIGNS), x.R(), 3)[i][j] == LinearColumns(x)[j][i]
  {
    hide Zero, Product, Times, OrthonormalRows, Comb;
    FlipFactors(SIGNS, x.B());
    var f := Linear(x, Zero(3));
    AtOrigin(x.u, x.v, x.w);
    assert f == Times(SIGNS, x.B());
    forall i, j | 0 <= i < 3 && 0 <= j < 3
      ensures Product(Flip(SIGNS), x.R(), 3)[i][j] == LinearColumns(x)[j][i]
    {
      FlipProduct(SIGNS, x.R(), i, j);
    }
  }

  lemma AtOrigin(u: real, v: real, w: real)
    ensures u * 0.0 == v * 0.0 == w * 0.0 == 0.0
  {
  }

  /** The state at the origin with the example's factors. */
  ghost function OriginState(x: Example, c: Control): State {
    State(Zero(3), ONES, Flip(SIGNS), [2.0, 1.0, x.u, 0.0, x.v, x.w], x.B(), c)
  }

  /** A problem whose function and Jacobian at the origin are the example's, with the scale left to the caller. */
  ghost predicate AtExample(g: Problem, x: Example) {
    && ProblemOk(g) && g.fcn.n == 3 && g.mach.epsmch == x.e && x.Ok()
    && g.fcn.f(Zero(3)) == Linear(x, Zero(3)) && g.jac(Zero(3)) == LinearColumns(x) && g.l.mode == 2 && g.d0 == ONES
  }

  lemma OriginOk(g: Problem, x: Example, c: Control)
    requires AtExample(g, x) && c.fnorm == g.mach.Norm(g.fcn.f(Zero(3))) && c.delta > 0.0 && c.iter >= 1
    requires c.xnorm == 0.0
    ensures StateOk(g.mach, g.fcn, OriginState(x, c)) && Factors(g, OriginState(x, c))
    ensures Upper(OriginState(x, c).r, 3) == x.R()
    ensures ScaledNorm(g.mach, ONES, Zero(3)) == 0.0
  {
    hide Linear, LinearColumns, FactorOk, Example.R, Example.B, Product, Upper;
    LinearFactors(x);
    ScaledZero(g.mach, ONES, Zero(3));
    ExamplePacked(x, OriginState(x, c).r);
  }

  /** The zero step from the origin. */
  ghost function StandStill(g: Problem, x: Example, c: Control): Step
    requires AtExample(g, x) && StateOk(g.mach, g.fcn, OriginState(x, c))
  {
    var a := OriginState(x, c);
    var t := TrialAt(g.mach, g.fcn, a, Zero(3));
    Step(a, x.Gn(), Zero(3), t, After(c, t, 0.0))
  }

  lemma StandStillOk(g: Problem, x: Example, c: Control)
    requires AtExample(g, x) && c.fnorm == g.mach.Norm(g.fcn.f(Zero(3))) && c.delta > 0.0 && c.iter >= 1
    requires c.xnorm == 0.0 && Inputs(x.R(), ONES, x.B(), c.delta)
    requires DoglegStep(g.mach, x.R(), ONES, x.B(), c.delta, x.Gn(), Zero(3))
    ensures StateOk(g.mach, g.fcn, OriginState(x, c)) && StepOk(g.mach, g.fcn, StandStill(g, x, c))
    ensures StandStill(g, x, c).t.pnorm == 0.0 && g.fcn.f(Zero(3)) != Zero(3)
  {
    hide Linear, LinearColumns, FactorOk, DoglegStep, Inputs, Example.R, Example.B, TrialAt, After, Upper;
    OriginOk(g, x, c);
    var a := OriginState(x, c);
    var p := Zero(3);
    assert Scale(-1.0, p) == p;
    assert Axpy(1.0, p, a.x) == Zero(3);
    AimedAlong(g.mach, g.fcn, a, x.R(), x.Gn(), p, p);
    TrialLength(g.mach, g.fcn, a, p, StandStill(g, x, c).t);
    OriginNonzero(x);
  }

  lemma OriginNonzero(x: Example)
    ensures Linear(x, Zero(3)) != Zero(3)
  {
    AtOrigin(x.u, x.v, x.w);
    assert Linear(x, Zero(3))[0] == -1.0;
  }

  /** The run of one step that ends with info 1 at a point where the function is not zero. */
  lemma FalseSolution(g: Problem, x: Example, delta: real) returns (h: History)
    requires AtExample(g, x) && g.x0 == Zero(3) && g.l.factor == delta
    requires Inputs(x.R(), ONES, x.B(), delta) && DoglegStep(g.mach, x.R(), ONES, x.B(), delta, x.Gn(), Zero(3))
    ensures Trace(g, h) && |h| == 1 && Ruled(g, h) == Stop(1)
    ensures StepOk(g.mach, g.fcn, Last(h)) && Reached(g, h) == g.x0 && g.fcn.f(g.x0) != Zero(3)
  {
    hide Linear, LinearColumns, FactorOk, DoglegStep, Inputs, Example.R, Example.B, TrialAt, After, StepOk, StateOk;
    hide Factors, ScaledNorm;
    var c := Control(1, 0, 0, 0, 0, true, delta, 0.0, g.mach.Norm(g.fcn.f(Zero(3))));
    OriginOk(g, x, c);
    StandStillOk(g, x, c);
    var s := StandStill(g, x, c);
    assert Started(g).(delta := delta, xnorm := 0.0) == c;
    assert Joined(g, [], s.a);
    h := [] + [s];
    TraceExtends(g, [], s);
    FirstZeroStep(g.mach, g.fcn, s, g.l.xtol, Calls(g, h), g.l.maxfev);
  }

  // ---- steps along the last axis ----

  const LASTSIGN: Vec := [1.0, 1.0, -1.0]

  /** A state whose triangle has only its last diagonal entry k, at y with transpose(Q) f = b. */
  ghost function CornerState(y: Vec, k: real, b: Vec, c: Control): State {
    State(y, ONES, Flip(LASTSIGN), [0.0, 0.0, 0.0, 0.0, 0.0, k], b, c)
  }

  ghost predicate AtCorner(mach: Machine, fcn: Fcn, y: Vec, k: real, b: Vec, z: real, c: Control) {
    && mach.Valid() && fcn.Valid() && fcn.n == fcn.m == 3 && |y| == |b| == 3 && fcn.f(y) == Times(LASTSIGN, b)
    && k > 0.0 && b[0] != 0.0 && b[2] > 0.0 && k * z == b[2] && 0.0 < c.delta <= z
    && c.fnorm == mach.Norm(fcn.f(y)) && c.iter >= 1 && c.xnorm == ScaledNorm(mach, ONES, y)
  }

  lemma CornerStateOk(mach: Machine, fcn: Fcn, y: Vec, k: real, b: Vec, z: real, c: Control)
    requires AtCorner(mach, fcn, y, k, b, z, c)
    ensures StateOk(mach, fcn, CornerState(y, k, b, c))
    ensures Upper(CornerState(y, k, b, c).r, 3) == Corner(k)
  {
    hide FactorOk, Upper;
    FlipFactors(LASTSIGN, b);
    CornerPacked(k, CornerState(y, k, b, c).r);
  }

  /** The step of the bound's length along the last axis. */
  lemma CornerMove(mach: Machine, fcn: Fcn, y: Vec, k: real, b: Vec, z: real, c: Control, y': Vec, rest: real)
    returns (s: Step)
    requires AtCorner(mach, fcn, y, k, b, z, c) && y' == Axpy(1.0, [0.0, 0.0, -c.delta], y)
    requires rest == b[2] - k * c.delta
    ensures StepOk(mach, fcn, s) && s.a == CornerState(y, k, b, c) && s.p == [0.0, 0.0, -c.delta] && s.Point() == y'
    ensures s.t == TrialOf(c.fnorm, c.delta, mach.Norm(fcn.f(y')), mach.Norm([b[0], b[1], rest]))
    ensures s.e == After(c, s.t, ScaledNorm(mach, ONES, y'))
  {
    hide StateOk, Aimed, TrialOf, TrialAt, After, ScaledNorm, FirstDirection, Flip, Times, Axpy;
    CornerAimed(mach, fcn, y, k, b, z, c);
    CornerTrial(mach, fcn, y, k, b, z, c, fcn.f(y'), rest);
    var a, p := CornerState(y, k, b, c), [0.0, 0.0, -c.delta];
    var t := TrialAt(mach, fcn, a, p);
    s := Step(a, FirstDirection(mach, b, z), p, t, After(c, t, ScaledNorm(mach, ONES, y')));
  }

  lemma CornerAimed(mach: Machine, fcn: Fcn, y: Vec, k: real, b: Vec, z: real, c: Control)
    requires AtCorner(mach, fcn, y, k, b, z, c)
    ensures StateOk(mach, fcn, CornerState(y, k, b, c))
    ensures Aimed(mach, fcn, CornerState(y, k, b, c), FirstDirection(mach, b, z), [0.0, 0.0, -c.delta])
  {
    hide DoglegStep, Inputs, Upper, Corner, FirstDirection;
    CornerStateOk(mach, fcn, y, k, b, z, c);
    CornerStep(mach, k, b, z, c.delta);
    hide StateOk;
    var s := [0.0, 0.0, c.delta];
    assert [0.0, 0.0, -c.delta] == Scale(-1.0, s);
    AimedAlong(mach, fcn, CornerState(y, k, b, c), Corner(k), FirstDirection(mach, b, z), s, [0.0, 0.0, -c.delta]);
  }

  lemma CornerTrial(mach: Machine, fcn: Fcn, y: Vec, k: real, b: Vec, z: real, c: Control, f': Vec, rest: real)
    requires AtCorner(mach, fcn, y, k, b, z, c) && f' == fcn.f(Axpy(1.0, [0.0, 0.0, -c.delta], y))
    requires rest == b[2] - k * c.delta
    ensures StateOk(mach, fcn, CornerState(y, k, b, c))
    ensures TrialAt(mach, fcn, CornerState(y, k, b, c), [0.0, 0.0, -c.delta])
            == TrialOf(c.fnorm, c.delta, mach.Norm(f'), mach.Norm([b[0], b[1], rest]))
  {
    hide TrialOf, Upper, Corner, Mul, ScaledNorm;
    CornerStateOk(mach, fcn, y, k, b, z, c);
    hide StateOk;
    var p := [0.0, 0.0, -c.delta];
    CornerModel(k, b, c.delta, p, rest);
    TrialFrom(mach, fcn, CornerState(y, k, b, c), p, f', [b[0], b[1], rest]);
    LastAxis(mach, p);
  }

  lemma CornerModel(k: real, b: Vec, delta: real, p: Vec, rest: real)
    requires |b| == 3 && p == [0.0, 0.0, -delta] && rest == b[2] - k * delta
    ensures Axpy(1.0, Mul(Corner(k), p), b) == [b[0], b[1], rest]
  {
    CornerTimes(k, p);
    hide Mul;
    OppositeProduct(k, delta, p[2], k * p[2], k * delta);
    var y, z := Mul(Corner(k), p), Axpy(1.0, Mul(Corner(k), p), b);
    assert y[2] == -(k * delta);
    assert z[0] == b[0] && z[1] == b[1] && z[2] == rest;
  }

  lemma OppositeProduct(k: real, a: real, b: real, p: real, q: real)
    requires b == -a && p == k * b && q == k * a
    ensures p == -q
  {
    assert k * (a + b) == 0.0;
  }

  // ---- the walk ----

  /** A start at distance t from the origin along the last axis; the Jacobian there has one entry. */
  datatype Walk = Walk(x: Example, t: real, i: real) {
    predicate Ok() {
      x.Ok() && t > 0.0 && i > 0.0 && t * i == 1.0
    }

    /** The values at the start and at the origin, times the signs of Q. */
    function Before(): (b: Vec) {
      [-1.0, -x.beta, 25.0 / 24.0]
    }

    function Behind(): (b: Vec) {
      [-1.0, -x.beta, 1.0]
    }

    function Start(): (y: Vec) {
      [0.0, 0.0, t]
    }

    function Beyond(): (y: Vec) {
      [0.0, 0.0, -0.5 * t]
    }

    function Columns(): (cols: Mat) {
      [[0.0, 0.0, 0.0], [0.0, 0.0, 0.0], [0.0, 0.0, -(25.0 / 24.0 * i)]]
    }
  }

  /** A problem with the example at the origin that starts at distance t from it. */
  ghost predicate Walks(g: Problem, w: Walk) {
    && AtExample(g, w.x) && w.Ok() && g.x0 == w.Start() && g.l.factor == 1.0 && g.l.maxfev > 4 + 2 * g.cost
    && g.fcn.f(w.Start()) == g.fcn.f(w.Beyond()) == Times(LASTSIGN, w.Before()) && g.jac(w.Start()) == w.Columns()
  }

  lemma WalkParts(g: Problem, w: Walk)
    requires Walks(g, w)
    ensures g.mach.Valid() && g.fcn.Valid() && g.fcn.n == g.fcn.m == 3
    ensures g.fcn.f(Zero(3)) == Times(LASTSIGN, w.Behind()) && w.Ok()
  {
    OriginValue(w.x, w);
  }

  lemma OriginValue(x: Example, w: Walk)
    requires w.x == x
    ensures Linear(x, Zero(3)) == Times(LASTSIGN, w.Behind())
  {
    AtOrigin(x.u, x.v, x.w);
  }

  /** The lengths of the vectors the walk meets. */
  lemma LengthOf(mach: Machine, b: Vec, x: Example, c: real)
    requires mach.Valid() && |b| == 3 && (b[0] == 1.0 || b[0] == -1.0) && (b[1] == x.beta || b[1] == -x.beta)
    requires b[2] == c
    ensures mach.Norm(b) * mach.Norm(b) == 1.0 + x.beta * x.beta + c * c
  {
    Dot3(b, b);
  }

  /** The first step succeeds, but not by much. */
  lemma SmallSuccess(a: real, f0: real, f1: real, m: real, p: real)
    requires a > 0.0 && f0 > 0.0 && f1 >= 0.0 && m >= 0.0
    requires f0 * f0 == a + 625.0 / 576.0 && f1 * f1 == a + 1.0 && m * m == a
    ensures var t := TrialOf(f0, p, f1, m); 0.0001 <= t.ratio < 0.1 && t.actred < 0.1
  {
    hide TrialOf;
    SquareOrder(f1, f0, f1 * f1, f0 * f0);
    SquareOrder(m, f0, m * m, f0 * f0);
    var q1, q2 := f1 / f0, m / f0;
    TimesBack(f1, f0, q1);
    TimesBack(m, f0, q2);
    SquareOfProduct(q1, f0, q1 * q1, f0 * f0, f1);
    SquareOfProduct(q2, f0, q2 * q2, f0 * f0, m);
    var act, pre := 1.0 - q1 * q1, 1.0 - q2 * q2;
    SmallShare(f0 * f0, act, pre);
    TrialBelow(f0, p, f1, m, act, pre);
  }

  lemma SmallShare(ff: real, act: real, pre: real)
    requires ff > 625.0 / 576.0 && act * ff == 49.0 / 576.0 && pre * ff == 625.0 / 576.0
    ensures 0.0 < act < 0.1 && 0.0 < pre && 0.0001 * pre <= act < 0.1 * pre
  {
    if act >= 0.1 {
      NonnegProduct(act - 0.1, ff, (act - 0.1) * ff);
    }
    if act <= 0.0 {
      NonnegProduct(-act, ff, -act * ff);
    }
    if pre <= 0.0 {
      NonnegProduct(-pre, ff, -pre * ff);
    }
    assert (625.0 * act - 49.0 * pre) * ff == 0.0;
    ZeroProduct(625.0 * act - 49.0 * pre, ff);
  }

  lemma TrialBelow(f0: real, p: real, f1: real, m: real, act: real, pre: real)
    requires 0.0 <= f1 < f0 && 0.0 <= m < f0 && act == 1.0 - (f1 / f0) * (f1 / f0) && pre == 1.0 - (m / f0) * (m / f0)
    requires 0.0 < act < 0.1 && 0.0 < pre && 0.0001 * pre <= act < 0.1 * pre
    ensures var t := TrialOf(f0, p, f1, m); 0.0001 <= t.ratio < 0.1 && t.actred < 0.1
  {
    ShareBounds(act, pre, act / pre);
  }

  lemma ShareBounds(act: real, pre: real, r: real)
    requires pre > 0.0 && r == act / pre && 0.0001 * pre <= act < 0.1 * pre
    ensures 0.0001 <= r < 0.1
  {
    assert r * pre == act;
    if r < 0.0001 {
      PositiveProduct(0.0001 - r, pre, (0.0001 - r) * pre);
    }
    if r >= 0.1 {
      NonnegProduct(r - 0.1, pre, (r - 0.1) * pre);
    }
  }

  /** A trial that does not reduce the norm. */
  lemma NoReduction(f0: real, p: real, f1: real, m: real)
    requires 0.0 <= f0 <= f1 && m >= 0.0
    ensures var t := TrialOf(f0, p, f1, m); t.ratio <= 0.0 && t.actred == -1.0
  {
    var pre := PredictedReduction(f0, m);
    if pre > 0.0 {
      DivisionSign(-1.0, pre, -1.0 / pre);
    }
  }

  // ---- the rank-one update on the way ----

  /** The rotations of an update that needs none. */
  const STILL: seq<Givens> := [Givens(1, 1.0, 0.0), Givens(0, 1.0, 0.0), Givens(0, 1.0, 0.0), Givens(1, 1.0, 0.0)]

  lemma StillRotations(mach: Machine)
    requires mach.Valid()
    ensures Planes(STILL, 3) && AreRotations(STILL, 3) && Replayed(mach, STILL, 3) == STILL
  {
    CosineInvertible(mach, 1.0);
    ReplayedFaithfully(mach, STILL, 3);
  }

  lemma StillTurns(y: Vec)
    requires |y| == 3
    ensures RotAll(STILL, y) == y
  {
    hide Rot;
    StillTurn(STILL[0], y);
    StillTurn(STILL[1], y);
    assert RotTo(STILL, 0, y) == y;
    assert RotTo(STILL, 1, y) == y;
    assert RotTo(STILL, 2, y) == y;
    assert RotTo(STILL, 3, y) == y;
  }

  lemma StillTurn(g: Givens, y: Vec)
    requires g.j + 1 < |y| && g.c == 1.0 && g.s == 0.0
    ensures Rot(g, y) == y
  {
    IdentityMix(y[g.j], y[|y| - 1]);
  }

  /** The last entry k of the triangle changes by i. */
  lemma CornerRows(k: real, i: real, k': real, r: seq<real>, r': seq<real>, j: nat)
    requires r == [0.0, 0.0, 0.0, 0.0, 0.0, k] && r' == [0.0, 0.0, 0.0, 0.0, 0.0, k'] && k' == k - i && j < 3
    ensures |r| == |r'| == Slots(3)
    ensures LowerRow(r', 3, 3, j) == Axpy([0.0, 0.0, -1.0][j], [0.0, 0.0, i], LowerRow(r, 3, 3, j))
  {
    CornerPacked(k, r);
    CornerPacked(k', r');
    LowerIsUpperColumn(r, 3, j);
    LowerIsUpperColumn(r', 3, j);
    assert Col(Corner(k), j) == if j < 2 then [0.0, 0.0, 0.0] else [0.0, 0.0, k];
    assert Col(Corner(k'), j) == if j < 2 then [0.0, 0.0, 0.0] else [0.0, 0.0, k'];
  }

  lemma CornerTriangle(mach: Machine, k: real, i: real, k': real, r: seq<real>, r': seq<real>)
    requires mach.Valid()
    requires r == [0.0, 0.0, 0.0, 0.0, 0.0, k] && r' == [0.0, 0.0, 0.0, 0.0, 0.0, k'] && k' == k - i
    ensures RotatedTriangle(r, r', [0.0, 0.0, -1.0], [0.0, 0.0, i], 3, STILL)
  {
    hide LowerRow, RotAll, Axpy, Slots, Replayed, STILL;
    StillRotations(mach);
    CornerRows(k, i, k', r, r', 0);
    forall j | 0 <= j < 3
      ensures LowerRow(r', 3, 3, j) == RotAll(STILL, Axpy([0.0, 0.0, -1.0][j], [0.0, 0.0, i], LowerRow(r, 3, 3, j)))
    {
      CornerRows(k, i, k', r, r', j);
      StillTurns(Axpy([0.0, 0.0, -1.0][j], [0.0, 0.0, i], LowerRow(r, 3, 3, j)));
    }
  }

  /** Broyden's update between two states along the axis: only the last entry of the triangle changes. */
  lemma CornerUpdate(mach: Machine, k: real, i: real, k': real, t: real, r: seq<real>, r': seq<real>, p: Vec, b: Vec,
                     b': Vec, f: Vec, f': Vec, model: Vec)
    requires mach.Valid() && t > 0.0 && t * i == 1.0 && p == [0.0, 0.0, -t] && |b| == |b'| == 3
    requires r == [0.0, 0.0, 0.0, 0.0, 0.0, k] && r' == [0.0, 0.0, 0.0, 0.0, 0.0, k'] && k' == k - i
    requires f == Times(LASTSIGN, b) && f' == Times(LASTSIGN, b') && model == Axpy(1.0, Mul(Corner(k), p), b)
    requires Axpy(-1.0, model, b') == [0.0, 0.0, 1.0]
    ensures FactorsUpdated(mach, Flip(LASTSIGN), r, ONES, p, Axpy(-1.0, f, f'), Flip(LASTSIGN), r', 3,
                           Updating([0.0, 0.0, -1.0], [0.0, 0.0, i], STILL))
  {
    hide RotAll, SecantUpdate, RotatedTriangle, Mul, Product, RankOne, OrthonormalRows, Upper, Corner, STILL, Times;
    StillRotations(mach);
    hide Planes, Replayed;
    CornerTriangle(mach, k, i, k', r, r');
    CornerPacked(k, r);
    CornerSecant(k, i, t, p, b, b', f, f', model);
    StillRows(Flip(LASTSIGN));
  }

  lemma StillRows(q: Mat)
    requires IsMat(q, 3, 3) && AreRotations(STILL, 3)
    ensures RotatedRows(q, q, 3, STILL)
  {
    hide RotAll, STILL;
    forall a | 0 <= a < 3
      ensures q[a] == RotAll(STILL, q[a])
    {
      StillTurns(q[a]);
    }
  }

  lemma CornerSecant(k: real, i: real, t: real, p: Vec, b: Vec, b': Vec, f: Vec, f': Vec, model: Vec)
    requires t > 0.0 && t * i == 1.0 && p == [0.0, 0.0, -t] && |b| == |b'| == 3
    requires f == Times(LASTSIGN, b) && f' == Times(LASTSIGN, b') && model == Axpy(1.0, Mul(Corner(k), p), b)
    requires Axpy(-1.0, model, b') == [0.0, 0.0, 1.0]
    ensures var q, u, v := Flip(LASTSIGN), [0.0, 0.0, -1.0], [0.0, 0.0, i];
      SecantUpdate(Product(q, Corner(k), 3), RankOne(Product(q, Corner(k), 3), Mul(q, v), u), ONES, p,
                   Axpy(-1.0, f, f'),
                   3)
  {
    hide SecantUpdate, Mul, Product, RankOne, OrthonormalRows, Corner, ScaledLength, VBehind, Times, Scale, Axpy, Flip;
    FlipFactors(LASTSIGN, b);
    AxisLength(p, t);
    AlongStep(t, p);
    CornerBehind(k, i, t, p, b, b', f', model);
    Secant(Flip(LASTSIGN), Corner(k), ONES, b, f, f', p, t, [0.0, 0.0, -1.0], [0.0, 0.0, i], 3);
  }

  lemma CornerBehind(k: real, i: real, t: real, p: Vec, b: Vec, b': Vec, f': Vec, model: Vec)
    requires t * i == 1.0 && |p| == |b| == |b'| == 3
    requires f' == Times(LASTSIGN, b') && model == Axpy(1.0, Mul(Corner(k), p), b)
    requires Axpy(-1.0, model, b') == [0.0, 0.0, 1.0]
    ensures VBehind(Flip(LASTSIGN), Corner(k), b, f', p, t, [0.0, 0.0, i], 3)
  {
    FlipFactors(LASTSIGN, b');
    ScaledAxis(t, i);
    hide Mul, Times, Scale, Axpy;
  }

  lemma AlongStep(t: real, p: Vec)
    requires p == [0.0, 0.0, -t]
    ensures Scale(t, [0.0, 0.0, -1.0]) == Times(ONES, Times(ONES, p))
  {
    UnitScale(p);
    var y := Scale(t, [0.0, 0.0, -1.0]);
    assert y[0] == t * 0.0 && y[1] == t * 0.0 && y[2] == t * -1.0;
  }

  lemma ScaledAxis(t: real, i: real)
    requires t * i == 1.0
    ensures Scale(t, [0.0, 0.0, i]) == [0.0, 0.0, 1.0]
  {
    var y := Scale(t, [0.0, 0.0, i]);
    assert y[0] == t * 0.0 && y[1] == t * 0.0 && y[2] == t * i;
  }

  lemma AxisLength(p: Vec, t: real)
    requires p == [0.0, 0.0, -t] && t > 0.0
    ensures ScaledLength(ONES, p, t)
  {
    UnitScale(p);
    Dot3(p, p);
  }

  // ---- the run that divides by zero ----

  /** The counters at the start of the walk, and what a run that goes on needs of them. */
  ghost predicate Quiet(e: Control, ncfail: nat, slow: nat, delta: real) {
    && e.iter == 2 && e.ncfail == ncfail && e.nslow1 <= slow && e.nslow2 <= 2 && e.delta == delta > 0.0
    && e.xnorm == 0.0 && e.fnorm > 0.0
  }

  lemma FirstCounters(c: Control, t: Trial)
    requires c.iter == 1 && c.ncfail == c.nslow1 == c.nslow2 == 0 && c.delta == t.pnorm > 0.0 && c.jeval
    requires 0.0001 <= t.ratio < 0.1 && t.actred < 0.1 && t.fnorm1 > 0.0
    ensures var e := After(c, t, 0.0);
      Quiet(e, 1, 1, 0.5 * c.delta) && e.nslow2 == 1 && e.fnorm == t.fnorm1 && Success(t)
  {
  }

  lemma FailedCounters(c: Control, t: Trial, xnorm: real, fails: nat, slow: nat, delta: real)
    requires Quiet(c, fails, slow, delta) && c.nslow2 <= 1 && t.ratio < 0.0001
    ensures var e := After(c, t, xnorm);
      Quiet(e, fails + 1, slow + 1, 0.5 * delta) && (!c.jeval ==> e.nslow2 <= 1) && e.fnorm == c.fnorm && !Success(t)
  {
  }

  lemma QuietGoesOn(mach: Machine, e: Control, ncfail: nat, delta: real, pnorm: real, xtol: real, nfev: nat,
                    maxfev: int)
    requires mach.Valid() && Quiet(e, ncfail, 3, delta) && pnorm >= 0.0 && nfev < maxfev
    ensures Judge(mach, e, pnorm, xtol, nfev, maxfev) == if ncfail == 2 then Refactor else Update
  {
  }

  /** The first state of the walk: k t = 25/24 takes the step of length t to the origin. */
  ghost function FirstControl(g: Problem, w: Walk): Control
    requires g.mach.Valid()
  {
    Control(1, 0, 0, 0, 0, true, w.t, w.t, g.mach.Norm(g.fcn.f(w.Start())))
  }

  lemma FirstCorner(g: Problem, w: Walk)
    requires Walks(g, w)
    ensures AtCorner(g.mach, g.fcn, w.Start(), 25.0 / 24.0 * w.i, w.Before(), w.t, FirstControl(g, w))
  {
    LastAxis(g.mach, w.Start());
    assert 25.0 / 24.0 * w.i * w.t == 25.0 / 24.0 * (w.t * w.i);
  }

  /** The first step succeeds by little, and the run stands at the origin. */
  lemma FirstStep(g: Problem, w: Walk) returns (s: Step)
    requires Walks(g, w)
    ensures StepOk(g.mach, g.fcn, s) && s.p == [0.0, 0.0, -w.t] && s.t.pnorm == w.t
    ensures s.a == CornerState(w.Start(), 25.0 / 24.0 * w.i, w.Before(), FirstControl(g, w))
    ensures Success(s.t) && s.Point() == s.Next() == Zero(3)
    ensures Quiet(s.e, 1, 1, 0.5 * w.t) && s.e.nslow2 == 1 && s.e.fnorm == g.mach.Norm(g.fcn.f(Zero(3)))
  {
    hide StepOk, AtCorner, TrialOf, After, AtExample, CornerState, ScaledNorm, Linear;
    FirstCorner(g, w);
    var k, c := 25.0 / 24.0 * w.i, FirstControl(g, w);
    assert k * w.t == 25.0 / 24.0 * (w.t * w.i);
    assert Axpy(1.0, [0.0, 0.0, -w.t], w.Start()) == Zero(3);
    s := CornerMove(g.mach, g.fcn, w.Start(), k, w.Before(), w.t, c, Zero(3), 0.0);
    FirstMeasures(g, w, s.t);
    ScaledZero(g.mach, ONES, Zero(3));
    FirstCounters(c, s.t);
  }

  lemma FirstMeasures(g: Problem, w: Walk, t: Trial)
    requires Walks(g, w)
    requires t == TrialOf(g.mach.Norm(g.fcn.f(w.Start())), w.t, g.mach.Norm(g.fcn.f(Zero(3))),
                          g.mach.Norm([-1.0, -w.x.beta, 0.0]))
    ensures 0.0001 <= t.ratio < 0.1 && t.actred < 0.1 && t.pnorm == w.t
    ensures t.fnorm1 == g.mach.Norm(g.fcn.f(Zero(3))) > 0.0
  {
    hide Walks, Zero, Times, ActualReduction, PredictedReduction, Ratio, Dot;
    WalkParts(g, w);
    hide TrialOf, AtExample;
    var a := WalkLengths(g, w);
    var f0, f1 := g.mach.Norm(g.fcn.f(w.Start())), g.mach.Norm(g.fcn.f(Zero(3)));
    PositiveLength(f0, a + 625.0 / 576.0);
    PositiveLength(f1, a + 1.0);
    SmallSuccess(a, f0, f1, g.mach.Norm([-1.0, -w.x.beta, 0.0]), w.t);
  }

  lemma WalkLengths(g: Problem, w: Walk) returns (a: real)
    requires Walks(g, w)
    ensures a > 0.0
    ensures var f0 := g.mach.Norm(g.fcn.f(w.Start())); f0 * f0 == a + 625.0 / 576.0
    ensures var f1 := g.mach.Norm(g.fcn.f(Zero(3))); f1 * f1 == a + 1.0
    ensures var m := g.mach.Norm([-1.0, -w.x.beta, 0.0]); m * m == a
    ensures var m := g.mach.Norm([-1.0, -w.x.beta, 47.0 / 48.0]); m * m == a + 2209.0 / 2304.0
  {
    hide Linear;
    OriginValue(w.x, w);
    a := 1.0 + w.x.beta * w.x.beta;
    LengthOf(g.mach, g.fcn.f(w.Start()), w.x, -25.0 / 24.0);
    LengthOf(g.mach, g.fcn.f(Zero(3)), w.x, -1.0);
    LengthOf(g.mach, [-1.0, -w.x.beta, 0.0], w.x, 0.0);
    LengthOf(g.mach, [-1.0, -w.x.beta, 47.0 / 48.0], w.x, 47.0 / 48.0);
    SquareSign(w.x.beta, w.x.beta * w.x.beta);
  }

  lemma PositiveLength(f: real, q: real)
    requires f >= 0.0 && f * f == q && q > 0.0
    ensures f > 0.0
  {
    SquareSign(f, q);
  }

  // ---- the second step ----

  lemma SecondCorner(g: Problem, w: Walk, c: Control)
    requires Walks(g, w) && Quiet(c, 1, 1, 0.5 * w.t) && c.fnorm == g.mach.Norm(g.fcn.f(Zero(3)))
    ensures AtCorner(g.mach, g.fcn, Zero(3), w.i / 24.0, w.Behind(), 24.0 * w.t, c)
  {
    hide Linear;
    OriginValue(w.x, w);
    ScaledZero(g.mach, ONES, Zero(3));
    assert w.i / 24.0 * (24.0 * w.t) == w.t * w.i;
  }

  /** The second step goes beyond the origin, and fails there. */
  lemma SecondStep(g: Problem, w: Walk, c: Control) returns (s: Step)
    requires Walks(g, w) && Quiet(c, 1, 1, 0.5 * w.t) && c.fnorm == g.mach.Norm(g.fcn.f(Zero(3)))
    requires !c.jeval && c.nslow2 <= 1
    ensures StepOk(g.mach, g.fcn, s) && s.p == [0.0, 0.0, -0.5 * w.t] && s.t.pnorm == 0.5 * w.t
    ensures s.a == CornerState(Zero(3), w.i / 24.0, w.Behind(), c) && s.Next() == Zero(3)
    ensures Quiet(s.e, 2, 2, 0.25 * w.t) && s.e.nslow2 <= 1 && s.e.fnorm == g.mach.Norm(g.fcn.f(Zero(3)))
  {
    hide Dot, Aimed, TrialAt;
    WalkParts(g, w);
    hide StepOk, AtCorner, TrialOf, After, AtExample, CornerState, ScaledNorm, Linear;
    hide Walks, Axpy;
    SecondCorner(g, w, c);
    var k := w.i / 24.0;
    Beyond(w, c.delta);
    SecondRest(w.i, w.t, c.delta, k, w.Behind());
    s := CornerMove(g.mach, g.fcn, Zero(3), k, w.Behind(), 24.0 * w.t, c, w.Beyond(), 47.0 / 48.0);
    SecondMeasures(g, w, s.t);
    FailedCounters(c, s.t, ScaledNorm(g.mach, ONES, w.Beyond()), 1, 1, 0.5 * w.t);
  }

  lemma Beyond(w: Walk, delta: real)
    requires delta == 0.5 * w.t
    ensures Axpy(1.0, [0.0, 0.0, -delta], Zero(3)) == w.Beyond() && [0.0, 0.0, -delta] == w.Beyond()
  {
  }

  lemma SecondRest(i: real, t: real, delta: real, k: real, b: Vec)
    requires t * i == 1.0 && delta == 0.5 * t && k == i / 24.0 && |b| == 3 && b[2] == 1.0
    ensures b[2] - k * delta == 47.0 / 48.0
  {
    assert k * (0.5 * t) == (t * i) / 48.0;
  }

  lemma SecondMeasures(g: Problem, w: Walk, t: Trial)
    requires Walks(g, w)
    requires t == TrialOf(g.mach.Norm(g.fcn.f(Zero(3))), 0.5 * w.t, g.mach.Norm(g.fcn.f(w.Beyond())),
                          g.mach.Norm([-1.0, -w.x.beta, 47.0 / 48.0]))
    ensures t.pnorm == 0.5 * w.t && t.ratio <= 0.0
  {
    hide ActualReduction, PredictedReduction, Ratio, Dot;
    WalkParts(g, w);
    hide TrialOf, AtExample;
    var a := WalkLengths(g, w);
    var f1, f2 := g.mach.Norm(g.fcn.f(Zero(3))), g.mach.Norm(g.fcn.f(w.Beyond()));
    SquareOrder(f1, f2, a + 1.0, a + 625.0 / 576.0);
    NoReduction(f1, 0.5 * w.t, f2, g.mach.Norm([-1.0, -w.x.beta, 47.0 / 48.0]));
  }

  /** The update after the first step leads to the second. */
  lemma SecondJoins(g: Problem, w: Walk, s: Step, a: State)
    requires Walks(g, w) && |s.p| == |s.a.x| == |s.a.d| == 3
    requires s.a == CornerState(w.Start(), 25.0 / 24.0 * w.i, w.Before(), FirstControl(g, w)) && s.p == [0.0, 0.0, -w.t]
    requires s.Point() == Zero(3) && a == CornerState(Zero(3), w.i / 24.0, w.Behind(), a.c)
    ensures FactorsFollow(g.mach, g.fcn, s, a.q, a.r, Updating([0.0, 0.0, -1.0], [0.0, 0.0, w.i], STILL))
  {
    hide FirstControl, Zero, ProblemOk, LinearColumns, Planes, RotatedTriangle;
    WalkParts(g, w);
    hide AtExample, FactorsUpdated, STILL, Linear, Mul, Corner, Flip, Times, Axpy;
    var k, p := 25.0 / 24.0 * w.i, [0.0, 0.0, -w.t];
    assert k * w.t == 25.0 / 24.0 * (w.t * w.i);
    CornerModel(k, w.Before(), w.t, p, 0.0);
    ChangeBehind(w);
    CornerUpdate(g.mach, k, w.i, w.i / 24.0, w.t, s.a.r, a.r, p, w.Before(), w.Behind(), g.fcn.f(w.Start()),
                 g.fcn.f(Zero(3)), [-1.0, -w.x.beta, 0.0]);
  }

  lemma ChangeBehind(w: Walk)
    ensures Axpy(-1.0, [-1.0, -w.x.beta, 0.0], w.Behind()) == [0.0, 0.0, 1.0]
  {
  }

  // ---- the third step ----

  /** dogleg returns the zero step at the origin for the bound a quarter t. */
  ghost predicate Stands(mach: Machine, w: Walk)
    requires mach.Valid()
  {
    && Inputs(w.x.R(), ONES, w.x.B(), 0.25 * w.t)
    && DoglegStep(mach, w.x.R(), ONES, w.x.B(), 0.25 * w.t, w.x.Gn(), Zero(3))
  }

  /** With a new Jacobian at the origin the step is zero, and no test stops the run. */
  lemma ThirdStep(g: Problem, w: Walk, c: Control) returns (s: Step)
    requires Walks(g, w) && Quiet(c, 2, 2, 0.25 * w.t) && c.fnorm == g.mach.Norm(g.fcn.f(Zero(3)))
    requires c.jeval && c.nslow2 <= 1 && Stands(g.mach, w)
    ensures StepOk(g.mach, g.fcn, s) && StateOk(g.mach, g.fcn, s.a) && s.a == OriginState(w.x, c)
    ensures Factors(g, s.a) && s.t.pnorm == 0.0
    ensures Quiet(s.e, 3, 3, 0.125 * w.t) && |s.p| == |s.a.x|
  {
    hide StepOk, StateOk, DoglegStep, Inputs, TrialAt, After, Linear, LinearColumns, Example.R, Example.B, Factors;
    StandStillOk(g, w.x, c);
    OriginOk(g, w.x, c);
    s := StandStill(g, w.x, c);
    TrialLength(g.mach, g.fcn, s.a, s.p, s.t);
    FailedCounters(c, s.t, 0.0, 2, 2, 0.25 * w.t);
  }

  // ---- the three steps as a run ----

  lemma FirstJoined(g: Problem, w: Walk, a: State)
    requires Walks(g, w) && a == CornerState(w.Start(), 25.0 / 24.0 * w.i, w.Before(), FirstControl(g, w))
    ensures Joined(g, [], a)
  {
    hide StateOk, AtExample, FactorOk, Product, Times, Ruled, Carried, Slots, Comb;
    WalkParts(g, w);
    FirstCorner(g, w);
    CornerStateOk(g.mach, g.fcn, w.Start(), 25.0 / 24.0 * w.i, w.Before(), w.t, FirstControl(g, w));
    LastAxis(g.mach, w.Start());
    WalkSettings(g, w);
    hide Upper, Corner, ScaledNorm;
    forall i, j | 0 <= i < 3 && 0 <= j < 3
      ensures Product(a.q, Upper(a.r, 3), 3)[i][j] == w.Columns()[j][i]
    {
      CornerEntries(25.0 / 24.0 * w.i, i, j);
    }
    assert Factors(g, a);
  }

  lemma WalkSettings(g: Problem, w: Walk)
    requires Walks(g, w)
    ensures ProblemOk(g) && g.d0 == ONES && g.l.mode == 2 && g.l.maxfev > 4 + 2 * g.cost
  {
  }

  lemma CornerEntries(k: real, i: nat, j: nat)
    requires i < 3 && j < 3
    ensures Product(Flip(LASTSIGN), Corner(k), 3)[i][j] == if i == 2 && j == 2 then -k else 0.0
  {
    FlipProduct(LASTSIGN, Corner(k), i, j);
  }

  lemma PartGoesOn(g: Problem, h: History, s: Step, ncfail: nat, delta: real)
    requires g.mach.Valid() && h != [] && Last(h) == s && Quiet(s.e, ncfail, 3, delta) && s.t.pnorm >= 0.0
    requires Calls(g, h) < g.l.maxfev
    ensures Ruled(g, h) == if ncfail == 2 then Refactor else if s.t.pnorm == 0.0 then Undefined else Update
  {
    hide Calls, Quiet, Judge;
    QuietGoesOn(g.mach, s.e, ncfail, delta, s.t.pnorm, g.l.xtol, Calls(g, h), g.l.maxfev);
  }

  lemma QuietMore(e: Control, ncfail: nat, slow: nat, delta: real)
    requires Quiet(e, ncfail, slow, delta) && slow <= 3
    ensures Quiet(e, ncfail, 3, delta) && e.iter == 2
  {
  }

  /** The run after its first step, from the start to the origin. */
  lemma FirstPart(g: Problem, w: Walk) returns (h: History)
    requires Walks(g, w)
    ensures Trace(g, h) && |h| == 1 && Ruled(g, h) == Update && Calls(g, h) == 2 + g.cost
    ensures var s := Last(h);
      StepOk(g.mach, g.fcn, s) && s.a == CornerState(w.Start(), 25.0 / 24.0 * w.i, w.Before(), FirstControl(g, w))
      && s.p == [0.0, 0.0, -w.t] && |s.p| == |s.a.x| && s.Point() == s.Next() == Zero(3)
      && Quiet(s.e, 1, 1, 0.5 * w.t) && s.e.nslow2 == 1 && s.e.fnorm == g.mach.Norm(g.fcn.f(Zero(3)))
  {
    var s := FirstStep(g, w);
    FirstJeval(g, w, s.a);
    FirstJoined(g, w, s.a);
    WalkSettings(g, w);
    StepSizes(g.mach, g.fcn, s);
    QuietMore(s.e, 1, 1, 0.5 * w.t);
    hide StepOk, StateOk, Walks, CornerState, Joined, FirstControl, Quiet, Ruled;
    assert Trace(g, []) && Calls(g, []) == 1;
    hide Trace, Calls;
    h := [] + [s];
    TraceExtends(g, [], s);
    PartGoesOn(g, h, s, 1, 0.5 * w.t);
  }

  lemma FirstJeval(g: Problem, w: Walk, a: State)
    requires g.mach.Valid() && a == CornerState(w.Start(), 25.0 / 24.0 * w.i, w.Before(), FirstControl(g, w))
    ensures a.c.jeval
  {
  }

  /** The run after its second step, which fails beyond the origin. */
  lemma SecondPart(g: Problem, w: Walk) returns (h: History)
    requires Walks(g, w)
    ensures Trace(g, h) && |h| == 2 && Ruled(g, h) == Refactor && Calls(g, h) == 3 + g.cost
    ensures var s := Last(h);
      StepOk(g.mach, g.fcn, s) && |s.p| == |s.a.x| && s.Next() == Zero(3) && s.a.d == ONES
      && Quiet(s.e, 2, 2, 0.25 * w.t) && s.e.nslow2 <= 1 && s.e.fnorm == g.mach.Norm(g.fcn.f(Zero(3)))
  {
    WalkSettings(g, w);
    hide StepOk, StateOk, Walks, Joined, FirstControl, Trace, Calls, Ruled;
    var h1 := FirstPart(g, w);
    var s1 := Last(h1);
    var c := s1.e.(jeval := false);
    assert Quiet(c, 1, 1, 0.5 * w.t);
    var s := SecondStep(g, w, c);
    SecondStarts(w, c, s.a);
    hide Quiet, CornerState;
    StepSizes(g.mach, g.fcn, s);
    QuietMore(s.e, 2, 2, 0.25 * w.t);
    JoinedSecond(g, w, h1, s1, s.a);
    h := h1 + [s];
    TraceExtends(g, h1, s);
    PartGoesOn(g, h, s, 2, 0.25 * w.t);
  }

  lemma SecondStarts(w: Walk, c: Control, a: State)
    requires a == CornerState(Zero(3), w.i / 24.0, w.Behind(), c)
    ensures a.d == ONES && a.c == c && |a.x| == 3
  {
  }

  /** The walk: a run of three steps that comes to divide by the length of the last, which is zero. */
  lemma DividesByZero(g: Problem, w: Walk) returns (h: History)
    requires Walks(g, w) && Stands(g.mach, w)
    ensures Trace(g, h) && |h| == 3 && Ruled(g, h) == Undefined
    ensures StepOk(g.mach, g.fcn, Last(h)) && Last(h).t.pnorm == 0.0
  {
    hide Stands, StepOk, StateOk, Walks, Joined, Trace, Calls, Ruled, Factors;
    WalkSettings(g, w);
    var h2 := SecondPart(g, w);
    var c := Last(h2).e.(jeval := true);
    assert Quiet(c, 2, 2, 0.25 * w.t) && c.iter == 2;
    var s := ThirdStep(g, w, c);
    ThirdStarts(w.x, c, s.a);
    hide Quiet, OriginState;
    JoinedThird(g, w, h2, Last(h2), s.a);
    h := h2 + [s];
    TraceExtends(g, h2, s);
    QuietMore(s.e, 3, 3, 0.125 * w.t);
    PartGoesOn(g, h, s, 3, 0.125 * w.t);
  }

  lemma ThirdStarts(x: Example, c: Control, a: State)
    requires a == OriginState(x, c)
    ensures a.c == c
  {
  }

  lemma JoinedSecond(g: Problem, w: Walk, h: History, s: Step, a: State)
    requires Walks(g, w) && Trace(g, h) && h != [] && Last(h) == s && Ruled(g, h) == Update
    requires StepOk(g.mach, g.fcn, s) && StateOk(g.mach, g.fcn, a)
    requires s.a == CornerState(w.Start(), 25.0 / 24.0 * w.i, w.Before(), FirstControl(g, w)) && s.p == [0.0, 0.0, -w.t]
    requires |s.p| == |s.a.x| && s.Point() == s.Next() == Zero(3)
    requires a == CornerState(Zero(3), w.i / 24.0, w.Behind(), s.e.(jeval := false))
    ensures Joined(g, h, a)
  {
    hide StepOk, StateOk, AtExample, FactorsFollow, Trace, Ruled, Flip;
    SecondJoins(g, w, s, a);
    WalkSettings(g, w);
    assert Carried(g, s, a);
  }

  lemma JoinedThird(g: Problem, w: Walk, h: History, s: Step, a: State)
    requires Walks(g, w) && Trace(g, h) && h != [] && Last(h) == s && Ruled(g, h) == Refactor
    requires StepOk(g.mach, g.fcn, s) && StateOk(g.mach, g.fcn, a) && Factors(g, a)
    requires |s.p| == |s.a.x| && s.Next() == Zero(3) && s.a.d == ONES && s.e.iter == 2
    requires a == OriginState(w.x, s.e.(jeval := true))
    ensures Joined(g, h, a)
  {
    hide StepOk, StateOk, AtExample, FactorsFollow, Trace, Ruled, Flip, Factors;
    WalkSettings(g, w);
    assert Renewed(g, s.Next(), s.a.d, s.e, a);
  }
}
