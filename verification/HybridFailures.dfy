/** Problems on which hybrj and hybrd report a solution that is none, or come to divide by zero. */
module HybridFailures {
  import opened Reals
  import opened Vectors
  import opened Machines
  import opened Users
  import opened Runs
  import opened Dogleg
  import opened DoglegTheorems
  import opened DoglegZero
  import opened Fdjac
  import opened HybridStep
  import opened HybridTrace
  import opened HybridRuns
  import Hybrj
  import Hybrd

  /** A function of three variables that never asks to stop. */
  ghost predicate Steady(fcn: Fcn) {
    fcn.Valid() && fcn.n == fcn.m == 3 && forall k: nat, y: Vec :: fcn.flag(k, y) == 0
  }

  // ---- a linear function ----

  function LinearFcn(x: Example): (fcn: Fcn) {
    Fcn(3, 3, y => if |y| == 3 then Linear(x, y) else Zero(3), (k, y) => 0)
  }

  /** hybrj on a linear function without a zero near the start: the first step is zero, and it reports success. */
  lemma HybrjFalseSolution(mach: Machine, xtol: real, maxfev: int) returns (g: FcnDer, l: Limits, h: History)
    requires mach.Valid() && xtol >= 0.0
    ensures g.Valid() && Steady(g.fcn) && l.xtol == xtol && l.maxfev == maxfev
    ensures Trace(Hybrj.ProblemOf(mach, g, Zero(3), ONES, l), h) && h != []
    ensures Ruled(Hybrj.ProblemOf(mach, g, Zero(3), ONES, l), h) == Stop(1)
    ensures |Last(h).p| == |Last(h).a.x| && Reached(Hybrj.ProblemOf(mach, g, Zero(3), ONES, l), h) == Zero(3)
    ensures g.fcn.f(Zero(3)) != Zero(3)
  {
    hide DoglegStep, Inputs, Cancels, Linear, LinearColumns, Trace, Ruled, Reached, StepOk;
    var x, delta := DoglegCanVanish(mach);
    BoundPositive(mach, x, delta);
    g := FcnDer(LinearFcn(x), y => LinearColumns(x), (k, y) => 0);
    l := Limits(xtol, maxfev, 2, delta);
    var p := Hybrj.ProblemOf(mach, g, Zero(3), ONES, l);
    assert AtExample(p, x);
    h := FalseSolution(p, x, delta);
    StepSizes(mach, g.fcn, Last(h));
  }

  lemma BoundPositive(mach: Machine, x: Example, delta: real)
    requires Inputs(x.R(), ONES, x.B(), delta)
    ensures delta > 0.0
  {
  }

  /** The same for hybrd, whose differences are exact on a linear function. */
  lemma HybrdFalseSolution(mach: Machine, xtol: real, maxfev: int, epsfcn: real)
    returns (fcn: Fcn, l: Limits, h: History)
    requires mach.Valid() && xtol >= 0.0
    ensures Steady(fcn) && l.xtol == xtol && l.maxfev == maxfev
    ensures Trace(Hybrd.ProblemOf(mach, fcn, 2, 2, epsfcn, Zero(3), ONES, l), h) && h != []
    ensures Ruled(Hybrd.ProblemOf(mach, fcn, 2, 2, epsfcn, Zero(3), ONES, l), h) == Stop(1)
    ensures |Last(h).p| == |Last(h).a.x|
    ensures Reached(Hybrd.ProblemOf(mach, fcn, 2, 2, epsfcn, Zero(3), ONES, l), h) == Zero(3)
    ensures fcn.f(Zero(3)) != Zero(3)
  {
    hide DoglegStep, Inputs, Cancels, Linear, LinearColumns, Trace, Ruled, Reached, StepOk, BandJacobian;
    var x, delta := DoglegCanVanish(mach);
    BoundPositive(mach, x, delta);
    fcn := LinearFcn(x);
    l := Limits(xtol, maxfev, 2, delta);
    var p := Hybrd.ProblemOf(mach, fcn, 2, 2, epsfcn, Zero(3), ONES, l);
    OriginColumns(mach, fcn, x, epsfcn, Eps(mach, epsfcn));
    assert AtExample(p, x);
    h := FalseSolution(p, x, delta);
    StepSizes(mach, fcn, Last(h));
  }

  /** Differences at the origin of a function that is the linear one as far as they reach. */
  lemma OriginColumns(mach: Machine, fcn: Fcn, x: Example, epsfcn: real, e: real)
    requires mach.Valid() && fcn.Valid() && fcn.n == fcn.m == 3 && e == Eps(mach, epsfcn)
    requires fcn.f(Zero(3)) == Linear(x, Zero(3)) && fcn.f([e, 0.0, 0.0]) == Linear(x, [e, 0.0, 0.0])
    requires fcn.f([0.0, e, 0.0]) == Linear(x, [0.0, e, 0.0]) && fcn.f([0.0, 0.0, e]) == Linear(x, [0.0, 0.0, e])
    ensures BandJacobian(mach, fcn, Zero(3), 2, 2, epsfcn) == LinearColumns(x)
  {
    var hs := Increments(e, Zero(3));
    var f0 := fcn.f(Zero(3));
    assert hs == [e, e, e];
    assert Zero(3)[0 := e] == [e, 0.0, 0.0];
    assert Zero(3)[1 := e] == [0.0, e, 0.0];
    assert Zero(3)[2 := e] == [0.0, 0.0, e];
    LinearQuotients(x, e);
    hide Linear, Quotients;
    var cols := BandJacobian(mach, fcn, Zero(3), 2, 2, epsfcn);
    forall j | 0 <= j < 3
      ensures cols[j] == LinearColumns(x)[j]
    {
      assert cols[j] == DenseColumn(fcn, Zero(3), f0, hs, j);
    }
  }

  lemma LinearQuotients(x: Example, e: real)
    requires e > 0.0
    ensures Quotients(Linear(x, [e, 0.0, 0.0]), Linear(x, Zero(3)), e) == LinearColumns(x)[0]
    ensures Quotients(Linear(x, [0.0, e, 0.0]), Linear(x, Zero(3)), e) == LinearColumns(x)[1]
    ensures Quotients(Linear(x, [0.0, 0.0, e]), Linear(x, Zero(3)), e) == LinearColumns(x)[2]
  {
    AtOrigin(x.u, x.v, x.w);
    QuotientColumn(Linear(x, [e, 0.0, 0.0]), Linear(x, Zero(3)), e, LinearColumns(x)[0]);
    QuotientColumn(Linear(x, [0.0, e, 0.0]), Linear(x, Zero(3)), e, LinearColumns(x)[1]);
    QuotientColumn(Linear(x, [0.0, 0.0, e]), Linear(x, Zero(3)), e, LinearColumns(x)[2]);
  }

  lemma QuotientColumn(y: Vec, f: Vec, e: real, c: Vec)
    requires |y| == |f| == |c| == 3 && e > 0.0
    requires y[0] - f[0] == c[0] * e && y[1] - f[1] == c[1] * e && y[2] - f[2] == c[2] * e
    ensures Quotients(y, f, e) == c
  {
    Quotient(y[0] - f[0], e, c[0]);
    Quotient(y[1] - f[1], e, c[1]);
    Quotient(y[2] - f[2], e, c[2]);
  }

  // ---- a function with three pieces ----

  /** Linear around the origin and, with a Jacobian of rank one, around the start; constant beyond the origin. */
  function Pieces(w: Walk, y: Vec): (f: Vec)
    requires |y| == 3
    ensures |f| == 3
  {
    if y[2] > 0.5 * w.t then [-1.0, -w.x.beta, -(25.0 / 24.0 * w.i) * y[2]]
    else if y[2] > -0.25 * w.t then Linear(w.x, y)
    else [-1.0, -w.x.beta, -25.0 / 24.0]
  }

  function PieceColumns(w: Walk, y: Vec): (cols: Mat)
    requires |y| == 3
    ensures IsMat(cols, 3, 3)
  {
    if y[2] > 0.5 * w.t then w.Columns()
    else if y[2] > -0.25 * w.t then LinearColumns(w.x)
    else [Zero(3), Zero(3), Zero(3)]
  }

  function PiecesFcn(w: Walk): (fcn: Fcn) {
    Fcn(3, 3, y => if |y| == 3 then Pieces(w, y) else Zero(3), (k, y) => 0)
  }

  lemma PieceValues(w: Walk)
    requires w.Ok()
    ensures Pieces(w, w.Start()) == Pieces(w, w.Beyond()) == Times(LASTSIGN, w.Before())
    ensures Pieces(w, Zero(3)) == Linear(w.x, Zero(3))
    ensures PieceColumns(w, w.Start()) == w.Columns() && PieceColumns(w, Zero(3)) == LinearColumns(w.x)
  {
    assert 25.0 / 24.0 * w.i * w.t == 25.0 / 24.0 * (w.t * w.i);
    hide Linear;
    var f := Times(LASTSIGN, w.Before());
    assert f[0] == -1.0 && f[1] == -w.x.beta && f[2] == -25.0 / 24.0;
    var y := Pieces(w, w.Start());
    StartValue(25.0 / 24.0 * w.i, w.t, y[2]);
  }

  lemma StartValue(k: real, t: real, z: real)
    requires k * t == 25.0 / 24.0 && z == -k * t
    ensures z == -25.0 / 24.0
  {
    assert -k * t == -(k * t);
  }

  lemma WalkFor(mach: Machine) returns (w: Walk)
    requires mach.Valid()
    ensures w.Ok() && w.x.e == mach.epsmch && Stands(mach, w)
    ensures Cancels(mach, w.x.R(), ONES, w.x.B(), 0.25 * w.t, w.x.Gn())
  {
    hide DoglegStep, Cancels;
    var x, delta := DoglegCanVanish(mach);
    var t := 4.0 * delta;
    DivisionSign(1.0, t, 1.0 / t);
    w := Walk(x, t, 1.0 / t);
    assert 0.25 * t == delta;
  }

  /** hybrj divides by zero: after a small success and a failure it forms the Jacobian at the origin, where dogleg's
      step vanishes and no test stops the run. */
  lemma HybrjDividesByZero(mach: Machine, xtol: real, maxfev: int) returns (g: FcnDer, x0: Vec, l: Limits, h: History)
    requires mach.Valid() && xtol >= 0.0 && maxfev > 4
    ensures g.Valid() && Steady(g.fcn) && |x0| == 3 && l.xtol == xtol && l.maxfev == maxfev
    ensures Trace(Hybrj.ProblemOf(mach, g, x0, ONES, l), h) && h != []
    ensures Ruled(Hybrj.ProblemOf(mach, g, x0, ONES, l), h) == Undefined && Last(h).t.pnorm == 0.0
  {
    hide DoglegStep, Inputs, Cancels, Linear, LinearColumns, Trace, Ruled, StepOk, Pieces, PieceColumns;
    var w := WalkFor(mach);
    PieceValues(w);
    g := FcnDer(PiecesFcn(w), y => if |y| == 3 then PieceColumns(w, y) else [], (k, y) => 0);
    x0, l := w.Start(), Limits(xtol, maxfev, 2, 1.0);
    var p := Hybrj.ProblemOf(mach, g, x0, ONES, l);
    assert Walks(p, w);
    h := DividesByZero(p, w);
  }

  // ---- the same with differences ----

  /** For a machine precision of at most 1 the bound is wide. */
  lemma WideBound(mach: Machine, x: Example, delta: real)
    requires mach.Valid() && x.Ok() && x.e == mach.epsmch <= 1.0 && Inputs(x.R(), ONES, x.B(), delta)
    requires Cancels(mach, x.R(), ONES, x.B(), delta, x.Gn())
    ensures delta > 9.0
  {
    var w := [2.0 / 3.0, 1.0 / 3.0, 2.0 / 3.0];
    ExampleGradient(mach, x);
    CauchyWithin(mach, x.R(), x.B(), delta, x.Gn(), w, 3.0);
    hide Example.R, Example.B, Inputs, Cancels, Mul;
    ShortImage(mach, x, w, CauchyStep(mach, x.R(), w, 3.0));
  }

  lemma CauchyWithin(mach: Machine, a: Mat, b: Vec, delta: real, gn: Vec, w: Vec, g: real)
    requires mach.Valid() && Inputs(a, ONES, b, delta) && |gn| == |b| == 3 && Cancels(mach, a, ONES, b, delta, gn)
    requires g == GradientNorm(mach, a, ONES, b) != 0.0 && w == UnitDirection(a, ONES, b, g)
    ensures mach.Norm(Mul(a, w)) > 0.0 && 0.0 < CauchyStep(mach, a, w, g) < delta
  {
    hide Balanced, UnitDirection, Mul, ScaledGradient, CauchyStep, ScaledNorm, CrossValue;
    DivisorsPositive(mach, a, ONES, b, delta, g, w);
  }

  lemma ShortImage(mach: Machine, x: Example, w: Vec, sg: real)
    requires mach.Valid() && x.Ok() && x.e <= 1.0 && w == [2.0 / 3.0, 1.0 / 3.0, 2.0 / 3.0]
    requires mach.Norm(Mul(x.R(), w)) > 0.0 && sg == CauchyStep(mach, x.R(), w, 3.0) > 0.0
    ensures sg >= 9.0
  {
    hide Mul, DotR;
    var z := Mul(x.R(), w);
    var n, h := mach.Norm(z), Dot(z, z);
    Dot3(x.R()[0], w);
    Dot3(x.R()[1], w);
    Dot3(x.R()[2], w);
    Dot3(z, z);
    SmallImage(x, z[0], z[1], z[2], h);
    TwiceBack(3.0, n, sg, h);
    if sg < 9.0 {
      PositiveProduct(9.0 - sg, n * n, (9.0 - sg) * (n * n));
    }
  }

  lemma TwiceBack(g: real, n: real, sg: real, h: real)
    requires n > 0.0 && h == n * n && sg == g / n / n
    ensures sg * h == g && n * n > 0.0
  {
    PositiveProduct(n, n, h);
    var q := g / n;
    assert q * n == g && sg * n == q;
    assert sg * (n * n) == (sg * n) * n;
  }

  lemma SmallImage(x: Example, z0: real, z1: real, z2: real, h: real)
    requires x.Ok() && x.e <= 1.0
    requires 3.0 * z0 == -x.i && 3.0 * z1 == 2.0 * x.v && 3.0 * z2 == -x.i && h == z0 * z0 + z1 * z1 + z2 * z2
    ensures h <= 1.0 / 3.0
  {
    SmallParts(x.e, x.beta, x.k, x.i, x.beta * x.i);
    SmallSquare(z0);
    SmallSquare(z1);
    SmallSquare(z2);
  }

  lemma SmallParts(e: real, beta: real, k: real, i: real, p: real)
    requires 0.0 < e <= 1.0 && beta > 0.0 && beta * e == 18.0 && 9.0 * k == 2.0 + beta * beta && k * i == 1.0 && i > 0.0
    requires p == beta * i
    ensures i <= 1.0 && 0.0 <= p <= 2.0 * e
  {
    if beta < 18.0 {
      NonnegProduct(1.0 - e, beta, (1.0 - e) * beta);
    }
    SquareOrder(18.0, beta, 324.0, beta * beta);
    if i > 1.0 {
      PositiveProduct(i - 1.0, k, (i - 1.0) * k);
    }
    NonnegProduct(beta, i, p);
    // beta p < 9 and 18 = beta e
    assert (9.0 * k) * i == 9.0;
    assert beta * p == (beta * beta) * i;
    assert (beta * beta) * i == (9.0 * k) * i - 2.0 * i;
    if p > 2.0 * e {
      PositiveProduct(p - 2.0 * e, beta, (p - 2.0 * e) * beta);
    }
  }

  lemma SmallSquare(z: real)
    requires -1.0 / 3.0 <= z <= 1.0 / 3.0
    ensures z * z <= 1.0 / 9.0
  {
    SquareAbs(z);
    SquareOrder(Abs(z), 1.0 / 3.0, z * z, 1.0 / 9.0);
  }

  /** The root of a number up to 1. */
  lemma SmallEps(mach: Machine, epsfcn: real)
    requires mach.Valid() && mach.epsmch <= 1.0 && epsfcn <= 1.0
    ensures 0.0 < Eps(mach, epsfcn) <= 1.0
  {
    var e := Max(epsfcn, mach.epsmch);
    SquareOrder(mach.sqrt(e), 1.0, e, 1.0);
  }

  lemma StartColumns(mach: Machine, w: Walk, epsfcn: real, e: real)
    requires mach.Valid() && w.Ok() && e == Eps(mach, epsfcn)
    ensures BandJacobian(mach, PiecesFcn(w), w.Start(), 2, 2, epsfcn) == w.Columns()
  {
    hide Pieces, Increments, Eps, DenseColumn;
    StartIncrements(w, e);
    var cols := BandJacobian(mach, PiecesFcn(w), w.Start(), 2, 2, epsfcn);
    forall j | 0 <= j < 3
      ensures cols[j] == w.Columns()[j]
    {
      StartColumn(w, e, j);
    }
  }

  lemma StartIncrements(w: Walk, e: real)
    requires w.Ok() && e > 0.0
    ensures Increments(e, w.Start()) == [e, e, e * w.t] && e * w.t > 0.0
  {
    hide Increment;
    PositiveProduct(e, w.t, e * w.t);
    IncrementAt(e, w.t, Abs(w.t), e * w.t);
    IncrementAtZero(e);
  }

  lemma IncrementAt(e: real, t: real, a: real, h: real)
    requires e > 0.0 && t > 0.0 && a == Abs(t) && h == e * t > 0.0
    ensures Increment(e, t) == h
  {
    assert e * (a - t) == 0.0;
    var p := e * a;
    assert p == h;
  }

  lemma IncrementAtZero(e: real)
    requires e > 0.0
    ensures Increment(e, 0.0) == e
  {
  }

  lemma StartColumn(w: Walk, e: real, j: nat)
    requires w.Ok() && e > 0.0 && j < 3
    ensures Steps(Increments(e, w.Start()), 3)
    ensures DenseColumn(PiecesFcn(w), w.Start(), PiecesFcn(w).f(w.Start()), Increments(e, w.Start()), j)
            == w.Columns()[j]
  {
    hide Pieces, Increments, Quotients;
    var y, h := w.Start(), e * w.t;
    StartIncrements(w, e);
    StartQuotients(w, e, h, -(25.0 / 24.0 * w.i));
    assert y[0 := e] == [e, 0.0, w.t] && y[1 := e] == [0.0, e, w.t] && y[2 := w.t + h] == [0.0, 0.0, w.t + h];
  }

  lemma StartQuotients(w: Walk, e: real, h: real, k: real)
    requires w.Ok() && e > 0.0 && h > 0.0 && k == -(25.0 / 24.0 * w.i)
    ensures Quotients(Pieces(w, [e, 0.0, w.t]), Pieces(w, w.Start()), e) == w.Columns()[0]
    ensures Quotients(Pieces(w, [0.0, e, w.t]), Pieces(w, w.Start()), e) == w.Columns()[1]
    ensures Quotients(Pieces(w, [0.0, 0.0, w.t + h]), Pieces(w, w.Start()), h) == w.Columns()[2]
  {
    QuotientColumn(Pieces(w, [e, 0.0, w.t]), Pieces(w, w.Start()), e, w.Columns()[0]);
    QuotientColumn(Pieces(w, [0.0, e, w.t]), Pieces(w, w.Start()), e, w.Columns()[1]);
    SlopeOver(k, w.t, h);
    QuotientColumn(Pieces(w, [0.0, 0.0, w.t + h]), Pieces(w, w.Start()), h, w.Columns()[2]);
  }

  lemma SlopeOver(k: real, t: real, h: real)
    ensures k * (t + h) - k * t == k * h
  {
  }

  /** hybrd divides by zero: its differences are the Jacobian of the piece they are taken in. */
  lemma HybrdDividesByZero(mach: Machine, xtol: real, maxfev: int, epsfcn: real)
    returns (fcn: Fcn, x0: Vec, l: Limits, h: History)
    requires mach.Valid() && xtol >= 0.0 && maxfev > 10 && mach.epsmch <= 1.0 && epsfcn <= 1.0
    ensures Steady(fcn) && |x0| == 3 && l.xtol == xtol && l.maxfev == maxfev
    ensures Trace(Hybrd.ProblemOf(mach, fcn, 2, 2, epsfcn, x0, ONES, l), h) && h != []
    ensures Ruled(Hybrd.ProblemOf(mach, fcn, 2, 2, epsfcn, x0, ONES, l), h) == Undefined && Last(h).t.pnorm == 0.0
  {
    hide DoglegStep, Inputs, Cancels, Linear, LinearColumns, Trace, Ruled, StepOk, PieceColumns, BandJacobian, Eps;
    var w := WalkFor(mach);
    WideBound(mach, w.x, 0.25 * w.t);
    SmallEps(mach, epsfcn);
    PieceValues(w);
    fcn := PiecesFcn(w);
    x0, l := w.Start(), Limits(xtol, maxfev, 2, 1.0);
    OriginColumns(mach, fcn, w.x, epsfcn, Eps(mach, epsfcn));
    StartColumns(mach, w, epsfcn, Eps(mach, epsfcn));
    hide Pieces;
    var p := Hybrd.ProblemOf(mach, fcn, 2, 2, epsfcn, x0, ONES, l);
    assert Walks(p, w);
    h := DividesByZero(p, w);
  }
}
