/** When dogleg returns the zero step for a nonzero residual: exactly when the two parts of its last leg cancel, which
    takes a singular R, and which does happen. */
module DoglegZero {
  import opened Reals
  import opened Vectors
  import opened Machines
  import opened DoglegPath
  import opened Dogleg
  import opened DoglegTheorems

  /** delta^2 (sg + q)^2 = 2 sg^2 q (q + c): the lengths at which the two parts of the last leg are equal. */
  predicate Balanced(sg: real, q: real, c: real, delta: real) {
    (delta * (sg + q)) * (delta * (sg + q)) == 2.0 * ((sg * sg) * (q * (q + c)))
  }

  /** On the last leg the Gauss-Newton point lies opposite the gradient, at the distance q at which the combination is
      zero; sg is the length of the Cauchy step, and c = |b|^2 / g for the length g of the scaled gradient. */
  ghost predicate Cancels(mach: Machine, a: Mat, d: Vec, b: Vec, delta: real, gn: Vec)
    requires mach.Valid() && Inputs(a, d, b, delta) && |gn| == |b|
  {
    && LastLeg(mach, a, d, b, delta, gn)
    && var g := GradientNorm(mach, a, d, b);
       var w := UnitDirection(a, d, b, g);
       var q := ScaledNorm(mach, d, gn);
       gn == Scale(-q, w) && Balanced(CauchyStep(mach, a, w, g), q, CrossValue(mach.Norm(b), g), delta)
  }

  // ---- the combination vanishes ----

  /** A point between 0 and 1 where a parabola that rises from below zero to above zero meets it: there is one. */
  lemma OneRoot(k: real, l: real, m: real, a: real, b: real)
    requires 0.0 < a < 1.0 && 0.0 < b < 1.0 && k * (a * a) + l * a + m == 0.0 && k * (b * b) + l * b + m == 0.0
    requires m < 0.0 && k + l + m > 0.0
    ensures a == b
  {
    if a != b {
      var p, r := a * b, (1.0 - a) * (1.0 - b);
      PositiveProduct(a, b, p);
      PositiveProduct(1.0 - a, 1.0 - b, r);
      TwoRoots(k, l, m, a, b, p, r);
      SameSign(k, p, r, m, k + l + m);
    }
  }

  /** A parabola with two roots, at 0 and at 1. */
  lemma TwoRoots(k: real, l: real, m: real, a: real, b: real, p: real, r: real)
    requires a != b && k * (a * a) + l * a + m == 0.0 && k * (b * b) + l * b + m == 0.0
    requires p == a * b && r == (1.0 - a) * (1.0 - b)
    ensures m == k * p && k + l + m == k * r
  {
    var z := k * (a + b) + l;
    assert (a - b) * z == 0.0;
    ZeroProduct(a - b, z);
    assert z * a == k * (a * a) + k * p + l * a by {
      assert k * (a + b) * a == k * (a * a) + k * (a * b);
    }
    assert k * r == k - k * (a + b) + k * p by {
      assert r == 1.0 - (a + b) + p;
    }
  }

  lemma SameSign(k: real, p: real, r: real, u: real, v: real)
    requires p > 0.0 && r > 0.0 && u == k * p && v == k * r
    ensures u < 0.0 ==> v < 0.0
  {
    if k >= 0.0 {
      NonnegProduct(k, p, u);
    } else {
      PositiveProduct(-k, r, -v);
    }
  }

  /** The weights of the last leg are as 1 to q exactly in the balance. */
  lemma BalanceAt(sg: real, q: real, c: real, delta: real, alpha: real)
    requires 0.0 < sg < delta < q && 0.0 < alpha < 1.0 && OnBoundary(alpha, sg, c, q, delta)
    ensures LegWeight(sg, alpha) == q * alpha <==> Balanced(sg, q, c, delta)
  {
    var at := sg / (sg + q);
    assert at * (sg + q) == sg;
    EqualWeights(sg, q, at);
    if LegWeight(sg, alpha) == q * alpha {
      WeightShare(sg, q, alpha);
      BalanceOf(sg, q, c, delta, alpha, q * (q + c));
    }
    if Balanced(sg, q, c, delta) {
      BoundaryOf(sg, q, c, delta, at, q * (q + c));
      SameAlpha(sg, q, c, delta, alpha, at);
    }
  }

  lemma EqualWeights(sg: real, q: real, at: real)
    requires 0.0 < sg < q && at * (sg + q) == sg
    ensures 0.0 < at < 1.0 && LegWeight(sg, at) == q * at
  {
    if at <= 0.0 {
      NonnegProduct(-at, sg + q, -at * (sg + q));
    }
    if at >= 1.0 {
      NonnegProduct(at - 1.0, sg + q, (at - 1.0) * (sg + q));
    }
  }

  lemma WeightShare(sg: real, q: real, alpha: real)
    requires LegWeight(sg, alpha) == q * alpha
    ensures alpha * (sg + q) == sg
  {
  }

  /** The square of the combination when the weights are as 1 to q. */
  lemma EqualSquare(q: real, c: real, alpha: real, x: real, t: real)
    requires t == q * alpha && x == q * (q + c)
    ensures Quad(t, alpha, 1.0, c, q * q) == 2.0 * ((alpha * alpha) * x)
  {
    assert t * t == (alpha * alpha) * (q * q);
    assert t * alpha * c == (alpha * alpha) * (q * c);
    assert (alpha * alpha) * x == (alpha * alpha) * (q * q) + (alpha * alpha) * (q * c);
  }

  lemma BalanceOf(sg: real, q: real, c: real, delta: real, alpha: real, x: real)
    requires LegWeight(sg, alpha) == q * alpha && alpha * (sg + q) == sg && x == q * (q + c)
    requires OnBoundary(alpha, sg, c, q, delta)
    ensures Balanced(sg, q, c, delta)
  {
    hide Quad, LegWeight;
    EqualSquare(q, c, alpha, x, LegWeight(sg, alpha));
    BalanceProducts(sg, sg + q, delta, alpha, x);
  }

  lemma BalanceProducts(sg: real, s: real, delta: real, alpha: real, x: real)
    requires alpha * s == sg && 2.0 * ((alpha * alpha) * x) == delta * delta
    ensures (delta * s) * (delta * s) == 2.0 * ((sg * sg) * x)
  {
    assert (delta * s) * (delta * s) == (delta * delta) * (s * s);
    assert (sg * sg) * x == ((alpha * alpha) * x) * (s * s) by {
      assert sg * sg == (alpha * alpha) * (s * s);
    }
  }

  lemma BoundaryOf(sg: real, q: real, c: real, delta: real, at: real, x: real)
    requires 0.0 < sg < q && at * (sg + q) == sg && x == q * (q + c) && LegWeight(sg, at) == q * at
    requires Balanced(sg, q, c, delta)
    ensures OnBoundary(at, sg, c, q, delta)
  {
    hide Quad, LegWeight;
    EqualSquare(q, c, at, x, LegWeight(sg, at));
    BoundaryProducts(sg, sg + q, delta, at, x);
  }

  lemma BoundaryProducts(sg: real, s: real, delta: real, at: real, x: real)
    requires s > 0.0 && at * s == sg && (delta * s) * (delta * s) == 2.0 * ((sg * sg) * x)
    ensures 2.0 * ((at * at) * x) == delta * delta
  {
    var t := 2.0 * ((at * at) * x) - delta * delta;
    assert t * (s * s) == 0.0 by {
      assert (delta * s) * (delta * s) == (delta * delta) * (s * s);
      assert (sg * sg) * x == ((at * at) * x) * (s * s) by {
        assert sg * sg == (at * at) * (s * s);
      }
    }
    PositiveProduct(s, s, s * s);
    ZeroProduct(t, s * s);
  }

  /** Both weights are roots of the same parabola. */
  lemma SameAlpha(sg: real, q: real, c: real, delta: real, alpha: real, at: real)
    requires 0.0 < sg < delta < q && 0.0 < alpha < 1.0 && 0.0 < at < 1.0
    requires OnBoundary(alpha, sg, c, q, delta) && OnBoundary(at, sg, c, q, delta)
    ensures alpha == at
  {
    hide Quad;
    var l, k := 2.0 * (sg * (c - sg)), sg * sg - 2.0 * (sg * c) + q * q;
    SecondLegNorm(sg, c, q * q, alpha, l, k);
    SecondLegNorm(sg, c, q * q, at, l, k);
    SquareOrder(sg, delta, sg * sg, delta * delta);
    SquareOrder(delta, q, delta * delta, q * q);
    EndsOfLeg(sg, c, q * q, delta * delta, l, k);
    OneRoot(k, l, sg * sg - delta * delta, alpha, at);
  }

  lemma EndsOfLeg(sg: real, c: real, q2: real, d2: real, l: real, k: real)
    requires l == 2.0 * (sg * (c - sg)) && k == sg * sg - 2.0 * (sg * c) + q2
    ensures k + l + (sg * sg - d2) == q2 - d2
  {
    assert sg * (c - sg) == sg * c - sg * sg;
  }

  /** gn opposite the direction w of unit length is at the distance |D gn| from the origin. */
  lemma OppositeLength(mach: Machine, d: Vec, w: Vec, gn: Vec, t: real, q: real)
    requires mach.Valid() && |d| == |w| == |gn| && ScaledSquare(d, w) == 1.0 && t >= 0.0 && q == ScaledNorm(mach, d, gn)
    ensures gn == Scale(-t, w) ==> t == q
  {
    if gn == Scale(-t, w) {
      ScaledTimes(d, w, gn, -t);
      DotScale(-t, Times(d, w), Times(d, gn));
      DotCommutes(Times(d, gn), Times(d, w));
      DotScale(-t, Times(d, w), Times(d, w));
      RootUnique(q, t);
    }
  }

  lemma ScaledTimes(d: Vec, w: Vec, y: Vec, t: real)
    requires |d| == |w| && y == Scale(t, w)
    ensures Times(d, y) == Scale(t, Times(d, w))
  {
    forall i | 0 <= i < |d|
      ensures Times(d, y)[i] == Scale(t, Times(d, w))[i]
    {
      assert d[i] * (t * w[i]) == t * (d[i] * w[i]);
    }
  }

  /** For a nonzero residual the step is zero exactly when its last leg cancels; off the last leg |D x| is the smaller
      of the bound and |D gn|, and positive. */
  lemma StepVanishes(mach: Machine, a: Mat, d: Vec, b: Vec, delta: real, gn: Vec, x: Vec)
    requires mach.Valid() && Inputs(a, d, b, delta) && DoglegStep(mach, a, d, b, delta, gn, x) && b != Zero(|b|)
    ensures ScaledNorm(mach, d, x) == 0.0 <==> Cancels(mach, a, d, b, delta, gn)
    ensures x == Zero(|b|) <==> Cancels(mach, a, d, b, delta, gn)
    ensures !LastLeg(mach, a, d, b, delta, gn) ==> ScaledNorm(mach, d, x) == Min(delta, ScaledNorm(mach, d, gn)) > 0.0
  {
    hide LastLeg, Cancels, Pivoted, Mul, Blend, Alpha, UnitDirection, ScaledGradient;
    ScaledZero(mach, d, x);
    if LastLeg(mach, a, d, b, delta, gn) {
      LastLegVanishes(mach, a, d, b, delta, gn, x);
    } else {
      ShorterLegs(mach, a, d, b, delta, gn, x);
    }
  }

  lemma LastLegVanishes(mach: Machine, a: Mat, d: Vec, b: Vec, delta: real, gn: Vec, x: Vec)
    requires mach.Valid() && Inputs(a, d, b, delta) && DoglegStep(mach, a, d, b, delta, gn, x)
    requires LastLeg(mach, a, d, b, delta, gn)
    ensures x == Zero(|b|) <==> Cancels(mach, a, d, b, delta, gn)
  {
    hide OnBoundary, Blend, Scale, Quad, ScaledGradient, UnitDirection;
    var g := GradientNorm(mach, a, d, b);
    var w := UnitDirection(a, d, b, g);
    DivisorsPositive(mach, a, d, b, delta, g, w);
    var sg := CauchyStep(mach, a, w, g);
    var alpha := Alpha(mach, mach.Norm(b), g, ScaledNorm(mach, d, gn), sg, delta);
    WeightCases(alpha, sg, delta);
    BlendZero(LegWeight(sg, alpha), w, alpha, gn, x);
    AtBalance(mach, d, w, gn, sg, CrossValue(mach.Norm(b), g), delta, alpha);
  }

  lemma AtBalance(mach: Machine, d: Vec, w: Vec, gn: Vec, sg: real, c: real, delta: real, alpha: real)
    requires mach.Valid() && |d| == |w| == |gn| && ScaledSquare(d, w) == 1.0
    requires 0.0 < sg < delta < ScaledNorm(mach, d, gn) && 0.0 < alpha < 1.0
    requires OnBoundary(alpha, sg, c, ScaledNorm(mach, d, gn), delta)
    ensures var q := ScaledNorm(mach, d, gn);
      gn == Scale(-(LegWeight(sg, alpha) / alpha), w) <==> gn == Scale(-q, w) && Balanced(sg, q, c, delta)
  {
    hide OnBoundary, Balanced, ScaledNorm, ScaledSquare;
    var q, t := ScaledNorm(mach, d, gn), LegWeight(sg, alpha) / alpha;
    PositiveProduct(1.0 - alpha, sg, LegWeight(sg, alpha));
    DivisionSign(LegWeight(sg, alpha), alpha, t);
    OppositeLength(mach, d, w, gn, t, q);
    BalanceAt(sg, q, c, delta, alpha);
    Quotient(LegWeight(sg, alpha), alpha, q);
  }

  lemma ShorterLegs(mach: Machine, a: Mat, d: Vec, b: Vec, delta: real, gn: Vec, x: Vec)
    requires mach.Valid() && Inputs(a, d, b, delta) && DoglegStep(mach, a, d, b, delta, gn, x) && b != Zero(|b|)
    requires !LastLeg(mach, a, d, b, delta, gn)
    ensures ScaledNorm(mach, d, x) == Min(delta, ScaledNorm(mach, d, gn)) > 0.0
    ensures x != Zero(|b|) && !Cancels(mach, a, d, b, delta, gn)
  {
    hide LastLeg, Pivoted, Mul, Blend, Alpha, UnitDirection, ScaledGradient;
    GaussNewtonNonzero(mach, a, d, b, gn);
    StepLength(mach, a, d, b, delta, gn, x);
    ScaledZero(mach, d, x);
  }

  lemma ScaledZero(mach: Machine, d: Vec, x: Vec)
    requires mach.Valid() && |d| == |x| && forall i :: 0 <= i < |d| ==> d[i] != 0.0
    ensures ScaledNorm(mach, d, x) == 0.0 <==> x == Zero(|x|)
  {
    var dx := Times(d, x);
    NormZero(mach, dx);
    if dx == Zero(|x|) {
      forall i | 0 <= i < |x|
        ensures x[i] == 0.0
      {
        assert dx[i] == 0.0;
        ZeroProduct(d[i], x[i]);
      }
    } else {
      var i :| 0 <= i < |x| && dx[i] != 0.0;
      assert x[i] != 0.0;
    }
  }

  lemma GaussNewtonNonzero(mach: Machine, a: Mat, d: Vec, b: Vec, gn: Vec)
    requires mach.Valid() && IsMat(a, |b|, |b|) && |d| == |b| == |gn| && (forall i :: 0 <= i < |d| ==> d[i] != 0.0)
    requires Mul(Pivoted(mach, a), gn) == b && b != Zero(|b|)
    ensures ScaledNorm(mach, d, gn) > 0.0
  {
    ScaledZero(mach, d, gn);
    if gn == Zero(|b|) {
      var p := Pivoted(mach, a);
      forall i | 0 <= i < |b|
        ensures b[i] == 0.0
      {
        DotRZero(p[i], gn, 0, |b|);
        assert Mul(p, gn)[i] == 0.0;
      }
    }
  }

  /** t w + alpha gn is zero exactly when gn is -(t / alpha) w. */
  lemma BlendZero(t: real, w: Vec, alpha: real, gn: Vec, x: Vec)
    requires |w| == |gn| && alpha != 0.0 && x == Blend(t, w, alpha, gn)
    ensures x == Zero(|w|) <==> gn == Scale(-(t / alpha), w)
  {
    forall i | 0 <= i < |w|
      ensures x[i] == 0.0 <==> gn[i] == Scale(-(t / alpha), w)[i]
    {
      ComponentZero(t, w[i], alpha, gn[i]);
    }
    if gn == Scale(-(t / alpha), w) {
      assert x == Zero(|w|);
    } else if x == Zero(|w|) {
      forall i | 0 <= i < |w|
        ensures gn[i] == Scale(-(t / alpha), w)[i]
      {
        assert x[i] == 0.0;
      }
    }
  }

  lemma ComponentZero(t: real, w: real, alpha: real, y: real)
    requires alpha != 0.0
    ensures t * w + alpha * y == 0.0 <==> y == -(t / alpha) * w
  {
    var q := t / alpha;
    assert q * alpha == t;
    var k := q * w;
    assert t * w == alpha * k by {
      assert (q * alpha) * w == alpha * (q * w);
    }
    if alpha * (k + y) == 0.0 {
      ZeroProduct(alpha, k + y);
    }
  }

  // ---- the cancellation does happen ----

  /** The numbers behind the example: e is the machine precision, and everything else follows from it. */
  datatype Example = Example(e: real, beta: real, k: real, i: real, u: real, v: real, w: real) {
    predicate Ok() {
      && e > 0.0 && beta > 0.0 && k > 0.0 && i > 0.0 && beta * e == 18.0 && 9.0 * k == 2.0 + beta * beta && k * i == 1.0
      && 2.0 * u == -(i + 5.0) && 2.0 * v == beta * i - e && 2.0 * w == -i
    }

    /** Upper triangular, with a zero in the middle of the diagonal. */
    function R(): (a: Mat) {
      [[2.0, 1.0, u], [0.0, 0.0, v], [0.0, 0.0, w]]
    }

    function B(): (b: Vec) {
      [1.0, -beta, 1.0]
    }

    /** The solution of the pivoted system. */
    function Gn(): (y: Vec) {
      [-2.0 * k, -k, -2.0 * k]
    }
  }

  const ONES: Vec := [1.0, 1.0, 1.0]

  lemma ExampleExists(e: real) returns (x: Example)
    requires e > 0.0
    ensures x.Ok() && x.e == e
  {
    var beta := 18.0 / e;
    DivisionSign(18.0, e, beta);
    PositiveProduct(beta, beta, beta * beta);
    var k := (2.0 + beta * beta) / 9.0;
    var i := 1.0 / k;
    DivisionSign(1.0, k, i);
    x := Example(e, beta, k, i, -(i + 5.0) / 2.0, (beta * i - e) / 2.0, -i / 2.0);
  }

  lemma ExampleInputs(x: Example, delta: real)
    requires x.Ok() && delta > 0.0
    ensures Inputs(x.R(), ONES, x.B(), delta) && x.B() != Zero(3)
  {
    assert x.B()[0] == 1.0;
  }

  lemma MiddlePivot(mach: Machine, a: Mat)
    requires mach.Valid() && IsMat(a, 3, 3) && a[0][1] == 1.0 && a[1][1] == 0.0
    ensures Pivot(mach, a, 1) == mach.epsmch
  {
    assert ColumnMax(a, 1, 0) == 0.0;
    assert ColumnMax(a, 1, 1) == 1.0;
    assert ColumnMax(a, 1, 2) == 1.0;
  }

  lemma ExamplePivots(mach: Machine, x: Example)
    requires mach.Valid() && x.Ok() && x.e == mach.epsmch
    ensures Pivoted(mach, x.R()) == [[2.0, 1.0, x.u], [0.0, x.e, x.v], [0.0, 0.0, x.w]]
  {
    var a := x.R();
    MiddlePivot(mach, a);
    hide Pivot, ColumnMax, Pivoted;
    var p := Pivoted(mach, a);
    assert p[0] == [2.0, 1.0, x.u];
    assert p[1] == [0.0, x.e, x.v];
    assert p[2] == [0.0, 0.0, x.w];
  }

  lemma ExampleSolved(mach: Machine, x: Example)
    requires mach.Valid() && x.Ok() && x.e == mach.epsmch
    ensures Mul(Pivoted(mach, x.R()), x.Gn()) == x.B()
  {
    ExamplePivots(mach, x);
    var p, y := Pivoted(mach, x.R()), x.Gn();
    Dot3(p[0], y);
    Dot3(p[1], y);
    Dot3(p[2], y);
    SolvedRows(x);
    assert Mul(p, y)[0] == 1.0 && Mul(p, y)[1] == -x.beta && Mul(p, y)[2] == 1.0;
  }

  lemma SolvedRows(x: Example)
    requires x.Ok()
    ensures 2.0 * (-2.0 * x.k) + 1.0 * -x.k + x.u * (-2.0 * x.k) == 1.0
    ensures x.e * -x.k + x.v * (-2.0 * x.k) == -x.beta
    ensures x.w * (-2.0 * x.k) == 1.0
  {
    assert x.u * (-2.0 * x.k) == -((2.0 * x.u) * x.k) == (x.i + 5.0) * x.k == x.k * x.i + 5.0 * x.k;
    assert x.v * (-2.0 * x.k) == -((2.0 * x.v) * x.k) == -(x.beta * (x.k * x.i)) + x.e * x.k;
    assert x.w * (-2.0 * x.k) == -((2.0 * x.w) * x.k) == x.k * x.i;
  }

  lemma ExampleGradient(mach: Machine, x: Example)
    requires mach.Valid() && x.Ok()
    ensures ScaledGradient(x.R(), ONES, x.B()) == [2.0, 1.0, 2.0] && GradientNorm(mach, x.R(), ONES, x.B()) == 3.0
    ensures UnitDirection(x.R(), ONES, x.B(), 3.0) == [2.0 / 3.0, 1.0 / 3.0, 2.0 / 3.0]
  {
    hide Comb;
    var a, b := x.R(), x.B();
    CombAt(b, a, 3, 0);
    CombAt(b, a, 3, 1);
    CombAt(b, a, 3, 2);
    Dot3(b, Col(a, 0));
    Dot3(b, Col(a, 1));
    Dot3(b, Col(a, 2));
    LastGradient(x);
    var v := ScaledGradient(a, ONES, b);
    assert v[0] == 2.0 && v[1] == 1.0 && v[2] == 2.0;
    assert v == [2.0, 1.0, 2.0];
    Dot3(v, v);
    RootUnique(mach.Norm(v), 3.0);
  }

  lemma LastGradient(x: Example)
    requires x.Ok()
    ensures 1.0 * x.u + -x.beta * x.v + 1.0 * x.w == 2.0
  {
    assert -x.beta * (2.0 * x.v) == -(x.beta * x.beta) * x.i + x.beta * x.e;
    assert (9.0 * x.k) * x.i == 9.0;
    assert (2.0 + x.beta * x.beta) * x.i == 9.0;
  }

  /** 0 < sg < q, which puts the harmonic mean of the two between them. */
  lemma ExampleCauchy(mach: Machine, x: Example, y: Vec, h: real, p: real)
    requires mach.Valid() && x.Ok() && y == [2.0 / 3.0, 1.0 / 3.0, 2.0 / 3.0] && h == Dot(Mul(x.R(), y), Mul(x.R(), y))
    requires p == h * x.k
    ensures p > 1.0
  {
    var a := x.R();
    Dot3(a[0], y);
    Dot3(a[1], y);
    Dot3(a[2], y);
    var z := Mul(a, y);
    Dot3(z, z);
    CauchyImage(x, z[0], z[1], z[2], h);
  }

  lemma CauchyImage(x: Example, z0: real, z1: real, z2: real, h: real)
    requires x.Ok() && 3.0 * z0 == -x.i && 3.0 * z1 == 2.0 * x.v && 3.0 * z2 == -x.i && h == z0 * z0 + z1 * z1 + z2 * z2
    ensures h * x.k > 1.0
  {
    var t := x.beta * x.i - x.e;
    var s := x.beta - x.e * x.k;
    assert 9.0 * h == 2.0 * (x.i * x.i) + t * t by {
      assert 9.0 * (z0 * z0) == (3.0 * z0) * (3.0 * z0);
      assert 9.0 * (z1 * z1) == (3.0 * z1) * (3.0 * z1);
      assert 9.0 * (z2 * z2) == (3.0 * z2) * (3.0 * z2);
    }
    assert t * x.k == s by {
      assert t * x.k == x.beta * (x.i * x.k) - x.e * x.k;
    }
    CancelledOnce(x.i, x.k, t, s, h);
    LongerThanBeta(x, s);
    var m := 2.0 + s * s;
    assert (9.0 * x.k) * x.i == 9.0;
    AboveNine(m, 9.0 * x.k, x.i, h * x.k);
  }

  lemma AboveNine(m: real, k: real, i: real, p: real)
    requires m > k && i > 0.0 && k * i == 9.0 && 9.0 * p == i * m
    ensures p > 1.0
  {
    PositiveProduct(m - k, i, (m - k) * i);
  }

  lemma CancelledOnce(i: real, k: real, t: real, s: real, h: real)
    requires i * k == 1.0 && t * k == s && 9.0 * h == 2.0 * (i * i) + t * t
    ensures 9.0 * (h * k) == i * (2.0 + s * s)
  {
    assert (i * i) * k == i * (i * k);
    assert (t * t) * k == t * s;
    assert t == (i * k) * t == i * s by {
      assert (i * k) * t == i * (t * k);
    }
  }

  lemma LongerThanBeta(x: Example, s: real)
    requires x.Ok() && s == x.beta - x.e * x.k
    ensures 2.0 + s * s > 9.0 * x.k
  {
    assert x.e * (9.0 * x.k) == 2.0 * x.e + (x.beta * x.e) * x.beta;
    SquareOrder(x.beta, -s, x.beta * x.beta, s * s);
  }

  /** The bound of the example: the harmonic mean of sg and q. */
  lemma HarmonicBetween(sg: real, q: real, delta: real)
    requires 0.0 < sg < q && delta == 2.0 * sg * q / (sg + q)
    ensures sg < delta < q && delta * (sg + q) == 2.0 * (sg * q)
  {
    var t := sg + q;
    assert delta * t == 2.0 * sg * q;
    PositiveProduct(sg, q - sg, sg * (q - sg));
    PositiveProduct(q, q - sg, q * (q - sg));
    ScaleOrder(t, sg, delta, t * sg, t * delta);
    ScaleOrder(t, delta, q, t * delta, t * q);
  }

  /** The weight on that bound, when the code takes the Gauss-Newton point to lie along the gradient, makes the parts
      equal. */
  lemma HarmonicWeight(sg: real, q: real, delta: real, alpha: real)
    requires 0.0 < sg < delta < q && delta * (sg + q) == 2.0 * (sg * q) && 0.0 < alpha < 1.0
    requires OnBoundary(alpha, sg, q, q, delta)
    ensures LegWeight(sg, alpha) / alpha == q
  {
    var l, m := LegWeight(sg, alpha), alpha * q;
    PositiveProduct(1.0 - alpha, sg, l);
    PositiveProduct(alpha, q, m);
    SumSquared(l, alpha, q, delta);
    RootUnique(l + m, delta);
    EqualParts(sg, q, delta, alpha, l, m);
    Quotient(l, alpha, q);
  }

  lemma SumSquared(l: real, alpha: real, q: real, delta: real)
    requires Quad(l, alpha, 1.0, q, q * q) == delta * delta
    ensures (l + alpha * q) * (l + alpha * q) == delta * delta
  {
    assert (l + alpha * q) * (l + alpha * q) == l * l + 2.0 * (l * alpha * q) + alpha * alpha * (q * q);
  }

  lemma EqualParts(sg: real, q: real, delta: real, alpha: real, l: real, m: real)
    requires 0.0 < sg < q && delta * (sg + q) == 2.0 * (sg * q) && l == (1.0 - alpha) * sg && m == alpha * q
    requires l + m == delta
    ensures l == m
  {
    var p, t := alpha * sg, sg + q;
    assert delta == sg - p + m;
    assert delta * t == sg * t - p * t + m * t;
    assert m * t - p * t == (alpha * t) * (q - sg);
    assert (alpha * t - sg) * (q - sg) == 0.0;
    ZeroProduct(alpha * t - sg, q - sg);
  }

  lemma ExampleLengths(mach: Machine, x: Example)
    requires mach.Valid() && x.Ok()
    ensures ScaledNorm(mach, ONES, x.Gn()) == 3.0 * x.k
    ensures mach.Norm(x.B()) > 0.0 && CrossValue(mach.Norm(x.B()), 3.0) == 3.0 * x.k
  {
    var y := Times(ONES, x.Gn());
    assert y == x.Gn();
    Dot3(y, y);
    RootUnique(mach.Norm(y), 3.0 * x.k);
    Dot3(x.B(), x.B());
    NormZero(mach, x.B());
    assert x.B()[0] == 1.0;
  }

  /** For every machine precision there are a singular triangle and a residual for which dogleg returns the zero
      step. */
  lemma DoglegCanVanish(mach: Machine) returns (x: Example, delta: real)
    requires mach.Valid()
    ensures x.Ok() && x.e == mach.epsmch && Inputs(x.R(), ONES, x.B(), delta) && x.B() != Zero(3)
    ensures DoglegStep(mach, x.R(), ONES, x.B(), delta, x.Gn(), Zero(3))
    ensures Cancels(mach, x.R(), ONES, x.B(), delta, x.Gn())
  {
    x := ExampleExists(mach.epsmch);
    var w := [2.0 / 3.0, 1.0 / 3.0, 2.0 / 3.0];
    var q := 3.0 * x.k;
    ExampleInputs(x, 1.0);
    ExampleGradient(mach, x);
    ExampleLengths(mach, x);
    var sg := ExampleSg(mach, x, w);
    delta := 2.0 * sg * q / (sg + q);
    HarmonicBetween(sg, q, delta);
    ExampleInputs(x, delta);
    ExampleSolved(mach, x);
    ExampleCancels(mach, x, w, sg, q, delta);
  }

  lemma ExampleSg(mach: Machine, x: Example, w: Vec) returns (sg: real)
    requires mach.Valid() && x.Ok() && w == [2.0 / 3.0, 1.0 / 3.0, 2.0 / 3.0]
    requires Inputs(x.R(), ONES, x.B(), 1.0) && GradientNorm(mach, x.R(), ONES, x.B()) == 3.0
    requires UnitDirection(x.R(), ONES, x.B(), 3.0) == w
    ensures mach.Norm(Mul(x.R(), w)) > 0.0 && sg == CauchyStep(mach, x.R(), w, 3.0) && 0.0 < sg < 3.0 * x.k
  {
    DivisorsPositive(mach, x.R(), ONES, x.B(), 1.0, 3.0, w);
    var h := Dot(Mul(x.R(), w), Mul(x.R(), w));
    var p := h * x.k;
    ExampleCauchy(mach, x, w, h, p);
    sg := CauchyStep(mach, x.R(), w, 3.0);
    CauchyBelow(sg, x.k, h, p);
  }

  lemma CauchyBelow(sg: real, k: real, h: real, p: real)
    requires sg > 0.0 && sg * h == 3.0 && p == h * k > 1.0
    ensures sg < 3.0 * k
  {
    PositiveProduct(sg, p - 1.0, sg * (p - 1.0));
    assert sg * (h * k) == (sg * h) * k;
  }

  lemma ExampleCancels(mach: Machine, x: Example, w: Vec, sg: real, q: real, delta: real)
    requires mach.Valid() && x.Ok() && w == [2.0 / 3.0, 1.0 / 3.0, 2.0 / 3.0] && q == 3.0 * x.k
    requires Inputs(x.R(), ONES, x.B(), delta) && GradientNorm(mach, x.R(), ONES, x.B()) == 3.0
    requires UnitDirection(x.R(), ONES, x.B(), 3.0) == w
    requires Mul(Pivoted(mach, x.R()), x.Gn()) == x.B() && ScaledNorm(mach, ONES, x.Gn()) == q
    requires mach.Norm(x.B()) > 0.0 && CrossValue(mach.Norm(x.B()), 3.0) == q
    requires mach.Norm(Mul(x.R(), w)) > 0.0 && sg == CauchyStep(mach, x.R(), w, 3.0) && 0.0 < sg < delta < q
    requires delta * (sg + q) == 2.0 * (sg * q)
    ensures DoglegStep(mach, x.R(), ONES, x.B(), delta, x.Gn(), Zero(3))
    ensures Cancels(mach, x.R(), ONES, x.B(), delta, x.Gn())
  {
    hide Mul, Pivoted, UnitDirection, ScaledGradient, CauchyStep, OnBoundary, CrossValue;
    var alpha := Alpha(mach, mach.Norm(x.B()), 3.0, q, sg, delta);
    HarmonicWeight(sg, q, delta, alpha);
    OppositeGradient(x, w, q);
    WeightCases(alpha, sg, delta);
    var y := Blend(LegWeight(sg, alpha), w, alpha, x.Gn());
    BlendZero(LegWeight(sg, alpha), w, alpha, x.Gn(), y);
    HarmonicBalance(sg, q, delta);
  }

  lemma HarmonicBalance(sg: real, q: real, delta: real)
    requires delta * (sg + q) == 2.0 * (sg * q)
    ensures Balanced(sg, q, q, delta)
  {
    assert (2.0 * (sg * q)) * (2.0 * (sg * q)) == 2.0 * ((sg * sg) * (q * (q + q))) by {
      assert (sg * q) * (sg * q) == (sg * sg) * (q * q);
      assert (sg * sg) * (q * (q + q)) == 2.0 * ((sg * sg) * (q * q));
    }
  }

  lemma OppositeGradient(x: Example, w: Vec, q: real)
    requires w == [2.0 / 3.0, 1.0 / 3.0, 2.0 / 3.0] && q == 3.0 * x.k
    ensures x.Gn() == Scale(-q, w)
  {
    var y := Scale(-q, w);
    assert y[0] == -2.0 * x.k && y[1] == -x.k && y[2] == -2.0 * x.k;
  }
}
