/** What the dogleg step achieves: its length, its optimality along the dogleg, and the decrease of the model. */
module DoglegTheorems {
  import opened Reals
  import opened Vectors
  import opened Machines
  import opened DoglegPath
  import opened Dogleg

  /** The Gauss-Newton point is rejected and the Cauchy point lies inside the region. */
  ghost predicate LastLeg(mach: Machine, a: Mat, d: Vec, b: Vec, delta: real, gn: Vec)
    requires mach.Valid() && Inputs(a, d, b, delta) && |gn| == |b|
  {
    && ScaledNorm(mach, d, gn) > delta
    && var g := mach.Norm(ScaledGradient(a, d, b));
       g != 0.0
       && var w := UnitDirection(a, d, b, g);
          mach.Norm(Mul(a, w)) > 0.0 && CauchyStep(mach, a, w, g) < delta
  }

  /** |D x| <= delta can fail only on the last leg with R singular, and there it holds exactly when
      <b, R gn> <= |b|^2; it is an equality exactly when <b, R gn> = |b|^2. */
  lemma StepLength(mach: Machine, a: Mat, d: Vec, b: Vec, delta: real, gn: Vec, x: Vec)
    requires mach.Valid() && Inputs(a, d, b, delta) && DoglegStep(mach, a, d, b, delta, gn, x)
    ensures ScaledNorm(mach, d, x) <= delta <==> (LastLeg(mach, a, d, b, delta, gn) ==> Dot(b, Mul(a, gn)) <= Dot(b, b))
    ensures ScaledNorm(mach, d, gn) > delta ==>
      (ScaledNorm(mach, d, x) == delta <==> (LastLeg(mach, a, d, b, delta, gn) ==> Dot(b, Mul(a, gn)) == Dot(b, b)))
  {
    var q := ScaledNorm(mach, d, gn);
    if q > delta {
      var g := mach.Norm(ScaledGradient(a, d, b));
      if g == 0.0 {
        ScaledBack(mach, d, ScaledGradient(a, d, b), gn, delta, q, x);
      } else {
        var w := UnitDirection(a, d, b, g);
        DivisorsPositive(mach, a, d, b, delta, g, w);
        var sg := CauchyStep(mach, a, w, g);
        WeightCases(0.0, sg, delta);
        if sg >= delta {
          GradientOnly(mach, a, d, b, w, g, delta, gn, x);
        } else {
          LastLegLength(mach, a, d, b, w, g, sg, delta, gn, x);
        }
      }
    }
  }

  lemma ScaledBack(mach: Machine, d: Vec, v: Vec, gn: Vec, delta: real, q: real, x: Vec)
    requires mach.Valid() && |d| == |gn| == |v| && q == ScaledNorm(mach, d, gn) > delta > 0.0
    requires x == Blend(GradientWeight(delta / q, 0.0, delta), v, delta / q, gn)
    ensures ScaledNorm(mach, d, x) == delta
  {
    var k := delta / q;
    WeightCases(k, 0.0, delta);
    TimesBlend(d, v, k, gn);
    var dx := Times(d, gn);
    var s := Dot(Times(d, x), Times(d, x));
    DotScale(k, dx, Scale(k, dx));
    DotScale(k, dx, dx);
    ScaledRoot(k, q, delta, Dot(dx, dx), s);
    SquareOrder(ScaledNorm(mach, d, x), delta, s, delta * delta);
  }

  lemma TimesBlend(d: Vec, v: Vec, k: real, gn: Vec)
    requires |d| == |v| == |gn|
    ensures Times(d, Blend(0.0, v, k, gn)) == Scale(k, Times(d, gn))
  {
    forall i | 0 <= i < |d|
      ensures Times(d, Blend(0.0, v, k, gn))[i] == Scale(k, Times(d, gn))[i]
    {
      BlendAt(d[i], 0.0, v[i], k, gn[i], Blend(0.0, v, k, gn)[i], d[i] * v[i], Times(d, gn)[i]);
    }
  }

  lemma ScaledRoot(k: real, q: real, delta: real, q2: real, s: real)
    requires q != 0.0 && k == delta / q && q2 == q * q && s == k * (k * q2)
    ensures s == delta * delta
  {
    assert k * q == delta;
    ProductOfSquares(k, q, delta, q2, s);
  }

  lemma ProductOfSquares(k: real, q: real, delta: real, q2: real, s: real)
    requires k * q == delta && q2 == q * q && s == k * (k * q2)
    ensures s == delta * delta
  {
    assert k * (k * (q * q)) == (k * q) * (k * q);
  }

  lemma GradientOnly(mach: Machine, a: Mat, d: Vec, b: Vec, w: Vec, g: real, delta: real, gn: Vec, x: Vec)
    requires mach.Valid() && Direction(a, d, b, w, g) && delta > 0.0 && |gn| == |b|
    requires x == Blend(delta, w, 0.0, gn)
    ensures ScaledNorm(mach, d, x) == delta
  {
    var c, q2 := Dot(Times(d, w), Times(d, gn)), ScaledSquare(d, gn);
    BlendNorm(a, d, b, w, g, gn, delta, 0.0, c, q2);
    assert Quad(delta, 0.0, 1.0, c, q2) == delta * delta;
    SquareOrder(ScaledNorm(mach, d, x), delta, ScaledSquare(d, x), delta * delta);
  }

  lemma LastLegLength(mach: Machine, a: Mat, d: Vec, b: Vec, w: Vec, g: real, sg: real, delta: real, gn: Vec, x: Vec)
    requires mach.Valid() && Direction(a, d, b, w, g) && |gn| == |b| && mach.Norm(b) > 0.0
    requires 0.0 < sg < delta < ScaledNorm(mach, d, gn)
    requires var alpha := Alpha(mach, mach.Norm(b), g, ScaledNorm(mach, d, gn), sg, delta);
      x == Blend(GradientWeight(alpha, sg, delta), w, alpha, gn)
    ensures ScaledNorm(mach, d, x) <= delta <==> Dot(b, Mul(a, gn)) <= Dot(b, b)
    ensures ScaledNorm(mach, d, x) == delta <==> Dot(b, Mul(a, gn)) == Dot(b, b)
  {
    var q, bn := ScaledNorm(mach, d, gn), mach.Norm(b);
    var alpha := Alpha(mach, bn, g, q, sg, delta);
    WeightCases(alpha, sg, delta);
    LastLegLengthAt(mach, a, d, b, w, g, sg, delta, gn, alpha, CrossValue(bn, g), x);
  }

  lemma LastLegLengthAt(mach: Machine, a: Mat, d: Vec, b: Vec, w: Vec, g: real, sg: real, delta: real, gn: Vec,
                        alpha: real, c': real, x: Vec)
    requires mach.Valid() && Direction(a, d, b, w, g) && |gn| == |b| && sg > 0.0 && delta > 0.0 && 0.0 < alpha < 1.0
    requires c' == Dot(b, b) / g && OnBoundary(alpha, sg, c', ScaledNorm(mach, d, gn), delta)
    requires x == SecondLeg(w, sg, gn, alpha)
    ensures ScaledNorm(mach, d, x) <= delta <==> Dot(b, Mul(a, gn)) <= Dot(b, b)
    ensures ScaledNorm(mach, d, x) == delta <==> Dot(b, Mul(a, gn)) == Dot(b, b)
  {
    hide ScaledNorm, Mul, Times, LegWeight, ScaledSquare, Comb, DotR;
    var c := Dot(Times(d, w), Times(d, gn));
    var q := ScaledNorm(mach, d, gn);
    BlendNorm(a, d, b, w, g, gn, LegWeight(sg, alpha), alpha, c, q * q);
    CrossProduct(a, d, b, w, g, gn);
    LongerCross(sg, alpha, g, c, c', q * q, Dot(b, Mul(a, gn)), Dot(b, b));
    SquareOrder(ScaledNorm(mach, d, x), delta, ScaledSquare(d, x), delta * delta);
  }

  lemma LongerCross(sg: real, alpha: real, g: real, c: real, c': real, q2: real, bg: real, b2: real)
    requires sg > 0.0 && 0.0 < alpha < 1.0 && g > 0.0 && g * c == bg && c' == b2 / g
    ensures Quad(LegWeight(sg, alpha), alpha, 1.0, c, q2) <= Quad(LegWeight(sg, alpha), alpha, 1.0, c', q2)
            <==> bg <= b2
    ensures Quad(LegWeight(sg, alpha), alpha, 1.0, c, q2) == Quad(LegWeight(sg, alpha), alpha, 1.0, c', q2)
            <==> bg == b2
  {
    PositiveProduct(1.0 - alpha, sg, LegWeight(sg, alpha));
    Quotient(b2, g, c');
    ScaleOrder(g, c, c', bg, b2);
    QuadInCross(LegWeight(sg, alpha), alpha, c, c', q2);
  }

  /** A larger cross product means a longer combination. */
  lemma QuadInCross(t: real, alpha: real, c: real, c': real, q2: real)
    requires t > 0.0 && alpha > 0.0
    ensures Quad(t, alpha, 1.0, c, q2) <= Quad(t, alpha, 1.0, c', q2) <==> c <= c'
    ensures Quad(t, alpha, 1.0, c, q2) == Quad(t, alpha, 1.0, c', q2) <==> c == c'
  {
    var p := t * alpha;
    PositiveProduct(t, alpha, p);
    ScaleOrder(p, c, c', p * c, p * c');
  }

  /** For nonsingular R the step never leaves the region, and ends on its boundary whenever the
      Gauss-Newton point is rejected. */
  lemma StepWithinRadius(mach: Machine, a: Mat, d: Vec, b: Vec, delta: real, gn: Vec, x: Vec)
    requires mach.Valid() && Inputs(a, d, b, delta) && DoglegStep(mach, a, d, b, delta, gn, x) && Nonsingular(a)
    ensures Mul(a, gn) == b
    ensures ScaledNorm(mach, d, x) <= delta
    ensures ScaledNorm(mach, d, gn) > delta ==> ScaledNorm(mach, d, x) == delta
    ensures ScaledNorm(mach, d, gn) <= delta ==> x == gn
  {
    PivotedNonsingular(mach, a);
    StepLength(mach, a, d, b, delta, gn, x);
  }

  // ---- optimality ----

  /** |inverse(D) transpose(R) b| */
  function GradientNorm(mach: Machine, a: Mat, d: Vec, b: Vec): (g: real)
    requires mach.Valid() && IsMat(a, |b|, |b|) && |d| == |b| && forall i :: 0 <= i < |d| ==> d[i] != 0.0
    ensures g >= 0.0
  {
    mach.Norm(ScaledGradient(a, d, b))
  }

  /** For R gn = b with b nonzero the gradient transpose(R) b does not vanish. */
  lemma GradientNonzero(mach: Machine, a: Mat, d: Vec, b: Vec, delta: real, gn: Vec)
    requires mach.Valid() && Inputs(a, d, b, delta) && |gn| == |b| && Mul(a, gn) == b && b != Zero(|b|)
    ensures GradientNorm(mach, a, d, b) > 0.0
  {
    var v := ScaledGradient(a, d, b);
    NormZero(mach, v);
    if mach.Norm(v) == 0.0 {
      var c := Comb(b, a, |b|);
      forall i | 0 <= i < |b|
        ensures c[i] == 0.0
      {
        assert v[i] == 0.0;
        DivisionZero(c[i], d[i], v[i]);
      }
      Adjoint(b, a, gn);
      DotRZero(c, gn, 0, |b|);
      DotNonneg(b);
    }
  }

  lemma DivisionZero(c: real, d: real, v: real)
    requires d != 0.0 && v == c / d && v == 0.0
    ensures c == 0.0
  {
    assert v * d == c;
  }

  /** y lies on the dogleg: from the origin to the Cauchy point sg w, then on to gn. */
  ghost predicate OnDogleg(w: Vec, sg: real, gn: Vec, y: Vec)
    requires |w| == |gn|
  {
    || (exists t: real :: 0.0 <= t <= sg && y == Blend(t, w, 0.0, gn))
    || (exists alpha: real :: 0.0 <= alpha <= 1.0 && y == SecondLeg(w, sg, gn, alpha))
  }

  /** A rejected Gauss-Newton point of a nonsingular system, with its scalars. */
  ghost predicate Rejected(mach: Machine, a: Mat, d: Vec, b: Vec, delta: real, gn: Vec, w: Vec, s: Shape) {
    && mach.Valid() && Direction(a, d, b, w, s.g) && |gn| == |b| && Mul(a, gn) == b
    && s.Ok() && s.b2 == Dot(b, b) && s.h == Dot(Mul(a, w), Mul(a, w))
    && s.c == Dot(Times(d, w), Times(d, gn)) && s.q == ScaledNorm(mach, d, gn) && s.q > delta > 0.0
  }

  lemma RejectedShape(mach: Machine, a: Mat, d: Vec, b: Vec, delta: real, gn: Vec, w: Vec) returns (s: Shape)
    requires mach.Valid() && Inputs(a, d, b, delta) && |gn| == |b| && Mul(a, gn) == b
    requires ScaledNorm(mach, d, gn) > delta && GradientNorm(mach, a, d, b) != 0.0
    requires w == UnitDirection(a, d, b, GradientNorm(mach, a, d, b))
    ensures Rejected(mach, a, d, b, delta, gn, w, s)
    ensures s.g == GradientNorm(mach, a, d, b) && mach.Norm(b) > 0.0 && s.c == CrossValue(mach.Norm(b), s.g)
    ensures mach.Norm(Mul(a, w)) > 0.0 && s.sg == CauchyStep(mach, a, w, s.g)
  {
    hide Mul, CauchyStep, Dot;
    var g := GradientNorm(mach, a, d, b);
    DivisorsPositive(mach, a, d, b, delta, g, w);
    s := ShapeOf(mach, a, d, b, delta, gn, w, g, CauchyStep(mach, a, w, g), mach.Norm(b), ScaledNorm(mach, d, gn));
  }

  lemma ShapeOf(mach: Machine, a: Mat, d: Vec, b: Vec, delta: real, gn: Vec, w: Vec, g: real, sg: real, bn: real,
                q: real)
    returns (s: Shape)
    requires mach.Valid() && Direction(a, d, b, w, g) && |gn| == |b| && Mul(a, gn) == b
    requires bn == mach.Norm(b) > 0.0 && q == ScaledNorm(mach, d, gn) > delta > 0.0
    requires sg > 0.0 && sg * Dot(Mul(a, w), Mul(a, w)) == g
    ensures Rejected(mach, a, d, b, delta, gn, w, s)
    ensures s.g == g && s.sg == sg && s.c == CrossValue(bn, g)
  {
    hide Mul, ScaledNorm, CrossValue, Times, IsMat, Comb, DotR;
    var c, b2, h := Dot(Times(d, w), Times(d, gn)), Dot(b, b), Dot(Mul(a, w), Mul(a, w));
    CrossProduct(a, d, b, w, g, gn);
    CrossQuotient(bn, b2, g, c);
    SlopeSchwarz(a, d, b, w, g, b2, h);
    CrossSchwarz(a, d, b, w, g, gn, c, q);
    s := MakeShape(b2, g, h, sg, c, q);
  }

  lemma MakeShape(b2: real, g: real, h: real, sg: real, c: real, q: real) returns (s: Shape)
    requires b2 > 0.0 && g > 0.0 && h > 0.0 && sg > 0.0 && c > 0.0 && q > 0.0
    requires sg * h == g && g * c == b2 && g * g <= b2 * h && c * c <= q * q
    ensures s == Shape(b2, g, h, sg, c, q) && s.Ok()
  {
    SquareOrder(c, q, c * c, q * q);
    CrossAboveCauchy(b2, g, h, sg, c);
    s := Shape(b2, g, h, sg, c, q);
  }

  lemma CrossQuotient(bn: real, b2: real, g: real, c: real)
    requires bn > 0.0 && g > 0.0 && b2 == bn * bn && g * c == b2
    ensures b2 > 0.0 && c > 0.0 && c == CrossValue(bn, g)
  {
    SquareSign(bn, b2);
    Quotient(b2, g, c);
    DivisionSign(b2, g, c);
  }

  lemma SlopeSchwarz(a: Mat, d: Vec, b: Vec, w: Vec, g: real, b2: real, h: real)
    requires Direction(a, d, b, w, g) && b2 == Dot(b, b) && h == Dot(Mul(a, w), Mul(a, w))
    ensures g * g <= b2 * h && h > 0.0
  {
    DirectionMoves(a, d, b, w, g);
    SlopeAlongDirection(a, d, b, w, g);
    CauchySchwarz(b, Mul(a, w));
  }

  lemma CrossSchwarz(a: Mat, d: Vec, b: Vec, w: Vec, g: real, gn: Vec, c: real, q: real)
    requires Direction(a, d, b, w, g) && |gn| == |b| && c == Dot(Times(d, w), Times(d, gn))
    requires q * q == ScaledSquare(d, gn)
    ensures c * c <= q * q
  {
    CauchySchwarz(Times(d, w), Times(d, gn));
  }

  /** Where the step of a rejected point lies: at distance delta on the first leg, or on the second leg's boundary
      point. */
  ghost predicate StepAt(w: Vec, gn: Vec, delta: real, s: Shape, at: real, x: Vec)
    requires |w| == |gn|
  {
    if s.sg >= delta then x == Blend(delta, w, 0.0, gn)
    else 0.0 < at < 1.0 && x == SecondLeg(w, s.sg, gn, at) && s.LegNorm2(at) == delta * delta
  }

  lemma StepOnDogleg(mach: Machine, a: Mat, d: Vec, b: Vec, delta: real, gn: Vec, x: Vec, w: Vec, s: Shape)
    returns (at: real)
    requires mach.Valid() && Inputs(a, d, b, delta) && DoglegStep(mach, a, d, b, delta, gn, x)
    requires Rejected(mach, a, d, b, delta, gn, w, s) && GradientNorm(mach, a, d, b) == s.g
    requires w == UnitDirection(a, d, b, s.g) && mach.Norm(b) > 0.0 && s.c == CrossValue(mach.Norm(b), s.g)
    requires mach.Norm(Mul(a, w)) > 0.0 && s.sg == CauchyStep(mach, a, w, s.g)
    ensures StepAt(w, gn, delta, s, at, x)
  {
    hide DoglegStep, Blend, Rejected, CauchyStep, Mul, Inputs;
    RejectedParts(mach, a, d, b, delta, gn, w, s);
    at := RejectedStep(mach, a, d, b, delta, gn, x, w, s.g, s.sg, s.q);
    hide Alpha, UnitDirection;
    WeightCases(at, s.sg, delta);
  }

  lemma RejectedParts(mach: Machine, a: Mat, d: Vec, b: Vec, delta: real, gn: Vec, w: Vec, s: Shape)
    requires Rejected(mach, a, d, b, delta, gn, w, s)
    ensures |gn| == |b| == |d| == |w| && s.q == ScaledNorm(mach, d, gn) > delta > 0.0 && s.sg > 0.0 && s.g > 0.0
  {
  }

  /** What dogleg does with a rejected point: the combination of the two directions. */
  lemma RejectedStep(mach: Machine, a: Mat, d: Vec, b: Vec, delta: real, gn: Vec, x: Vec, w: Vec, g: real, sg: real,
                     q: real)
    returns (alpha: real)
    requires mach.Valid() && Inputs(a, d, b, delta) && DoglegStep(mach, a, d, b, delta, gn, x) && |gn| == |b| == |d|
    requires q == ScaledNorm(mach, d, gn) > delta && g == GradientNorm(mach, a, d, b) > 0.0 && mach.Norm(b) > 0.0
    requires w == UnitDirection(a, d, b, g) && mach.Norm(Mul(a, w)) > 0.0 && sg == CauchyStep(mach, a, w, g) > 0.0
    ensures x == Blend(GradientWeight(alpha, sg, delta), w, alpha, gn)
    ensures sg >= delta ==> alpha == 0.0
    ensures sg < delta ==> alpha == Alpha(mach, mach.Norm(b), g, q, sg, delta)
  {
    hide Blend, Mul, ScaledGradient;
    alpha := if sg >= delta then 0.0 else Alpha(mach, mach.Norm(b), g, q, sg, delta);
  }

  lemma ResidualNonneg(a: Mat, b: Vec, gn: Vec, y: Vec)
    requires IsMat(a, |b|, |b|) && |gn| == |y| == |b| && Mul(a, gn) == b
    ensures Model(a, b, gn) == 0.0 <= Model(a, b, y)
  {
    DotNonneg(Residual(a, b, y));
    DotNonneg(Residual(a, b, gn));
    assert Residual(a, b, gn) == Zero(|b|);
  }

  lemma FirstLegMeasures(mach: Machine, a: Mat, d: Vec, b: Vec, delta: real, gn: Vec, w: Vec, s: Shape, t: real)
    requires Rejected(mach, a, d, b, delta, gn, w, s)
    ensures ScaledSquare(d, Blend(t, w, 0.0, gn)) == t * t
    ensures Model(a, b, Blend(t, w, 0.0, gn)) == s.Model2(t, 1.0)
  {
    BlendNorm(a, d, b, w, s.g, gn, t, 0.0, s.c, s.q * s.q);
    BlendModel(a, d, b, w, s.g, gn, t, 0.0, 1.0, s.b2, s.h);
    QuadAtZero(t, s.c, s.q * s.q);
  }

  lemma QuadAtZero(t: real, c: real, q2: real)
    ensures Quad(t, 0.0, 1.0, c, q2) == t * t
  {
  }

  lemma AgainstFirstLeg(mach: Machine, a: Mat, d: Vec, b: Vec, delta: real, gn: Vec, x: Vec, w: Vec, s: Shape, at: real,
                        t: real, y: Vec)
    requires Rejected(mach, a, d, b, delta, gn, w, s) && StepAt(w, gn, delta, s, at, x)
    requires 0.0 <= t <= s.sg && y == Blend(t, w, 0.0, gn) && ScaledNorm(mach, d, y) <= delta
    ensures Model(a, b, x) <= Model(a, b, y)
  {
    hide Model, Times, Mul, ScaledNorm, ScaledSquare, Dot, SecondLeg, Axpy, Scale;
    FirstLegMeasures(mach, a, d, b, delta, gn, w, s, t);
    if s.sg >= delta {
      FirstLegMeasures(mach, a, d, b, delta, gn, w, s, delta);
      SquareOrder(t, ScaledNorm(mach, d, y), t * t, ScaledSquare(d, y));
      FirstLegFalls(s, t, delta);
    } else {
      SecondLegMeasures(a, d, b, w, gn, s, at);
      SecondLegFalls(s, 0.0, at);
      SecondLegStart(s);
      FirstLegFalls(s, t, s.sg);
    }
  }

  lemma AgainstSecondLeg(mach: Machine, a: Mat, d: Vec, b: Vec, delta: real, gn: Vec, x: Vec, w: Vec, s: Shape,
                         at: real, alpha: real, y: Vec)
    requires Rejected(mach, a, d, b, delta, gn, w, s) && StepAt(w, gn, delta, s, at, x)
    requires 0.0 <= alpha <= 1.0 && y == SecondLeg(w, s.sg, gn, alpha) && ScaledNorm(mach, d, y) <= delta
    ensures Model(a, b, x) <= Model(a, b, y)
  {
    hide Blend, Model, StepAt, Times;
    SecondLegMeasures(a, d, b, w, gn, s, alpha);
    SquareOrder(ScaledNorm(mach, d, y), delta, ScaledSquare(d, y), delta * delta);
    StepIsLeastOnLeg(mach, a, d, b, delta, gn, x, w, s, at, alpha);
  }

  lemma StepIsLeastOnLeg(mach: Machine, a: Mat, d: Vec, b: Vec, delta: real, gn: Vec, x: Vec, w: Vec, s: Shape,
                         at: real, alpha: real)
    requires Rejected(mach, a, d, b, delta, gn, w, s) && StepAt(w, gn, delta, s, at, x)
    requires 0.0 <= alpha <= 1.0 && s.LegNorm2(alpha) <= delta * delta
    ensures Model(a, b, x) <= s.LegModel2(alpha)
  {
    hide Model, Mul, Times, Comb;
    if s.sg >= delta {
      OnlyCauchyInside(s, delta, alpha);
      FirstLegMeasures(mach, a, d, b, delta, gn, w, s, delta);
    } else {
      SecondLegMeasures(a, d, b, w, gn, s, at);
      NotBeyond(s, delta, at, alpha);
      SecondLegFalls(s, alpha, at);
    }
  }

  lemma OnlyCauchyInside(s: Shape, delta: real, alpha: real)
    requires s.Ok() && s.q > delta > 0.0 && s.sg >= delta && 0.0 <= alpha <= 1.0 && s.LegNorm2(alpha) <= delta * delta
    ensures s.sg == delta && s.LegModel2(alpha) == s.Model2(delta, 1.0)
  {
    SecondLegOutside(s, alpha);
    SquareOrder(delta, s.sg, delta * delta, s.sg * s.sg);
    SecondLegStart(s);
  }

  lemma NotBeyond(s: Shape, delta: real, at: real, alpha: real)
    requires s.Ok() && s.sg < delta && 0.0 <= at && s.LegNorm2(at) == delta * delta
    requires s.LegNorm2(alpha) <= delta * delta
    ensures alpha <= at
  {
    if alpha > at {
      BeyondBoundary(s, delta, at, alpha);
    }
  }

  /** Among all points of the dogleg in the region, the step has the least residual. */
  lemma StepMinimizesOnDogleg(mach: Machine, a: Mat, d: Vec, b: Vec, delta: real, gn: Vec, x: Vec, w: Vec, sg: real,
                              y: Vec)
    requires mach.Valid() && Inputs(a, d, b, delta) && DoglegStep(mach, a, d, b, delta, gn, x) && Nonsingular(a)
    requires |y| == |w| == |b| && ScaledNorm(mach, d, y) <= delta
    requires GradientNorm(mach, a, d, b) != 0.0 ==>
      && w == UnitDirection(a, d, b, GradientNorm(mach, a, d, b))
      && mach.Norm(Mul(a, w)) != 0.0 && sg == CauchyStep(mach, a, w, GradientNorm(mach, a, d, b))
    requires OnDogleg(w, sg, gn, y)
    ensures Model(a, b, x) <= Model(a, b, y)
  {
    PivotedNonsingular(mach, a);
    if ScaledNorm(mach, d, gn) <= delta {
      ResidualNonneg(a, b, gn, y);
    } else {
      RejectedNonzero(mach, a, d, b, delta, gn);
      GradientNonzero(mach, a, d, b, delta, gn);
      var s := RejectedShape(mach, a, d, b, delta, gn, w);
      var at := StepOnDogleg(mach, a, d, b, delta, gn, x, w, s);
      if t: real :| 0.0 <= t <= sg && y == Blend(t, w, 0.0, gn) {
        AgainstFirstLeg(mach, a, d, b, delta, gn, x, w, s, at, t, y);
      } else {
        var alpha: real :| 0.0 <= alpha <= 1.0 && y == SecondLeg(w, sg, gn, alpha);
        AgainstSecondLeg(mach, a, d, b, delta, gn, x, w, s, at, alpha, y);
      }
    }
  }

  /** Only b = 0 has the Gauss-Newton point 0, which is never rejected. */
  lemma RejectedNonzero(mach: Machine, a: Mat, d: Vec, b: Vec, delta: real, gn: Vec)
    requires mach.Valid() && Inputs(a, d, b, delta) && Nonsingular(a) && |gn| == |b| && Mul(a, gn) == b
    requires ScaledNorm(mach, d, gn) > delta
    ensures b != Zero(|b|)
  {
    if b == Zero(|b|) {
      KernelTrivial(a, gn, 0);
      assert Times(d, gn) == Zero(|b|);
      NormZero(mach, Times(d, gn));
    }
  }

  /** R gn = 0 for a nonsingular upper triangle only when gn = 0. */
  lemma {:induction false} KernelTrivial(a: Mat, gn: Vec, i: nat)
    requires Nonsingular(a) && UpperTriangular(a) && |gn| == |a| && Mul(a, gn) == Zero(|a|) && i <= |a|
    ensures forall k :: i <= k < |a| ==> gn[k] == 0.0
    decreases |a| - i
  {
    if i < |a| {
      KernelTrivial(a, gn, i + 1);
      assert Mul(a, gn)[i] == 0.0;
      DotSuffix(a[i], gn, i);
      DotRSplit(a[i], gn, i, i + 1, |a|);
      DotRZero(a[i], gn, i + 1, |a|);
      assert DotR(a[i], gn, i, i) == 0.0;
      ZeroProduct(a[i][i], gn[i]);
    }
  }

  /** The step strictly decreases the linear model unless b = 0. */
  lemma StepDecreasesModel(mach: Machine, a: Mat, d: Vec, b: Vec, delta: real, gn: Vec, x: Vec)
    requires mach.Valid() && Inputs(a, d, b, delta) && DoglegStep(mach, a, d, b, delta, gn, x) && Nonsingular(a)
    requires b != Zero(|b|)
    ensures Model(a, b, x) < Dot(b, b)
  {
    hide Model, Dot, ScaledNorm, UpperTriangular, Mul;
    PivotedNonsingular(mach, a);
    DotNonneg(b);
    if ScaledNorm(mach, d, gn) <= delta {
      ResidualNonneg(a, b, gn, gn);
    } else {
      GradientNonzero(mach, a, d, b, delta, gn);
      var w := UnitDirection(a, d, b, GradientNorm(mach, a, d, b));
      var s := RejectedShape(mach, a, d, b, delta, gn, w);
      var at := StepOnDogleg(mach, a, d, b, delta, gn, x, w, s);
      if s.sg >= delta {
        FirstLegMeasures(mach, a, d, b, delta, gn, w, s, delta);
        FirstLegFalls(s, 0.0, delta);
        GradientLegModel(s.b2, s.g, s.h, 0.0);
      } else {
        SecondLegMeasures(a, d, b, w, gn, s, at);
        SecondLegFalls(s, 0.0, at);
        SecondLegStart(s);
        CauchyModel(s);
      }
    }
  }

  /** The Cauchy point, where the two legs meet, minimizes the model along the scaled gradient. */
  lemma CauchyPointMinimizes(mach: Machine, a: Mat, d: Vec, b: Vec, delta: real, t: real)
    requires mach.Valid() && Inputs(a, d, b, delta) && GradientNorm(mach, a, d, b) > 0.0
    ensures var w := UnitDirection(a, d, b, GradientNorm(mach, a, d, b));
      mach.Norm(Mul(a, w)) > 0.0
      && Model(a, b, Scale(CauchyStep(mach, a, w, GradientNorm(mach, a, d, b)), w)) <= Model(a, b, Scale(t, w))
  {
    var g := GradientNorm(mach, a, d, b);
    var w := UnitDirection(a, d, b, g);
    DivisorsPositive(mach, a, d, b, delta, g, w);
    DirectionMoves(a, d, b, w, g);
    var sg := CauchyStep(mach, a, w, g);
    var b2, h := Dot(b, b), Dot(Mul(a, w), Mul(a, w));
    GradientModel(a, d, b, w, g, t, b2, h);
    GradientModel(a, d, b, w, g, sg, b2, h);
    VertexIsLeast(b2, g, h, sg, t);
  }

  lemma VertexIsLeast(b2: real, g: real, h: real, sg: real, t: real)
    requires h > 0.0 && sg * h == g
    ensures Quad(1.0, -sg, b2, g, h) <= Quad(1.0, -t, b2, g, h)
  {
    GradientLegModel(b2, g, h, sg);
    GradientLegModel(b2, g, h, t);
    var u := (t - sg) * (t - sg);
    SquareSign(t - sg, u);
    NonnegProduct(u, h, u * h);
    assert u * h == t * (t * h) - 2.0 * (t * (sg * h)) + sg * (sg * h);
    assert t * (sg * h) == t * g;
  }
}
