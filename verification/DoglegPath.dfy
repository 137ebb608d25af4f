/** The mathematics of Powell's dogleg: the path from the origin to the Cauchy point and on to the
    Gauss-Newton point, the model |b - R y| along it, and the boundary |D y| = delta. */
module DoglegPath {
  import opened Reals
  import opened Vectors

  /** t w + alpha gn */
  function Blend(t: real, w: Vec, alpha: real, gn: Vec): (y: Vec)
    requires |w| == |gn|
    ensures |y| == |w| && forall i :: 0 <= i < |y| ==> y[i] == t * w[i] + alpha * gn[i]
  {
    Axpy(alpha, gn, Scale(t, w))
  }

  /** b - R y */
  function Residual(a: Mat, b: Vec, y: Vec): (z: Vec)
    requires IsMat(a, |b|, |y|)
    ensures |z| == |b| && forall i :: 0 <= i < |b| ==> z[i] == b[i] - Mul(a, y)[i]
  {
    Axpy(-1.0, Mul(a, y), b)
  }

  /** The square of the linear model at y. */
  function Model(a: Mat, b: Vec, y: Vec): real
    requires IsMat(a, |b|, |y|)
  {
    Dot(Residual(a, b, y), Residual(a, b, y))
  }

  /** |D y|^2 */
  function ScaledSquare(d: Vec, y: Vec): real
    requires |d| == |y|
  {
    Dot(Times(d, y), Times(d, y))
  }

  /** w is the scaled gradient direction inverse(D^2) transpose(R) b, normalized by g = |inverse(D) transpose(R) b|. */
  ghost predicate Direction(a: Mat, d: Vec, b: Vec, w: Vec, g: real) {
    && IsMat(a, |b|, |b|) && |d| == |w| == |b| && g > 0.0
    && (forall i :: 0 <= i < |d| ==> d[i] != 0.0)
    && (forall i :: 0 <= i < |d| ==> g * (d[i] * (d[i] * w[i])) == Comb(b, a, |b|)[i])
    && ScaledSquare(d, w) == 1.0
  }

  /** <b, R w> = g */
  lemma SlopeAlongDirection(a: Mat, d: Vec, b: Vec, w: Vec, g: real)
    requires Direction(a, d, b, w, g)
    ensures Dot(b, Mul(a, w)) == g
  {
    Adjoint(b, a, w);
    var c := Comb(b, a, |b|);
    var dw := Times(d, w);
    assert forall i :: 0 <= i < |d| ==> c[i] * w[i] == Scale(g, dw)[i] * dw[i] by {
      forall i | 0 <= i < |d|
        ensures c[i] * w[i] == Scale(g, dw)[i] * dw[i]
      {
        Rearrange(g, d[i], w[i]);
      }
    }
    DotRCong(c, w, Scale(g, dw), dw, 0, |b|);
    DotScale(g, dw, dw);
  }

  lemma Rearrange(g: real, d: real, w: real)
    ensures g * (d * (d * w)) * w == (g * (d * w)) * (d * w)
  {
    var p := d * w;
    assert g * (d * p) * w == g * p * (d * w);
  }

  /** <D w, D y> = <b, R y> / g */
  lemma CrossProduct(a: Mat, d: Vec, b: Vec, w: Vec, g: real, y: Vec)
    requires Direction(a, d, b, w, g) && |y| == |b|
    ensures g * Dot(Times(d, w), Times(d, y)) == Dot(b, Mul(a, y))
  {
    hide Times, Mul, Scale, ScaledSquare, DotR, CombTo;
    Adjoint(b, a, y);
    var c := Comb(b, a, |b|);
    var dw := Times(d, w);
    var dy := Times(d, y);
    assert forall i :: 0 <= i < |d| ==> c[i] * y[i] == Scale(g, dw)[i] * dy[i] by {
      forall i | 0 <= i < |d|
        ensures c[i] * y[i] == Scale(g, dw)[i] * dy[i]
      {
        var p := d[i] * w[i];
        assert g * (d[i] * p) * y[i] == (g * p) * (d[i] * y[i]);
      }
    }
    DotRCong(c, y, Scale(g, dw), dy, 0, |b|);
    DotScale(g, dw, dy);
  }

  /** The gradient is not in the kernel of R, whatever R is. */
  lemma DirectionMoves(a: Mat, d: Vec, b: Vec, w: Vec, g: real)
    requires Direction(a, d, b, w, g)
    ensures Dot(Mul(a, w), Mul(a, w)) > 0.0
  {
    SlopeAlongDirection(a, d, b, w, g);
    var z := Mul(a, w);
    DotNonneg(z);
    if Dot(z, z) == 0.0 {
      DotRZero(b, z, 0, |b|);
    }
  }

  /** D (t w + alpha gn) = t D w + alpha D gn */
  lemma BlendTimes(d: Vec, w: Vec, gn: Vec, t: real, alpha: real)
    requires |d| == |w| == |gn|
    ensures Times(d, Blend(t, w, alpha, gn)) == Axpy(alpha, Times(d, gn), Scale(t, Times(d, w)))
  {
    var dw, dx, y := Times(d, w), Times(d, gn), Blend(t, w, alpha, gn);
    hide Blend;
    forall i | 0 <= i < |d|
      ensures Times(d, y)[i] == Axpy(alpha, dx, Scale(t, dw))[i]
    {
      BlendAt(d[i], t, w[i], alpha, gn[i], y[i], dw[i], dx[i]);
    }
  }

  /** |D (t w + alpha gn)|^2 */
  lemma BlendNorm(a: Mat, d: Vec, b: Vec, w: Vec, g: real, gn: Vec, t: real, alpha: real, c: real, q2: real)
    requires Direction(a, d, b, w, g) && |gn| == |b|
    requires c == Dot(Times(d, w), Times(d, gn)) && q2 == ScaledSquare(d, gn)
    ensures ScaledSquare(d, Blend(t, w, alpha, gn)) == Quad(t, alpha, 1.0, c, q2)
  {
    hide Blend, Times, Axpy, Scale, Quad, Comb;
    BlendTimes(d, w, gn, t, alpha);
    BlendSquare(t, Times(d, w), alpha, Times(d, gn), 1.0, c, q2);
  }

  lemma BlendAt(d: real, t: real, w: real, alpha: real, x: real, y: real, p: real, q: real)
    requires y == t * w + alpha * x && p == d * w && q == d * x
    ensures d * y == t * p + alpha * q
  {
  }

  /** b - R (t w + alpha gn) when R gn = b: the Gauss-Newton part only shrinks b, by e = 1 - alpha. */
  lemma BlendResidual(a: Mat, b: Vec, w: Vec, gn: Vec, t: real, alpha: real, e: real)
    requires IsMat(a, |b|, |b|) && |w| == |gn| == |b| && Mul(a, gn) == b && e == 1.0 - alpha
    ensures Residual(a, b, Blend(t, w, alpha, gn)) == Axpy(-t, Mul(a, w), Scale(e, b))
  {
    var z := Mul(a, w);
    var y := Blend(t, w, alpha, gn);
    MulAxpy(a, alpha, gn, Scale(t, w));
    MulScale(a, t, w);
    forall i | 0 <= i < |b|
      ensures Residual(a, b, y)[i] == Axpy(-t, z, Scale(e, b))[i]
    {
      assert Mul(a, y)[i] == t * z[i] + alpha * b[i];
    }
  }

  /** |b - R (t w + alpha gn)|^2 when R gn = b */
  lemma BlendModel(a: Mat, d: Vec, b: Vec, w: Vec, g: real, gn: Vec, t: real, alpha: real, e: real, b2: real, h: real)
    requires Direction(a, d, b, w, g) && |gn| == |b| && Mul(a, gn) == b && e == 1.0 - alpha
    requires b2 == Dot(b, b) && h == Dot(Mul(a, w), Mul(a, w))
    ensures Model(a, b, Blend(t, w, alpha, gn)) == Quad(e, -t, b2, g, h)
  {
    BlendResidual(a, b, w, gn, t, alpha, e);
    SlopeAlongDirection(a, d, b, w, g);
    BlendSquare(e, b, -t, Mul(a, w), b2, g, h);
  }

  /** |b - R t w|^2, for any R */
  lemma GradientModel(a: Mat, d: Vec, b: Vec, w: Vec, g: real, t: real, b2: real, h: real)
    requires Direction(a, d, b, w, g)
    requires b2 == Dot(b, b) && h == Dot(Mul(a, w), Mul(a, w))
    ensures Model(a, b, Scale(t, w)) == Quad(1.0, -t, b2, g, h)
  {
    var z := Mul(a, w);
    MulScale(a, t, w);
    assert Residual(a, b, Scale(t, w)) == Axpy(-t, z, Scale(1.0, b));
    SlopeAlongDirection(a, d, b, w, g);
    BlendSquare(1.0, b, -t, z, b2, g, h);
  }

  /** The weight of w at the point alpha of the second leg. */
  function LegWeight(sg: real, alpha: real): real {
    (1.0 - alpha) * sg
  }

  /** The point (1 - alpha) sg w + alpha gn of the dogleg's second leg. */
  function SecondLeg(w: Vec, sg: real, gn: Vec, alpha: real): (y: Vec)
    requires |w| == |gn|
    ensures |y| == |w|
  {
    Blend(LegWeight(sg, alpha), w, alpha, gn)
  }

  lemma SecondLegMeasures(a: Mat, d: Vec, b: Vec, w: Vec, gn: Vec, s: Shape, alpha: real)
    requires Direction(a, d, b, w, s.g) && |gn| == |b| && Mul(a, gn) == b
    requires s.b2 == Dot(b, b) && s.h == Dot(Mul(a, w), Mul(a, w))
    requires s.c == Dot(Times(d, w), Times(d, gn)) && s.q * s.q == ScaledSquare(d, gn)
    ensures ScaledSquare(d, SecondLeg(w, s.sg, gn, alpha)) == s.LegNorm2(alpha)
    ensures Model(a, b, SecondLeg(w, s.sg, gn, alpha)) == s.LegModel2(alpha)
  {
    BlendNorm(a, d, b, w, s.g, gn, LegWeight(s.sg, alpha), alpha, s.c, s.q * s.q);
    BlendModel(a, d, b, w, s.g, gn, LegWeight(s.sg, alpha), alpha, 1.0 - alpha, s.b2, s.h);
  }

  // ---- scalars ----

  /** The quantities of a rejected Gauss-Newton point, related as the vectors force them to be: b2 = |b|^2,
      h = |R w|^2, sg the length of the Cauchy step, c = <D w, D gn>, q = |D gn|. */
  datatype Shape = Shape(b2: real, g: real, h: real, sg: real, c: real, q: real) {
    predicate Ok() {
      && b2 > 0.0 && g > 0.0 && h > 0.0 && sg > 0.0
      && sg * h == g      // sg minimizes the model along w
      && g * c == b2      // <D w, D gn> = |b|^2 / g
      && sg <= c <= q     // Cauchy-Schwarz on <b, R w> = g and on <D w, D gn> = c
    }

    // |D ((1 - alpha) sg w + alpha gn)|^2
    function LegNorm2(alpha: real): real {
      Quad(LegWeight(sg, alpha), alpha, 1.0, c, q * q)
    }

    // |b - R (t w + (1 - e) gn)|^2
    function Model2(t: real, e: real): real {
      Quad(e, -t, b2, g, h)
    }

    // |b - R ((1 - alpha) sg w + alpha gn)|^2
    function LegModel2(alpha: real): real {
      Model2(LegWeight(sg, alpha), 1.0 - alpha)
    }
  }

  lemma CrossAboveCauchy(b2: real, g: real, h: real, sg: real, c: real)
    requires g > 0.0 && h > 0.0 && sg * h == g && g * c == b2 && g * g <= b2 * h
    ensures sg <= c
  {
    var ch := h * c;
    assert b2 * h == g * ch;
    ScaleOrder(g, g, ch, g * g, g * ch);
    ScaleOrder(h, sg, c, g, ch);
  }

  lemma GradientLegModel(b2: real, g: real, h: real, t: real)
    ensures Quad(1.0, -t, b2, g, h) == b2 - 2.0 * (t * g) + t * (t * h)
  {
  }

  /** On the first leg the model only falls. */
  lemma FirstLegFalls(s: Shape, t: real, u: real)
    requires s.Ok() && 0.0 <= t <= u <= s.sg
    ensures s.Model2(u, 1.0) <= s.Model2(t, 1.0)
    ensures t < u ==> s.Model2(u, 1.0) < s.Model2(t, 1.0)
  {
    GradientLegModel(s.b2, s.g, s.h, t);
    GradientLegModel(s.b2, s.g, s.h, u);
    ParabolaFalls(s.g, s.h, s.sg, t, u);
  }

  lemma ParabolaFalls(g: real, h: real, sg: real, t: real, u: real)
    requires h > 0.0 && sg * h == g && t <= u <= sg
    ensures u * (u * h) - 2.0 * (u * g) <= t * (t * h) - 2.0 * (t * g)
    ensures t < u ==> u * (u * h) - 2.0 * (u * g) < t * (t * h) - 2.0 * (t * g)
  {
    // the difference is (u - t) ((2 sg - u - t) h)
    var m := 2.0 * sg - u - t;
    var k := m * h;
    NonnegProduct(m, h, k);
    NonnegProduct(u - t, k, (u - t) * k);
    if t < u {
      PositiveProduct(m, h, k);
      PositiveProduct(u - t, k, (u - t) * k);
    }
    ParabolaDifference(g, h, sg, t, u, k);
  }

  lemma ParabolaDifference(g: real, h: real, sg: real, t: real, u: real, k: real)
    requires sg * h == g && k == (2.0 * sg - u - t) * h
    ensures t * (t * h) - 2.0 * (t * g) - (u * (u * h) - 2.0 * (u * g)) == (u - t) * k
  {
    assert k == 2.0 * g - u * h - t * h;
    assert (u - t) * k == u * k - t * k;
    assert u * k == 2.0 * (u * g) - u * (u * h) - u * (t * h);
    assert t * k == 2.0 * (t * g) - t * (u * h) - t * (t * h);
  }

  /** On the second leg the residual is the Cauchy residual times 1 - alpha, so it falls as alpha grows. */
  lemma SecondLegFalls(s: Shape, alpha: real, beta: real)
    requires s.Ok() && 0.0 <= alpha <= beta <= 1.0
    ensures s.LegModel2(beta) <= s.LegModel2(alpha)
  {
    var m := s.Model2(s.sg, 1.0);
    SecondLegQuad(s.b2, s.g, s.h, s.sg, 1.0 - alpha);
    SecondLegQuad(s.b2, s.g, s.h, s.sg, 1.0 - beta);
    CauchyModel(s);
    ShrunkSquare(1.0 - beta, 1.0 - alpha, m);
  }

  lemma ShrunkSquare(e: real, f: real, m: real)
    requires 0.0 <= e <= f && m >= 0.0
    ensures e * e * m <= f * f * m
  {
    var p, q := e * e, f * f;
    SquareOrder(e, f, p, q);
    NonnegProduct(q - p, m, (q - p) * m);
  }

  lemma SecondLegStart(s: Shape)
    ensures s.LegModel2(0.0) == s.Model2(s.sg, 1.0)
  {
    assert LegWeight(s.sg, 0.0) == s.sg;
  }

  lemma SecondLegQuad(b2: real, g: real, h: real, sg: real, e: real)
    ensures Quad(e, -(e * sg), b2, g, h) == e * e * Quad(1.0, -sg, b2, g, h)
  {
    var x, y, e2 := sg * g, sg * sg * h, e * e;
    assert Quad(1.0, -sg, b2, g, h) == b2 - 2.0 * x + y;
    assert Quad(e, -(e * sg), b2, g, h) == e2 * b2 - 2.0 * (e2 * x) + e2 * y;
  }

  /** The Cauchy point improves on the origin. */
  lemma CauchyModel(s: Shape)
    requires s.Ok()
    ensures 0.0 <= s.Model2(s.sg, 1.0) < s.b2
  {
    GradientLegModel(s.b2, s.g, s.h, s.sg);
    var p := s.g * s.sg;
    PositiveProduct(s.g, s.sg, p);
    ScaleOrder(s.g, s.sg, s.c, p, s.b2);
    assert s.sg * (s.sg * s.h) == p;
  }

  /** The slope and curvature of the square distance along the second leg. */
  lemma SecondLegNorm(sg: real, c: real, q2: real, alpha: real, l: real, k: real)
    requires l == 2.0 * (sg * (c - sg)) && k == sg * sg - 2.0 * (sg * c) + q2
    ensures Quad((1.0 - alpha) * sg, alpha, 1.0, c, q2) == sg * sg + l * alpha + k * (alpha * alpha)
  {
    var x, y, a2 := sg * sg, sg * c, alpha * alpha;
    var t := (1.0 - alpha) * sg;
    assert t * t == x - 2.0 * (alpha * x) + a2 * x;
    assert t * alpha * c == alpha * y - a2 * y;
    assert l * alpha == 2.0 * (alpha * y) - 2.0 * (alpha * x);
    assert k * a2 == a2 * x - 2.0 * (a2 * y) + a2 * q2;
  }

  /** The square distance along the second leg starts at sg^2, does not fall and is convex. */
  lemma SecondLegShape(s: Shape, l: real, k: real, alpha: real)
    requires s.Ok() && l == 2.0 * (s.sg * (s.c - s.sg)) && k == s.sg * s.sg - 2.0 * (s.sg * s.c) + s.q * s.q
    ensures l >= 0.0 && k >= 0.0 && (s.q > s.sg ==> k > 0.0)
    ensures s.LegNorm2(alpha) == s.sg * s.sg + l * alpha + k * (alpha * alpha)
  {
    NonnegProduct(s.sg, s.c - s.sg, s.sg * (s.c - s.sg));
    Curvature(s.sg, s.c, s.q, k);
    SecondLegNorm(s.sg, s.c, s.q * s.q, alpha, l, k);
  }

  lemma Curvature(sg: real, c: real, q: real, k: real)
    requires 0.0 < sg <= c <= q && k == sg * sg - 2.0 * (sg * c) + q * q
    ensures k >= 0.0 && (q > sg ==> k > 0.0)
  {
    // k = (q - sg)^2 + 2 sg (q - c)
    var u, v := (q - sg) * (q - sg), sg * (q - c);
    SquareSign(q - sg, u);
    NonnegProduct(sg, q - c, v);
    assert u == q * q - 2.0 * (sg * q) + sg * sg;
    assert v == sg * q - sg * c;
  }

  /** Points of the second leg lie no nearer than the Cauchy point, and strictly farther when q > sg. */
  lemma SecondLegOutside(s: Shape, alpha: real)
    requires s.Ok() && 0.0 <= alpha <= 1.0
    ensures s.LegNorm2(alpha) >= s.sg * s.sg
    ensures alpha > 0.0 && s.q > s.sg ==> s.LegNorm2(alpha) > s.sg * s.sg
  {
    var l, k := 2.0 * (s.sg * (s.c - s.sg)), s.sg * s.sg - 2.0 * (s.sg * s.c) + s.q * s.q;
    SecondLegShape(s, l, k, alpha);
    var a2 := alpha * alpha;
    SquareSign(alpha, a2);
    NonnegProduct(l, alpha, l * alpha);
    NonnegProduct(k, a2, k * a2);
    if alpha > 0.0 && s.q > s.sg {
      PositiveProduct(k, a2, k * a2);
    }
  }

  /** A point of the second leg beyond one on the boundary is outside, if the leg starts inside. */
  lemma BeyondBoundary(s: Shape, delta: real, at: real, alpha: real)
    requires s.Ok() && s.sg < delta && 0.0 <= at < alpha
    requires s.LegNorm2(at) == delta * delta
    ensures s.LegNorm2(alpha) > delta * delta
  {
    hide Quad;
    var l, k := 2.0 * (s.sg * (s.c - s.sg)), s.sg * s.sg - 2.0 * (s.sg * s.c) + s.q * s.q;
    SecondLegShape(s, l, k, at);
    SecondLegShape(s, l, k, alpha);
    SquareOrder(s.sg, delta, s.sg * s.sg, delta * delta);
    Climb(k, l, at, alpha);
  }

  /** A convex parabola that has climbed above its start keeps climbing. */
  lemma Climb(k: real, l: real, at: real, alpha: real)
    requires k >= 0.0 && l >= 0.0 && 0.0 <= at < alpha && l * at + k * (at * at) > 0.0
    ensures l * alpha + k * (alpha * alpha) > l * at + k * (at * at)
  {
    var a2, b2 := at * at, alpha * alpha;
    SquareOrder(at, alpha, a2, b2);
    if l > 0.0 {
      ScaleOrder(l, at, alpha, l * at, l * alpha);
    }
    if k > 0.0 {
      ScaleOrder(k, a2, b2, k * a2, k * b2);
    }
  }

  // ---- the closed-form root ----

  /** dq = delta / q, sn = sg / delta and tm as dogleg forms them. */
  datatype Ratios = Ratios(dq: real, sn: real, tm: real) {
    predicate Ok() {
      0.0 < dq < 1.0 && 0.0 < sn < 1.0 && tm > 0.0
    }
    function Radicand(): real {
      (tm - dq) * (tm - dq) + (1.0 - dq * dq) * (1.0 - sn * sn)
    }
  }

  /** The denominator of alpha exceeds its numerator, so it is positive and alpha lies strictly in (0, 1). */
  lemma RootDenominator(r: Ratios, root: real, den: real)
    requires r.Ok() && root >= 0.0 && root * root == r.Radicand()
    requires den == r.tm - r.dq * (r.sn * r.sn) + root
    ensures den > r.dq * (1.0 - r.sn * r.sn)
    ensures r.dq * (1.0 - r.sn * r.sn) > 0.0
    ensures den > 0.0
  {
    var s2 := r.sn * r.sn;
    SquareOrder(r.sn, 1.0, s2, 1.0);
    SquareOrder(r.dq, 1.0, r.dq * r.dq, 1.0);
    PositiveProduct(1.0 - r.dq * r.dq, 1.0 - s2, (1.0 - r.dq * r.dq) * (1.0 - s2));
    var u := Abs(r.tm - r.dq);
    SquareAbs(r.tm - r.dq);
    SquareOrder(u, root, u * u, r.Radicand());
    PositiveProduct(r.dq, 1.0 - s2, r.dq * (1.0 - s2));
    assert r.dq * (1.0 - s2) == r.dq - r.dq * s2;
  }

  /** With p p + c k = root root and beta (p + root) = c, beta solves k beta^2 + 2 p beta = c. */
  lemma QuadraticRoot(p: real, k: real, c: real, root: real, beta: real)
    requires root * root == p * p + c * k && p + root != 0.0 && beta * (p + root) == c
    ensures k * (beta * beta) + 2.0 * (p * beta) == c
  {
    var den := p + root;
    var e := k * (beta * beta) + 2.0 * (p * beta) - c;
    // e den^2 = c (k c + 2 p den - den^2) = 0
    assert beta * beta * (den * den) == c * c;
    assert e * (den * den) == k * (c * c) + 2.0 * (p * c * den) - c * (den * den) by {
      assert k * (beta * beta) * (den * den) == k * (beta * beta * (den * den));
      assert p * beta * (den * den) == p * (beta * den) * den;
    }
    assert den * den == p * p + 2.0 * (p * root) + root * root;
    assert p * c * den == c * (p * p) + c * (p * root);
    assert k * (c * c) == c * (c * k);
    assert c * (den * den) == c * (p * p) + 2.0 * (c * (p * root)) + c * (root * root);
    assert c * (root * root) == c * (p * p) + c * (c * k);
    assert e * (den * den) == 0.0;
    var den2 := den * den;
    SquareSign(den, den2);
    assert e == (e * den2) / den2;
  }

  /** alpha places the second leg exactly on the boundary, in units of delta. */
  lemma BoundaryRoot(r: Ratios, root: real, alpha: real, beta: real, e: real)
    requires r.Ok() && root >= 0.0 && root * root == r.Radicand()
    requires alpha == r.dq * beta && e == 1.0 - alpha
    requires beta * (r.tm - r.dq * (r.sn * r.sn) + root) == 1.0 - r.sn * r.sn
    ensures e * e * (r.sn * r.sn) + 2.0 * (e * beta * r.tm) + beta * beta == 1.0
  {
    var s2 := r.sn * r.sn;
    var p := r.tm - r.dq * s2;
    var k := r.dq * r.dq * s2 - 2.0 * (r.tm * r.dq) + 1.0;
    RootDenominator(r, root, p + root);
    RadicandForms(r.tm, r.dq, s2);
    QuadraticRoot(p, k, 1.0 - s2, root, beta);
    RootInAlpha(r.tm, r.dq, s2, beta, alpha, e, p, k);
  }

  lemma RootInAlpha(tm: real, dq: real, s2: real, beta: real, alpha: real, e: real, p: real, k: real)
    requires alpha == dq * beta && e == 1.0 - alpha
    requires p == tm - dq * s2 && k == dq * dq * s2 - 2.0 * (tm * dq) + 1.0
    requires k * (beta * beta) + 2.0 * (p * beta) == 1.0 - s2
    ensures e * e * s2 + 2.0 * (e * beta * tm) + beta * beta == 1.0
  {
    var b2 := beta * beta;
    assert alpha * alpha == dq * dq * b2;
    assert e * e * s2 == s2 - 2.0 * (dq * s2 * beta) + dq * dq * s2 * b2;
    assert e * beta * tm == tm * beta - tm * dq * b2;
    assert k * b2 == dq * dq * s2 * b2 - 2.0 * (tm * dq * b2) + b2;
    assert p * beta == tm * beta - dq * s2 * beta;
  }

  lemma RadicandForms(tm: real, dq: real, s2: real)
    ensures (tm - dq) * (tm - dq) + (1.0 - dq * dq) * (1.0 - s2)
         == (tm - dq * s2) * (tm - dq * s2) + (1.0 - s2) * (dq * dq * s2 - 2.0 * (tm * dq) + 1.0)
  {
    var d2 := dq * dq;
    var td := tm * dq;
    assert (tm - dq) * (tm - dq) == tm * tm - 2.0 * td + d2;
    assert (tm - dq * s2) * (tm - dq * s2) == tm * tm - 2.0 * (td * s2) + d2 * s2 * s2;
    assert (1.0 - s2) * (d2 * s2 - 2.0 * td + 1.0) == d2 * s2 - 2.0 * td + 1.0 - d2 * s2 * s2 + 2.0 * (td * s2) - s2;
  }
}
