/** The damped normal equations that lmpar solves, and how their solution depends on the damping. */
module Levenberg {
  import opened Reals
  import opened Vectors
  import opened Machines
  import opened DoglegPath
  import opened Dogleg
  import opened Qrsolv

  /** z solves (transpose(R) R + par D^2) z = transpose(R) b. */
  ghost predicate Damped(r: Mat, d: Vec, b: Vec, z: Vec, par: real) {
    && IsMat(r, |z|, |z|) && |d| == |b| == |z|
    && Axpy(par, Times(d, Times(d, z)), Comb(Mul(r, z), r, |z|)) == Comb(b, r, |z|)
  }

  /** qrsolv's rows t D below R are the damping t^2. */
  lemma AugmentedIsDamped(r: Mat, d: Vec, b: Vec, z: Vec, t: real, par: real)
    requires |d| == |z| && Augmented(r, Scale(t, d), b, z) && t * t == par
    ensures Damped(r, d, b, z, par)
  {
    var e := Scale(t, d);
    ScaledSquares(t, par, d, z, e, Times(Times(e, e), z), Comb(Mul(r, z), r, |z|));
  }

  lemma ScaledSquares(t: real, par: real, d: Vec, z: Vec, e: Vec, f: Vec, c: Vec)
    requires |d| == |z| == |e| == |f| == |c| && t * t == par && e == Scale(t, d) && f == Times(Times(e, e), z)
    ensures Axpy(par, Times(d, Times(d, z)), c) == Axpy(1.0, f, c)
  {
    var dz, ee := Times(d, z), Times(e, e);
    var ddz := Times(d, dz);
    forall i | 0 <= i < |z|
      ensures f[i] == par * ddz[i]
    {
      ScaledSquareTerm(t, par, d[i], z[i], e[i], dz[i], ee[i], ddz[i], f[i]);
    }
    hide Times, Scale, Axpy;
    SameAxpy(par, ddz, f, c);
  }

  lemma SameAxpy(par: real, g: Vec, f: Vec, c: Vec)
    requires |f| == |g| == |c| && forall i :: 0 <= i < |f| ==> f[i] == par * g[i]
    ensures Axpy(par, g, c) == Axpy(1.0, f, c)
  {
  }

  lemma ScaledSquareTerm(t: real, par: real, d: real, z: real, e: real, dz: real, ee: real, ddz: real, f: real)
    requires t * t == par && e == t * d && dz == d * z && ee == e * e && ddz == d * dz && f == ee * z
    ensures f == par * ddz
  {
    assert ee == par * (d * d) by {
      assert (t * d) * (t * d) == (t * t) * (d * d);
    }
    assert (par * (d * d)) * z == par * (d * (d * z));
  }

  /** <D^2 z, y> = <D z, D y> */
  lemma ScaleMoves(d: Vec, z: Vec, y: Vec)
    requires |d| == |z| == |y|
    ensures Dot(Times(d, Times(d, z)), y) == Dot(Times(d, z), Times(d, y))
  {
    forall i | 0 <= i < |d|
      ensures Times(d, Times(d, z))[i] * y[i] == Times(d, z)[i] * Times(d, y)[i]
    {
      MovedScale(d[i], Times(d, z)[i], y[i]);
    }
    DotRCong(Times(d, Times(d, z)), y, Times(d, z), Times(d, y), 0, |d|);
  }

  lemma MovedScale(d: real, u: real, y: real)
    ensures (d * u) * y == u * (d * y)
  {
  }

  /** The damped equations against a vector y. */
  lemma DampedAgainst(r: Mat, d: Vec, b: Vec, z: Vec, par: real, y: Vec)
    requires Damped(r, d, b, z, par) && |y| == |z|
    ensures Dot(Mul(r, z), Mul(r, y)) + par * Dot(Times(d, z), Times(d, y)) == Dot(b, Mul(r, y))
  {
    hide Dot, Mul, Times, Comb, Axpy;
    DotAxpy(par, Times(d, Times(d, z)), Comb(Mul(r, z), r, |z|), y);
    Adjoint(Mul(r, z), r, y);
    Adjoint(b, r, y);
    ScaleMoves(d, z, y);
  }

  /** <b, R z> = |R z|^2 + par |D z|^2: what one step takes off the model, split in its two parts. */
  lemma Energy(r: Mat, d: Vec, b: Vec, z: Vec, par: real)
    requires Damped(r, d, b, z, par)
    ensures Dot(b, Mul(r, z)) == Dot(Mul(r, z), Mul(r, z)) + par * Dot(Times(d, z), Times(d, z))
  {
    DampedAgainst(r, d, b, z, par, z);
  }

  // ---- the upper bound ----

  /** inverse(D) g */
  function Divided(g: Vec, d: Vec): (v: Vec)
    requires |g| == |d| && forall i :: 0 <= i < |d| ==> d[i] != 0.0
    ensures |v| == |g| && forall i :: 0 <= i < |g| ==> v[i] == g[i] / d[i]
  {
    seq(|g|, i requires 0 <= i < |g| == |d| && d[i] != 0.0 => g[i] / d[i])
  }

  lemma DividedTimes(g: Vec, d: Vec, y: Vec)
    requires |g| == |d| == |y| && forall i :: 0 <= i < |d| ==> d[i] != 0.0
    ensures Dot(Divided(g, d), Times(d, y)) == Dot(g, y)
  {
    forall i | 0 <= i < |g|
      ensures Divided(g, d)[i] * Times(d, y)[i] == g[i] * y[i]
    {
      QuotientMoves(g[i], d[i], y[i], Divided(g, d)[i]);
    }
    DotRCong(Divided(g, d), Times(d, y), g, y, 0, |g|);
  }

  lemma QuotientMoves(g: real, d: real, y: real, q: real)
    requires d != 0.0 && q == g / d
    ensures q * (d * y) == g * y
  {
    assert q * d == g;
    Associate(q, d, g, y);
  }

  lemma Associate(q: real, d: real, g: real, y: real)
    requires q * d == g
    ensures q * (d * y) == g * y
  {
    assert q * (d * y) == (q * d) * y;
  }

  /** par |D z| is at most gnorm = |inverse(D) transpose(R) b|, whatever the damping. */
  lemma DampedLength(mach: Machine, r: Mat, d: Vec, b: Vec, z: Vec, par: real)
    requires mach.Valid() && Damped(r, d, b, z, par) && par >= 0.0 && forall i :: 0 <= i < |d| ==> d[i] != 0.0
    ensures par * ScaledNorm(mach, d, z) <= mach.Norm(Divided(Comb(b, r, |z|), d))
  {
    hide Dot, CombTo, Zero;
    var u, h := Times(d, z), Divided(Comb(b, r, |z|), d);
    Energy(r, d, b, z, par);
    Adjoint(b, r, z);
    DividedTimes(Comb(b, r, |z|), d, z);
    DotNonneg(Mul(r, z));
    CauchySchwarz(h, u);
    var pvv := Dot(h, u) - Dot(Mul(r, z), Mul(r, z));
    LengthBound(par, ScaledNorm(mach, d, z), mach.Norm(h), Dot(u, u), Dot(h, h), Dot(h, u), pvv);
  }

  lemma LengthBound(par: real, v: real, g: real, vv: real, gg: real, gv: real, pvv: real)
    requires par >= 0.0 && v >= 0.0 && g >= 0.0 && vv == v * v && gg == g * g && gv * gv <= gg * vv
    requires pvv == par * vv && pvv <= gv
    ensures par * v <= g
  {
    var t := par * v;
    NonnegProduct(par, v, t);
    if t > g {
      var s := g * v;
      NonnegProduct(g, v, s);
      assert s * s == gg * vv by {
        SquareOfProduct(g, v, gg, vv, s);
      }
      assert pvv == t * v by {
        Associate(par, v, t, v);
      }
      if v > 0.0 {
        ScaleOrder(v, g, t, s, pvv);
        SquareOrder(s, gv, s * s, gv * gv);
      }
    }
  }

  // ---- monotonicity ----

  /** |D z| does not grow with the damping. */
  lemma DampedMonotone(mach: Machine, r: Mat, d: Vec, b: Vec, z: Vec, par: real, z': Vec, par': real)
    requires mach.Valid() && |z| == |z'| && Damped(r, d, b, z, par) && Damped(r, d, b, z', par') && 0.0 <= par < par'
    ensures ScaledNorm(mach, d, z') <= ScaledNorm(mach, d, z)
  {
    hide ScaledNorm, Times, IsMat, Axpy, Comb, Mul, DotR;
    var u, v := Times(d, z), Times(d, z');
    DampedDifference(r, d, b, z, par, z', par', u, v);
    CauchySchwarz(u, v);
    LargerDamping(par, par', ScaledNorm(mach, d, z), ScaledNorm(mach, d, z'), Dot(u, u), Dot(u, v), Dot(v, v));
  }

  /** The two systems against the difference of their solutions. */
  lemma DampedDifference(r: Mat, d: Vec, b: Vec, z: Vec, par: real, z': Vec, par': real, u: Vec, v: Vec)
    requires |z| == |z'| && Damped(r, d, b, z, par) && Damped(r, d, b, z', par') && u == Times(d, z)
    requires v == Times(d, z')
    ensures par * (Dot(u, u) - Dot(u, v)) <= par' * (Dot(u, v) - Dot(v, v))
  {
    hide Times, Dot, Axpy, Mul, Comb, Zero;
    var y := Axpy(-1.0, z', z);
    var w := Axpy(-1.0, v, u);
    MulAxpy(r, -1.0, z', z);
    ScaledDifference(d, z', z);
    var a, e, h := DampedAlong(r, d, b, z, par, y, w);
    var a', e', h' := DampedAlong(r, d, b, z', par', y, w);
    DifferenceProducts(u, v, w, e, e');
    DotAxpy(-1.0, Mul(r, z'), Mul(r, z), Mul(r, y));
    DotNonneg(Mul(r, y));
    TwoEquations(a, a', Dot(Mul(r, y), Mul(r, y)), par, e, Dot(u, u) - Dot(u, v), par', e', Dot(u, v) - Dot(v, v), h);
  }

  lemma DifferenceProducts(u: Vec, v: Vec, w: Vec, e: real, e': real)
    requires |u| == |v| && w == Axpy(-1.0, v, u) && e == Dot(u, w) && e' == Dot(v, w)
    ensures e == Dot(u, u) - Dot(u, v) && e' == Dot(u, v) - Dot(v, v)
  {
    DotAxpy(-1.0, v, u, u);
    DotAxpy(-1.0, v, u, v);
    DotCommutes(u, v);
  }

  /** DampedAgainst, its terms by name. */
  lemma DampedAlong(r: Mat, d: Vec, b: Vec, z: Vec, par: real, y: Vec, w: Vec) returns (a: real, e: real, h: real)
    requires Damped(r, d, b, z, par) && |y| == |z| && w == Times(d, y)
    ensures a == Dot(Mul(r, z), Mul(r, y)) && e == Dot(Times(d, z), w) && h == Dot(b, Mul(r, y)) && a + par * e == h
  {
    DampedAgainst(r, d, b, z, par, y);
    a, e, h := Dot(Mul(r, z), Mul(r, y)), Dot(Times(d, z), w), Dot(b, Mul(r, y));
  }

  lemma TwoEquations(a: real, a': real, c: real, p: real, e: real, e2: real, p': real, f: real, f2: real, h: real)
    requires a + p * e == h && a' + p' * f == h && c == a - a' && c >= 0.0 && e == e2 && f == f2
    ensures p * e2 <= p' * f2
  {
  }

  /** D (z - z') = D z - D z' */
  lemma ScaledDifference(d: Vec, z': Vec, z: Vec)
    requires |d| == |z| == |z'|
    ensures Times(d, Axpy(-1.0, z', z)) == Axpy(-1.0, Times(d, z'), Times(d, z))
  {
    forall i | 0 <= i < |d|
      ensures Times(d, Axpy(-1.0, z', z))[i] == Axpy(-1.0, Times(d, z'), Times(d, z))[i]
    {
      ProductOfDifference(d[i], z[i], z'[i], Axpy(-1.0, z', z)[i]);
    }
  }

  lemma ProductOfDifference(d: real, z: real, z': real, y: real)
    requires y == z + -1.0 * z'
    ensures d * y == d * z + -1.0 * (d * z')
  {
  }

  lemma LargerDamping(p: real, p': real, u: real, v: real, uu: real, uv: real, vv: real)
    requires 0.0 <= p < p' && u >= 0.0 && v >= 0.0 && uu == u * u && vv == v * v && uv * uv <= uu * vv
    requires p * (uu - uv) <= p' * (uv - vv)
    ensures v <= u
  {
    if v > u {
      var s := u * v;
      NonnegProduct(u, v, s);
      SquareOfProduct(u, v, uu, vv, s);
      CrossBelow(uv, s, uu * vv);
      LargerStep(p, p', u, v, uu, vv, s);
      Weights(p, p', uu, uv, vv, s);
    }
  }

  /** uv^2 <= s^2 gives uv <= s. */
  lemma CrossBelow(uv: real, s: real, q: real)
    requires uv * uv <= q && s * s == q && s >= 0.0
    ensures uv <= s
  {
    if uv > s {
      SquareOrder(s, uv, s * s, uv * uv);
    }
  }

  lemma LargerStep(p: real, p': real, u: real, v: real, uu: real, vv: real, s: real)
    requires 0.0 <= p < p' && 0.0 <= u < v && uu == u * u && vv == v * v && s == u * v
    ensures p * (uu - s) > p' * (s - vv)
  {
    var w := v - u;
    var vw, uw := v * w, u * w;
    PositiveProduct(v, w, vw);
    PositiveProduct(p' - p, vw, (p' - p) * vw);
    assert vw - uw == w * w;
    SquareSign(w, w * w);
    NonnegProduct(p, vw - uw, p * (vw - uw));
    assert s - vv == -vw && uu - s == -uw;
  }

  /** Raising the inner product keeps the inequality. */
  lemma Weights(p: real, p': real, uu: real, uv: real, vv: real, s: real)
    requires 0.0 <= p <= p' && uv <= s && p * (uu - uv) <= p' * (uv - vv)
    ensures p * (uu - s) <= p' * (s - vv)
  {
    NonnegProduct(p + p', s - uv, (p + p') * (s - uv));
  }

  lemma SameLength(p: real, p': real, u: real, v: real, uu: real, uv: real, vv: real)
    requires 0.0 <= p < p' && v >= 0.0 && u == v && uu == u * u && vv == v * v && uv * uv <= uu * vv
    requires p * (uu - uv) <= p' * (uv - vv)
    ensures uu - 2.0 * uv + vv <= 0.0
  {
    CrossBelow(uv, uu, uu * vv);
    NonnegProduct(p, uu - uv, p * (uu - uv));
    if uv < vv {
      PositiveProduct(p', vv - uv, p' * (vv - uv));
    }
  }

  /** Vectors are equal when the square of their difference is not positive. */
  lemma EqualVectors(u: Vec, v: Vec)
    requires |u| == |v| && Dot(u, u) - 2.0 * Dot(u, v) + Dot(v, v) <= 0.0
    ensures u == v
  {
    var w := Axpy(-1.0, v, u);
    DifferenceProducts(u, v, w, Dot(u, w), Dot(v, w));
    DotAxpy(-1.0, v, u, w);
    DotNonneg(w);
    forall i | 0 <= i < |u|
      ensures u[i] == v[i]
    {
      assert w[i] == 0.0;
    }
  }

  lemma EqualScaled(d: Vec, z: Vec, z': Vec)
    requires |d| == |z| == |z'| && Times(d, z) == Times(d, z') && forall i :: 0 <= i < |d| ==> d[i] != 0.0
    ensures z == z'
  {
    forall i | 0 <= i < |d|
      ensures z[i] == z'[i]
    {
      assert d[i] * z[i] == Times(d, z)[i] == Times(d, z')[i] == d[i] * z'[i];
      SameFactorOut(d[i], z[i], z'[i]);
    }
  }

  lemma SameFactorOut(d: real, x: real, y: real)
    requires d != 0.0 && d * x == d * y
    ensures x == y
  {
    ZeroProduct(d, x - y);
  }

  /** One vector solves for two dampings only if it is zero. */
  lemma TwoDampings(r: Mat, d: Vec, b: Vec, z: Vec, par: real, par': real)
    requires Damped(r, d, b, z, par) && Damped(r, d, b, z, par') && par != par'
    requires forall i :: 0 <= i < |d| ==> d[i] != 0.0
    ensures Comb(b, r, |z|) == Zero(|z|)
  {
    var e, c, g := Times(d, Times(d, z)), Comb(Mul(r, z), r, |z|), Comb(b, r, |z|);
    forall i | 0 <= i < |z|
      ensures z[i] == 0.0
    {
      assert Axpy(par, e, c)[i] == g[i] == Axpy(par', e, c)[i];
      SameFactorOut(par - par', e[i], 0.0);
      ZeroProduct(d[i], Times(d, z)[i]);
      ZeroProduct(d[i], z[i]);
    }
    ZeroSolution(r, d, b, z, par);
  }

  lemma ZeroSolution(r: Mat, d: Vec, b: Vec, z: Vec, par: real)
    requires Damped(r, d, b, z, par) && forall i :: 0 <= i < |z| ==> z[i] == 0.0
    ensures Comb(b, r, |z|) == Zero(|z|)
  {
    assert z == Zero(|z|);
    ZeroImage(r, |z|);
    CombZero(r, |z|);
    forall i | 0 <= i < |z|
      ensures Comb(b, r, |z|)[i] == 0.0
    {
      assert Times(d, Times(d, z))[i] == 0.0;
    }
  }

  lemma ZeroImage(r: Mat, n: nat)
    requires IsMat(r, n, n)
    ensures Mul(r, Zero(n)) == Zero(n)
  {
    forall i | 0 <= i < n
      ensures Mul(r, Zero(n))[i] == 0.0
    {
      DotRZero(r[i], Zero(n), 0, n);
    }
  }

  /** A system whose length depends on the damping: no zero in the scale, and a gradient other than zero. */
  ghost predicate Sloped(r: Mat, d: Vec, b: Vec) {
    && |d| == |b| && IsMat(r, |d|, |d|) && Comb(b, r, |d|) != Zero(|d|)
    && forall i :: 0 <= i < |d| ==> d[i] != 0.0
  }

  /** Then |D z| strictly decreases in the damping. */
  lemma DampedStrict(mach: Machine, r: Mat, d: Vec, b: Vec, z: Vec, par: real, z': Vec, par': real)
    requires mach.Valid() && Sloped(r, d, b) && Damped(r, d, b, z, par) && Damped(r, d, b, z', par')
    requires 0.0 <= par < par'
    ensures ScaledNorm(mach, d, z') < ScaledNorm(mach, d, z)
  {
    hide Damped;
    assert |z| == |z'| == |d| by {
      DampedSizes(r, d, b, z, par);
      DampedSizes(r, d, b, z', par');
    }
    DampedMonotone(mach, r, d, b, z, par, z', par');
    if ScaledNorm(mach, d, z') == ScaledNorm(mach, d, z) {
      var u, v := Times(d, z), Times(d, z');
      DampedDifference(r, d, b, z, par, z', par', u, v);
      CauchySchwarz(u, v);
      SameLength(par, par', ScaledNorm(mach, d, z), ScaledNorm(mach, d, z'), Dot(u, u), Dot(u, v), Dot(v, v));
      EqualVectors(u, v);
      EqualScaled(d, z, z');
      TwoDampings(r, d, b, z, par, par');
    }
  }

  lemma DampedSizes(r: Mat, d: Vec, b: Vec, z: Vec, par: real)
    requires Damped(r, d, b, z, par)
    ensures |z| == |d| == |b| && IsMat(r, |d|, |d|)
  {
  }

  /** A damped solution is not zero when the gradient is not. */
  lemma DampedNonzero(mach: Machine, r: Mat, d: Vec, b: Vec, z: Vec, par: real)
    requires mach.Valid() && Sloped(r, d, b) && Damped(r, d, b, z, par)
    ensures ScaledNorm(mach, d, z) > 0.0
  {
    NormZero(mach, Times(d, z));
    if ScaledNorm(mach, d, z) == 0.0 {
      forall i | 0 <= i < |z|
        ensures z[i] == 0.0
      {
        assert Times(d, z)[i] == 0.0;
        ZeroProduct(d[i], z[i]);
      }
      ZeroSolution(r, d, b, z, par);
    }
  }

  /** Every solution for the damping par is at least delta long. */
  ghost predicate Long(mach: Machine, r: Mat, d: Vec, b: Vec, delta: real, par: real)
    requires mach.Valid()
  {
    forall z: Vec {:trigger Damped(r, d, b, z, par)} :: Damped(r, d, b, z, par) ==> ScaledNorm(mach, d, z) >= delta
  }

  // ---- the lower bound ----

  ghost predicate LowerBounded(s: real, uu: real, delta: real, par: real, yy: real) {
    s * uu <= delta * (par * yy)
  }

  /** When R is nonsingular, R z0 = b and transpose(R) y = D^2 z0, a damping whose solution has length delta is bounded
      below: (|D z0| - delta) |D z0|^2 <= delta par |y|^2. */
  lemma RootAboveLower(mach: Machine, r: Mat, d: Vec, b: Vec, z0: Vec, y: Vec, z: Vec, par: real, delta: real)
    requires mach.Valid() && |z| == |z0| == |y| && Damped(r, d, b, z, par) && par > 0.0 && Mul(r, z0) == b
    requires Comb(y, r, |y|) == Times(d, Times(d, z0))
    requires 0.0 < delta == ScaledNorm(mach, d, z) < ScaledNorm(mach, d, z0)
    ensures LowerBounded(ScaledNorm(mach, d, z0) - delta, ScaledSquare(d, z0), delta, par, Dot(y, y))
  {
    hide Times, Axpy, LowerBounded, ScaledNorm, IsMat, CombTo, DotR, Zero;
    var u, v := Times(d, z0), Times(d, z);
    var w := Axpy(-1.0, v, u);
    var x := Mul(r, Axpy(-1.0, z, z0));
    var bvw := LowerProducts(r, d, b, z0, y, z, par, u, v, w, x);
    CauchySchwarz(x, y);
    CauchySchwarz(u, v);
    DotNonneg(x);
    DotNonneg(y);
    LowerScalar(delta, ScaledNorm(mach, d, z0), par, Dot(y, y), Dot(x, x), Dot(x, y), Dot(u, u), Dot(v, v), Dot(u, v),
                bvw);
  }

  lemma LowerScalar(a: real, l: real, par: real, yy: real, xx: real, xy: real, uu: real, vv: real, uv: real, b: real)
    requires 0.0 < a < l && par > 0.0 && yy >= 0.0 && xx >= 0.0 && xx == par * b && xy == uu - uv && b == uv - vv
    requires vv == a * a && uu == l * l && uv * uv <= uu * vv && xy * xy <= xx * yy
    ensures LowerBounded(l - a, uu, a, par, yy)
  {
    var s, k, m := l - a, par * yy, a * l;
    NonnegProduct(par, yy, k);
    NonnegProduct(a, l, m);
    SquareOfProduct(a, l, vv, uu, m);
    CrossBelow(uv, m, uu * vv);
    NonnegFactor(par, b, xx);
    var am, lm := a * s, l * s;
    assert am == m - vv && lm == uu - m;
    assert b <= am && xy >= lm;
    PositiveProduct(l, s, lm);
    SquareOrder(lm, xy, lm * lm, xy * xy);
    assert xx * yy == b * k by {
      Exchange(par, b, yy, xx, k);
    }
    LowerStep(a, s, k, b, am, lm, uu, l, xx * yy);
  }

  lemma Exchange(par: real, b: real, yy: real, xx: real, k: real)
    requires xx == par * b && k == par * yy
    ensures xx * yy == b * k
  {
    assert (par * b) * yy == b * (par * yy);
  }

  lemma NonnegFactor(p: real, b: real, q: real)
    requires p > 0.0 && q == p * b && q >= 0.0
    ensures b >= 0.0
  {
    if b < 0.0 {
      PositiveProduct(p, -b, -q);
    }
  }

  lemma LowerStep(a: real, s: real, k: real, b: real, am: real, lm: real, uu: real, l: real, q: real)
    requires a > 0.0 && s > 0.0 && k >= 0.0 && 0.0 <= b <= am && am == a * s && lm == l * s && uu == l * l
    requires q == b * k && lm * lm <= q
    ensures s * uu <= a * k
  {
    NonnegProduct(am - b, k, (am - b) * k);
    var t, f := s * uu, a * k;
    assert lm * lm == s * t by {
      SquareOfProduct(l, s, uu, s * s, lm);
      assert uu * (s * s) == s * (s * uu);
    }
    assert am * k == s * f by {
      assert (a * s) * k == s * (a * k);
    }
    ScaleOrder(s, t, f, s * t, s * f);
  }

  lemma LowerProducts(r: Mat, d: Vec, b: Vec, z0: Vec, y: Vec, z: Vec, par: real, u: Vec, v: Vec, w: Vec, x: Vec)
    returns (e: real)
    requires |z| == |z0| == |y| && Damped(r, d, b, z, par) && Mul(r, z0) == b
    requires Comb(y, r, |y|) == Times(d, Times(d, z0))
    requires u == Times(d, z0) && v == Times(d, z) && w == Axpy(-1.0, v, u) && x == Mul(r, Axpy(-1.0, z, z0))
    ensures Dot(x, x) == par * e && e == Dot(u, v) - Dot(v, v)
    ensures Dot(x, y) == Dot(u, u) - Dot(u, v)
  {
    var c := Axpy(-1.0, z, z0);
    MulAxpy(r, -1.0, z, z0);
    ScaledDifference(d, z, z0);
    var a, h;
    a, e, h := DampedAlong(r, d, b, z, par, c, w);
    DotAxpy(-1.0, Mul(r, z), b, x);
    Adjoint(y, r, c);
    DotCommutes(x, y);
    ScaleMoves(d, z0, c);
    DifferenceProducts(u, v, w, Dot(u, w), e);
  }
}
