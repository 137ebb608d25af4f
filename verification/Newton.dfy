/** The Newton correction of the damping: from a damping already tried it never passes a root of |D x| = delta. */
module Newton {
  import opened Reals
  import opened Vectors
  import opened Machines
  import opened DoglegPath
  import opened Dogleg
  import opened Qrsolv
  import opened Levenberg

  /** fp / delta / temp / temp */
  function Step(fp: real, delta: real, temp: real): (c: real)
    requires delta != 0.0 && temp != 0.0
  {
    fp / delta / temp / temp
  }

  lemma StepDefined(fp: real, delta: real, temp: real, c: real)
    requires delta > 0.0 && temp > 0.0 && c == Step(fp, delta, temp)
    ensures (temp * temp) * (delta * c) == fp
    ensures fp > 0.0 ==> c > 0.0
  {
    var a := fp / delta;
    DivisionSign(fp, delta, a);
    var e := a / temp;
    DivisionSign(a, temp, e);
    DivisionSign(e, temp, c);
    StepBack(c, e, a, fp, temp, delta);
  }

  lemma StepBack(c: real, e: real, a: real, fp: real, temp: real, delta: real)
    requires c * temp == e && e * temp == a && a * delta == fp
    ensures (temp * temp) * (delta * c) == fp
  {
    assert (temp * temp) * (delta * c) == ((c * temp) * temp) * delta;
  }

  /** The initial lower bound is below every root. */
  lemma LowerIsBelow(mach: Machine, r: Mat, d: Vec, b: Vec, z0: Vec, y: Vec, q: Vec, delta: real, parl: real, z: Vec,
                     root: real)
    requires mach.Valid() && |z| == |z0| == |y| == |q| && Damped(r, d, b, z, root) && root > 0.0 && Mul(r, z0) == b
    requires Comb(y, r, |y|) == q && Scale(ScaledNorm(mach, d, z0), q) == Times(d, Times(d, z0)) && mach.Norm(y) > 0.0
    requires 0.0 < delta == ScaledNorm(mach, d, z) < ScaledNorm(mach, d, z0)
    requires parl == Step(ScaledNorm(mach, d, z0) - delta, delta, mach.Norm(y))
    ensures parl <= root
  {
    hide Times, Comb, Mul, Dot, Step;
    var u := ScaledNorm(mach, d, z0);
    CombScale(u, y, r, |y|);
    RootAboveLower(mach, r, d, b, z0, Scale(u, y), z, root, delta);
    ScaledTwice(u, y);
    StepDefined(u - delta, delta, mach.Norm(y), parl);
    StepBelow(u, u - delta, delta, mach.Norm(y), parl, root, Dot(y, y), ScaledSquare(d, z0),
              Dot(Scale(u, y), Scale(u, y)));
  }

  lemma ScaledTwice(u: real, y: Vec)
    ensures Dot(Scale(u, y), Scale(u, y)) == u * (u * Dot(y, y))
  {
    DotScale(u, y, Scale(u, y));
    DotScale(u, y, y);
  }

  lemma StepBelow(u: real, s: real, delta: real, t: real, c: real, root: real, yy: real, uu: real, zz: real)
    requires u > 0.0 && delta > 0.0 && t > 0.0 && yy == t * t && uu == u * u && zz == u * (u * yy)
    requires (t * t) * (delta * c) == s && LowerBounded(s, uu, delta, root, zz)
    ensures c <= root
  {
    PositiveProduct(u, u, uu);
    PositiveProduct(t, t, yy);
    var k := yy * delta;
    PositiveProduct(yy, delta, k);
    assert s == k * c;
    var m := uu * k;
    PositiveProduct(uu, k, m);
    assert s * uu == m * c;
    assert delta * (root * zz) == m * root by {
      assert zz == uu * yy;
      assert delta * (root * (uu * yy)) == (uu * (yy * delta)) * root;
    }
    ScaleOrder(m, c, root, m * c, m * root);
  }

  // ---- the triangle of a damped system ----

  /** transpose(S) S = transpose(R) R + par D^2 for an upper triangle S without a zero on its diagonal. */
  ghost predicate DampedTriangle(s: Mat, r: Mat, d: Vec, par: real) {
    && IsMat(r, |d|, |d|) && IsMat(s, |d|, |d|) && UpperTriangular(s) && (forall i :: 0 <= i < |d| ==> s[i][i] != 0.0)
    && Cross(s, |d|) == PlusDiagonal(Cross(r, |d|), Scale(par, Times(d, d)), |d|, |d|)
  }

  /** transpose(S) S z = transpose(R) R z + par D^2 z */
  lemma TriangleTimes(s: Mat, r: Mat, d: Vec, par: real, z: Vec)
    requires DampedTriangle(s, r, d, par) && |z| == |d|
    ensures Comb(Mul(s, z), s, |z|) == Axpy(par, Times(d, Times(d, z)), Comb(Mul(r, z), r, |z|))
  {
    hide Comb, Mul, Cross, PlusDiagonal, UpperTriangular;
    var e := Scale(par, Times(d, d));
    forall i | 0 <= i < |z|
      ensures Comb(Mul(s, z), s, |z|)[i] == Axpy(par, Times(d, Times(d, z)), Comb(Mul(r, z), r, |z|))[i]
    {
      SolutionEntry(s, r, e, z, |z|, i, e[i] * z[i]);
      DampingTerm(par, d[i], z[i], e[i], Times(d, Times(d, z))[i]);
    }
  }

  lemma DampingTerm(par: real, d: real, z: real, e: real, t: real)
    requires e == par * (d * d) && t == d * (d * z)
    ensures e * z == par * t
  {
    assert (par * (d * d)) * z == par * (d * (d * z));
  }

  /** <S z, S y> = <R z, R y> + par <D z, D y> */
  lemma TriangleProduct(s: Mat, r: Mat, d: Vec, par: real, z: Vec, y: Vec)
    requires DampedTriangle(s, r, d, par) && |z| == |y| == |d|
    ensures Dot(Mul(s, z), Mul(s, y)) == Dot(Mul(r, z), Mul(r, y)) + par * Dot(Times(d, z), Times(d, y))
  {
    hide Times, Comb, Mul, Axpy, Cross, PlusDiagonal, UpperTriangular;
    TriangleTimes(s, r, d, par, z);
    Adjoint(Mul(s, z), s, y);
    Adjoint(Mul(r, z), r, y);
    DotAxpy(par, Times(d, Times(d, z)), Comb(Mul(r, z), r, |z|), y);
    ScaleMoves(d, z, y);
  }

  /** A root above par is a positive damping of the triangle's own system. */
  lemma ShiftedSystem(s: Mat, r: Mat, d: Vec, b: Vec, par: real, z: Vec, z': Vec, root: real)
    requires DampedTriangle(s, r, d, par) && |z| == |z'| == |d| && Damped(r, d, b, z, par) && Damped(r, d, b, z', root)
    ensures Damped(s, d, Mul(s, z), z', root - par)
  {
    TriangleTimes(s, r, d, par, z);
    TriangleTimes(s, r, d, par, z');
    var e, g := Times(d, Times(d, z')), Comb(Mul(r, z'), r, |d|);
    AddedDamping(par, root - par, root, e, g);
  }

  lemma AddedDamping(p: real, t: real, q: real, e: Vec, g: Vec)
    requires |e| == |g| && p + t == q
    ensures Axpy(t, e, Axpy(p, e, g)) == Axpy(q, e, g)
  {
    forall i | 0 <= i < |e|
      ensures Axpy(t, e, Axpy(p, e, g))[i] == Axpy(q, e, g)[i]
    {
      AddedTerm(p, t, q, e[i], g[i]);
    }
  }

  lemma AddedTerm(p: real, t: real, q: real, e: real, g: real)
    requires p + t == q
    ensures g + p * e + t * e == g + q * e
  {
  }

  /** A nonsingular upper triangle can be solved for any right side. */
  lemma UpperSolvable(s: Mat, w: Vec) returns (y: Vec)
    requires IsMat(s, |w|, |w|) && UpperTriangular(s) && forall i :: 0 <= i < |w| ==> s[i][i] != 0.0
    ensures |y| == |w| && Mul(s, y) == w
  {
    y := SolvedFrom(s, w, 0);
    TriangleSolved(s, y, w);
  }

  lemma {:induction false} SolvedFrom(s: Mat, w: Vec, j: nat) returns (y: Vec)
    requires IsMat(s, |w|, |w|) && j <= |w| && forall i :: 0 <= i < |w| ==> s[i][i] != 0.0
    ensures |y| == |w| && forall i :: j <= i < |w| ==> RowSolved(s, y, w, i)
    decreases |w| - j
  {
    if j == |w| {
      y := w;
    } else {
      var x := SolvedFrom(s, w, j + 1);
      var t := (w[j] - DotR(s[j], x, j + 1, |w|)) / s[j][j];
      y := x[j := t];
      assert s[j] == s[j][j := s[j][j]];
      PivotRowSolved(s[j], s[j], j, s[j][j], x, y, DotR(s[j], x, j + 1, |w|), w[j]);
      LaterRowsKept(s, x, y, w, j, |w|);
    }
  }

  // ---- a root below ----

  /** n solves (transpose(R) R + par D^2) n = D x, against every vector. */
  ghost predicate Solves(r: Mat, d: Vec, par: real, n: Vec, x: Vec) {
    && |n| == |x| == |d| && IsMat(r, |d|, |d|)
    && Axpy(par, Times(d, Times(d, n)), Comb(Mul(r, n), r, |d|)) == Times(d, x)
  }

  lemma SolvesAgainst(r: Mat, d: Vec, par: real, n: Vec, x: Vec, y: Vec)
    requires Solves(r, d, par, n, x) && |y| == |d|
    ensures Dot(Mul(r, n), Mul(r, y)) + par * Dot(Times(d, n), Times(d, y)) == Dot(x, Times(d, y))
  {
    hide Dot, Mul, Times, Comb, Axpy;
    DotAxpy(par, Times(d, Times(d, n)), Comb(Mul(r, n), r, |d|), y);
    Adjoint(Mul(r, n), r, y);
    ScaleMoves(d, n, y);
    ScaleAcross(d, x, y);
  }

  /** <D x, y> = <x, D y> */
  lemma ScaleAcross(d: Vec, x: Vec, y: Vec)
    requires |d| == |x| == |y|
    ensures Dot(Times(d, x), y) == Dot(x, Times(d, y))
  {
    forall i | 0 <= i < |d|
      ensures Times(d, x)[i] * y[i] == x[i] * Times(d, y)[i]
    {
      MovedScale(d[i], x[i], y[i]);
    }
    DotRCong(Times(d, x), y, x, Times(d, y), 0, |d|);
  }

  /** Solutions combine. */
  lemma SolvesBlend(r: Mat, d: Vec, par: real, n: Vec, x: Vec, m: Vec, y: Vec, k: real, l: real)
    requires Solves(r, d, par, n, x) && Solves(r, d, par, m, y)
    ensures Solves(r, d, par, Blend(k, n, l, m), Blend(k, x, l, y))
  {
    var f, g := Blend(k, n, l, m), Blend(k, x, l, y);
    BlendImage(r, n, m, k, l);
    BlendComb(r, Mul(r, n), Mul(r, m), k, l, |d|);
    BlendScale(d, n, m, k, l);
    BlendScale(d, Times(d, n), Times(d, m), k, l);
    BlendScale(d, x, y, k, l);
    var en, em, cn, cm := Times(d, Times(d, n)), Times(d, Times(d, m)), Comb(Mul(r, n), r, |d|), Comb(Mul(r, m), r,
                                                                                                      |d|);
    BlendEquation(par, k, l, en, cn, em, cm, Times(d, x), Times(d, y));
    assert Times(d, Times(d, f)) == Blend(k, en, l, em) && Comb(Mul(r, f), r, |d|) == Blend(k, cn, l, cm);
  }

  lemma BlendEquation(par: real, k: real, l: real, e: Vec, c: Vec, e': Vec, c': Vec, x: Vec, y: Vec)
    requires |e| == |c| == |e'| == |c'| == |x| == |y| && Axpy(par, e, c) == x && Axpy(par, e', c') == y
    ensures Axpy(par, Blend(k, e, l, e'), Blend(k, c, l, c')) == Blend(k, x, l, y)
  {
    hide Axpy, Blend;
    var f, h, g := Blend(k, e, l, e'), Blend(k, c, l, c'), Blend(k, x, l, y);
    forall i | 0 <= i < |e|
      ensures Axpy(par, f, h)[i] == g[i]
    {
      assert Axpy(par, e, c)[i] == x[i] && Axpy(par, e', c')[i] == y[i];
      BlendTerm(par, k, l, e[i], c[i], e'[i], c'[i], x[i], y[i], f[i], h[i], g[i]);
    }
  }

  lemma BlendTerm(p: real, k: real, l: real, e: real, c: real, e': real, c': real, x: real, y: real, f: real, h: real,
                  g: real)
    requires c + p * e == x && c' + p * e' == y && f == k * e + l * e' && h == k * c + l * c' && g == k * x + l * y
    ensures h + p * f == g
  {
    assert p * (k * e) == k * (p * e) && p * (l * e') == l * (p * e');
    assert p * f == p * (k * e) + p * (l * e');
  }

  lemma BlendImage(r: Mat, n: Vec, m: Vec, k: real, l: real)
    requires |n| == |m| && IsMat(r, |n|, |n|)
    ensures Mul(r, Blend(k, n, l, m)) == Blend(k, Mul(r, n), l, Mul(r, m))
  {
    MulAxpy(r, l, m, Scale(k, n));
    MulScale(r, k, n);
  }

  lemma BlendScale(d: Vec, n: Vec, m: Vec, k: real, l: real)
    requires |d| == |n| == |m|
    ensures Times(d, Blend(k, n, l, m)) == Blend(k, Times(d, n), l, Times(d, m))
  {
    BlendTimes(d, n, m, k, l);
  }

  lemma BlendComb(r: Mat, x: Vec, y: Vec, k: real, l: real, n: nat)
    requires |x| == |y| == n && IsMat(r, n, n)
    ensures Comb(Blend(k, x, l, y), r, n) == Blend(k, Comb(x, r, n), l, Comb(y, r, n))
  {
    forall j | 0 <= j < n
      ensures Comb(Blend(k, x, l, y), r, n)[j] == Blend(k, Comb(x, r, n), l, Comb(y, r, n))[j]
    {
      CombAt(Blend(k, x, l, y), r, n, j);
      CombAt(x, r, n, j);
      CombAt(y, r, n, j);
      var xz, yz := DotBlend(k, x, l, y, Col(r, j));
    }
  }

  /** The form |x|^2 - rho <D n, x> is not negative while par - rho is a damping. */
  lemma FormNonneg(r: Mat, d: Vec, par: real, rho: real, n: Vec, x: Vec, xx: real, nx: real)
    requires Solves(r, d, par, n, x) && 0.0 < rho <= par && xx == Dot(x, x) && nx == Dot(Times(d, n), x)
    ensures xx - rho * nx >= 0.0
  {
    var u := Times(d, n);
    SolvesAgainst(r, d, par, n, x, n);
    DotNonneg(Mul(r, n));
    DotNonneg(u);
    DotNonneg(x);
    DotCommutes(u, x);
    CauchySchwarz(u, x);
    FormScalar(par, rho, Dot(Mul(r, n), Mul(r, n)), Dot(u, u), xx, nx);
  }

  lemma FormScalar(par: real, rho: real, rr: real, uu: real, xx: real, e: real)
    requires 0.0 < rho <= par && rr >= 0.0 && uu >= 0.0 && xx >= 0.0 && rr + par * uu == e && e * e <= uu * xx
    ensures xx - rho * e >= 0.0
  {
    NonnegProduct(par - rho, uu, (par - rho) * uu);
    var t := rho * uu;
    NonnegProduct(rho, uu, t);
    NonnegProduct(e - t, xx, (e - t) * xx);
    NonnegProduct(rho, uu * xx - e * e, rho * (uu * xx - e * e));
    assert rho * (uu * xx) == t * xx && rho * (e * e) == e * (rho * e);
    AboveProduct(e, rho * e, xx);
  }

  lemma AboveProduct(e: real, p: real, x: real)
    requires e >= 0.0 && e * p <= e * x && x >= 0.0 && (e == 0.0 ==> p == 0.0)
    ensures p <= x
  {
    if e > 0.0 {
      ScaleOrder(e, p, x, e * p, e * x);
    }
  }

  /** D (z' - z) solved for: (transpose(R) R + par D^2) (z' - z) = (par - root) D^2 z'. */
  lemma DifferenceSolves(r: Mat, d: Vec, b: Vec, z: Vec, par: real, z': Vec, root: real, w: Vec, x: Vec)
    requires |z| == |z'| == |d| && Damped(r, d, b, z, par) && Damped(r, d, b, z', root)
    requires w == Axpy(-1.0, z, z') && x == Scale(par - root, Times(d, z'))
    ensures Solves(r, d, par, w, x)
  {
    MulAxpy(r, -1.0, z, z');
    CombAxpy(-1.0, Mul(r, z), Mul(r, z'), r, |d|);
    ScaledDifference(d, z, z');
    ScaledDifference(d, Times(d, z), Times(d, z'));
    var e, e', c, c' := Times(d, Times(d, z)), Times(d, Times(d, z')), Comb(Mul(r, z), r, |d|), Comb(Mul(r, z'), r,
                                                                                                     |d|);
    assert Times(d, Times(d, w)) == Axpy(-1.0, e, e') && Comb(Mul(r, w), r, |d|) == Axpy(-1.0, c, c');
    ScaledFactor(d, Times(d, z'), par - root);
    DifferenceEquation(par, root, e, c, e', c', Comb(b, r, |d|));
  }

  lemma ScaledFactor(d: Vec, v: Vec, k: real)
    requires |d| == |v|
    ensures Times(d, Scale(k, v)) == Scale(k, Times(d, v))
  {
    forall i | 0 <= i < |d|
      ensures Times(d, Scale(k, v))[i] == Scale(k, Times(d, v))[i]
    {
      SwapFactor(d[i], k, v[i]);
    }
  }

  lemma SwapFactor(d: real, k: real, v: real)
    ensures d * (k * v) == k * (d * v)
  {
  }

  lemma DifferenceEquation(p: real, q: real, e: Vec, c: Vec, e': Vec, c': Vec, g: Vec)
    requires |e| == |c| == |e'| == |c'| == |g| && Axpy(p, e, c) == g && Axpy(q, e', c') == g
    ensures Axpy(p, Axpy(-1.0, e, e'), Axpy(-1.0, c, c')) == Scale(p - q, e')
  {
    var f, h := Axpy(-1.0, e, e'), Axpy(-1.0, c, c');
    forall i | 0 <= i < |e|
      ensures Axpy(p, f, h)[i] == Scale(p - q, e')[i]
    {
      DifferenceTerm(p, q, e[i], c[i], e'[i], c'[i], Axpy(p, e, c)[i], f[i], h[i]);
    }
  }

  lemma DifferenceTerm(p: real, q: real, e: real, c: real, e': real, c': real, g: real, f: real, h: real)
    requires g == c + p * e && g == c' + q * e' && f == e' + -1.0 * e && h == c' + -1.0 * c
    ensures h + p * f == (p - q) * e'
  {
    assert p * f == p * e' - p * e;
  }

  /** The products behind the form: k = rho <D s, u>, where s solves for u, and w for rho v, with D w = v - u. */
  ghost predicate FormProducts(d: Vec, s: Vec, w: Vec, u: Vec, v: Vec, rho: real, eu: real, ev: real, k: real) {
    && |s| == |w| == |u| == |v| == |d| && Times(d, w) == Axpy(-1.0, u, v)
    && eu == Dot(Times(d, s), u) && ev == Dot(Times(d, s), v) && rho * eu == k && rho * ev == Dot(u, v) - Dot(u, u)
  }

  /** The form on a combination of the two solutions. */
  lemma FormAlong(r: Mat, d: Vec, par: real, rho: real, s: Vec, w: Vec, u: Vec, v: Vec, eu: real, ev: real, k: real,
                  a: real, g: real)
    requires Solves(r, d, par, s, u) && Solves(r, d, par, w, Scale(rho, v)) && 0.0 < rho <= par
    requires FormProducts(d, s, w, u, v, rho, eu, ev, k)
    ensures Quad(a, g, Dot(u, u) - k, Dot(u, u), Dot(u, v)) >= 0.0
  {
    var c := g / rho;
    var n, x := Blend(a, s, c, w), Blend(a, u, c, Scale(rho, v));
    var e, f, m := Times(d, s), Times(d, w), Times(d, n);
    var uu, uv, vv, fu, fv, ux, vx, xx, nx := Dot(u, u), Dot(u, v), Dot(v, v), Dot(f, u), Dot(f, v), Dot(m, u), Dot(m,
        v), Dot(x, x), Dot(m, x);
    SolvesBlend(r, d, par, s, u, w, Scale(rho, v), a, c);
    FormNonneg(r, d, par, rho, n, x, xx, nx);
    BlendScale(d, s, w, a, c);
    CombinedPoint(u, v, a, c, rho, g, x);
    DifferenceDots(u, v, f);
    BlendDot(a, e, c, f, u, eu, fu, ux);
    BlendDot(a, e, c, f, v, ev, fv, vx);
    DotCommutes(m, x);
    DotCommutes(m, u);
    DotCommutes(m, v);
    BlendDot(a, u, g, v, m, ux, vx, nx);
    BlendSquare(a, u, g, v, uu, uv, vv);
    FormExpands(a, c, g, rho, k, uu, uv, vv, eu, ev, fu, fv, ux, vx, xx, nx);
  }

  lemma BlendDot(s: real, x: Vec, t: real, y: Vec, z: Vec, xz: real, yz: real, p: real)
    requires |x| == |y| == |z| && xz == Dot(x, z) && yz == Dot(y, z) && p == Dot(Axpy(t, y, Scale(s, x)), z)
    ensures p == s * xz + t * yz
  {
    var a, b := DotBlend(s, x, t, y, z);
  }

  lemma DifferenceDots(u: Vec, v: Vec, f: Vec)
    requires |u| == |v| && f == Axpy(-1.0, u, v)
    ensures Dot(f, u) == Dot(u, v) - Dot(u, u) && Dot(f, v) == Dot(v, v) - Dot(u, v)
  {
    DotAxpy(-1.0, u, v, u);
    DotAxpy(-1.0, u, v, v);
    DotCommutes(u, v);
  }

  lemma CombinedPoint(u: Vec, v: Vec, a: real, c: real, rho: real, g: real, x: Vec)
    requires |u| == |v| && rho != 0.0 && c == g / rho && x == Blend(a, u, c, Scale(rho, v))
    ensures x == Axpy(g, v, Scale(a, u))
  {
    assert c * rho == g;
    forall i | 0 <= i < |u|
      ensures x[i] == Axpy(g, v, Scale(a, u))[i]
    {
      Associate(c, rho, g, v[i]);
    }
  }

  lemma FormExpands(a: real, c: real, g: real, rho: real, k: real, uu: real, uv: real, vv: real, eu: real, ev: real,
                    fu: real, fv: real, ux: real, vx: real, xx: real, nx: real)
    requires c * rho == g && rho * eu == k && rho * ev == fu && fu == uv - uu && fv == vv - uv
    requires ux == a * eu + c * fu && vx == a * ev + c * fv && nx == a * ux + g * vx
    requires xx == Quad(a, g, uu, uv, vv) && xx - rho * nx >= 0.0
    ensures Quad(a, g, uu - k, uu, uv) >= 0.0
  {
    var p, q := rho * ux, rho * vx;
    assert p == a * k + g * fu by {
      ScaledPair(rho, a, eu, c, fu, ux, k, g * fu);
    }
    assert q == a * fu + g * fv by {
      ScaledPair(rho, a, ev, c, fv, vx, fu, g * fv);
    }
    assert rho * nx == a * p + g * q;
    assert a * p == a * a * k + a * g * fu && g * q == a * g * fu + g * g * fv;
  }

  lemma ScaledPair(rho: real, a: real, e: real, c: real, f: real, x: real, k: real, gf: real)
    requires x == a * e + c * f && rho * e == k && gf == (c * rho) * f
    ensures rho * x == a * k + gf
  {
    assert rho * (a * e) == a * (rho * e) && rho * (c * f) == (c * rho) * f;
  }

  /** A form that is nowhere negative has no positive discriminant. */
  lemma Discriminant(a: real, b: real, c: real)
    requires b > 0.0 && Quad(0.0, 1.0, a, b, c) >= 0.0
    requires Quad(1.0, -(a + 1.0) / (2.0 * b), a, b, c) >= 0.0
    requires c > 0.0 ==> Quad(1.0, -b / c, a, b, c) >= 0.0
    ensures c > 0.0 && b * b <= a * c
  {
    var t := -(a + 1.0) / (2.0 * b);
    assert t * (2.0 * b) == -(a + 1.0);
    SquareSign(t, t * t);
    assert Quad(0.0, 1.0, a, b, c) == c;
    assert Quad(1.0, t, a, b, c) == a + t * (2.0 * b) + (t * t) * c;
    if c > 0.0 {
      CauchySchwarzScalar(a, b, c, -b / c);
    }
  }

  /** The form is not negative on the two solutions; k = rho |Y|^2 where transpose(S) Y = D^2 z. */
  lemma FormHolds(s: Mat, r: Mat, d: Vec, b: Vec, z: Vec, par: real, z': Vec, root: real, y: Vec, rho: real, yy: real,
                  k: real, uu: real, uv: real, a: real, g: real)
    requires DampedTriangle(s, r, d, par) && |z| == |z'| == |y| == |d| && Damped(r, d, b, z, par)
    requires Damped(r, d, b, z', root)
    requires 0.0 < root < par && Comb(y, s, |d|) == Times(d, Times(d, z)) && yy == Dot(y, y) && rho == par - root
    requires k == rho * yy
    requires uu == Dot(Times(d, z), Times(d, z)) && uv == Dot(Times(d, z), Times(d, z'))
    ensures Quad(a, g, uu - k, uu, uv) >= 0.0
  {
    var u, v := Times(d, z), Times(d, z');
    var e := UpperSolvable(s, y);
    TriangleTimes(s, r, d, par, e);
    assert Solves(r, d, par, e, u);
    var w := Axpy(-1.0, z, z');
    DifferenceSolves(r, d, b, z, par, z', root, w, Scale(rho, v));
    ScaledDifference(d, z, z');
    TriangleProduct(s, r, d, par, e, e);
    SolvesAgainst(r, d, par, e, u, e);
    DotCommutes(u, Times(d, e));
    var ev := Dot(Times(d, e), v);
    CrossedProducts(r, d, par, rho, e, w, u, v, ev);
    FormAlong(r, d, par, rho, e, w, u, v, yy, ev, k, a, g);
  }

  /** rho <D s, v> = <D w, u>: each is the product of the two solutions in the damped system. */
  lemma CrossedProducts(r: Mat, d: Vec, par: real, rho: real, s: Vec, w: Vec, u: Vec, v: Vec, ev: real)
    requires Solves(r, d, par, s, u) && Solves(r, d, par, w, Scale(rho, v)) && |u| == |v| == |d|
    requires Times(d, w) == Axpy(-1.0, u, v)
    requires ev == Dot(Times(d, s), v)
    ensures rho * ev == Dot(u, v) - Dot(u, u)
  {
    SolvesAgainst(r, d, par, s, u, w);
    SolvesAgainst(r, d, par, w, Scale(rho, v), s);
    DotCommutes(Mul(r, s), Mul(r, w));
    DotCommutes(Times(d, s), Times(d, w));
    DotScale(rho, v, Times(d, s));
    DotCommutes(v, Times(d, s));
    DifferenceDots(u, v, Times(d, w));
    DotCommutes(u, Times(d, w));
  }

  /** The discriminant of the form. */
  lemma RootForm(s: Mat, r: Mat, d: Vec, b: Vec, z: Vec, par: real, z': Vec, root: real, y: Vec, rho: real, yy: real,
                 k: real, p: real, uu: real, uv: real)
    requires DampedTriangle(s, r, d, par) && |z| == |z'| == |y| == |d| && Damped(r, d, b, z, par)
    requires Damped(r, d, b, z', root)
    requires 0.0 < root < par && Comb(y, s, |d|) == Times(d, Times(d, z)) && yy == Dot(y, y) && rho == par - root
    requires k == rho * yy
    requires uu == Dot(Times(d, z), Times(d, z)) && uv == Dot(Times(d, z), Times(d, z')) && p == uu - k && uu > 0.0
    ensures uv > 0.0 && uu * uu <= p * uv
  {
    hide Times, Comb, Damped, DampedTriangle, Dot, Quad;
    FormHolds(s, r, d, b, z, par, z', root, y, rho, yy, k, uu, uv, 0.0, 1.0);
    FormHolds(s, r, d, b, z, par, z', root, y, rho, yy, k, uu, uv, 1.0, -(p + 1.0) / (2.0 * uu));
    if uv > 0.0 {
      FormHolds(s, r, d, b, z, par, z', root, y, rho, yy, k, uu, uv, 1.0, -uu / uv);
    }
    Discriminant(p, uu, uv);
  }

  /** From a damping above a root the Newton correction goes back at most to the root. */
  lemma RootBelow(mach: Machine, s: Mat, r: Mat, d: Vec, b: Vec, z: Vec, par: real, y: Vec, q: Vec, delta: real,
                  c: real, z': Vec, root: real)
    requires mach.Valid() && DampedTriangle(s, r, d, par) && |z| == |z'| == |y| == |q| == |d|
    requires Damped(r, d, b, z, par) && Damped(r, d, b, z', root) && 0.0 < root < par
    requires 0.0 < delta == ScaledNorm(mach, d, z') && ScaledNorm(mach, d, z) > 0.0 && mach.Norm(y) > 0.0
    requires Comb(y, s, |d|) == q && Scale(ScaledNorm(mach, d, z), q) == Times(d, Times(d, z))
    requires c == Step(ScaledNorm(mach, d, z) - delta, delta, mach.Norm(y))
    ensures par + c <= root
  {
    hide Times, Comb, Damped, Dot, Step, Scale, ScaledNorm, Cross, PlusDiagonal, UpperTriangular;
    StepEquation(ScaledNorm(mach, d, z) - delta, delta, mach.Norm(y), Dot(y, y), c);
    RootBelowFrom(s, r, d, b, z, par, z', root, y, q, ScaledNorm(mach, d, z), delta, Dot(y, y), ScaledSquare(d, z),
                  ScaledSquare(d, z'), c);
  }

  lemma ScaledSide(s: Mat, y: Vec, q: Vec, l: real, e: Vec)
    requires IsMat(s, |y|, |y|) && Comb(y, s, |y|) == q && Scale(l, q) == e
    ensures Comb(Scale(l, y), s, |y|) == e
  {
    CombScale(l, y, s, |y|);
  }

  lemma RootBelowFrom(s: Mat, r: Mat, d: Vec, b: Vec, z: Vec, par: real, z': Vec, root: real, y: Vec, q: Vec, l: real,
                      a: real, yy: real, uu: real, vv: real, c: real)
    requires IsMat(s, |d|, |d|) && DampedTriangle(s, r, d, par) && |z| == |z'| == |y| == |d| && Damped(r, d, b, z, par)
    requires Damped(r, d, b, z', root)
    requires 0.0 < root < par && Comb(y, s, |d|) == q && Scale(l, q) == Times(d, Times(d, z)) && yy == Dot(y, y) > 0.0
    requires uu == ScaledSquare(d, z) == l * l && vv == ScaledSquare(d, z') == a * a && l > 0.0 && a > 0.0
    requires yy * (a * c) == l - a
    ensures c <= root - par
  {
    hide Times, Comb, Damped, DampedTriangle, Dot, Scale;
    var x, uv, rho := Scale(l, y), Dot(Times(d, z), Times(d, z')), par - root;
    ScaledSide(s, y, q, l, Times(d, Times(d, z)));
    var xx := Dot(x, x);
    var k := rho * xx;
    ScaledTwiceAs(l, y, yy, xx);
    CrossAtMost(Times(d, z), Times(d, z'), uu, uv, vv);
    PositiveProduct(l, l, uu);
    RootForm(s, r, d, b, z, par, z', root, x, rho, xx, k, uu - k, uu, uv);
    RootBelowScalar(l, a, rho, yy, xx, k, uu - k, uu, uv, vv, c);
  }

  lemma ScaledTwiceAs(u: real, y: Vec, yy: real, zz: real)
    requires yy == Dot(y, y) && zz == Dot(Scale(u, y), Scale(u, y))
    ensures zz == u * (u * yy)
  {
    ScaledTwice(u, y);
  }

  lemma CrossAtMost(x: Vec, y: Vec, xx: real, xy: real, yy: real)
    requires |x| == |y| && xx == Dot(x, x) && xy == Dot(x, y) && yy == Dot(y, y)
    ensures xy * xy <= xx * yy
  {
    CauchySchwarz(x, y);
  }

  lemma StepEquation(fp: real, delta: real, temp: real, yy: real, c: real)
    requires delta > 0.0 && temp > 0.0 && c == Step(fp, delta, temp) && yy == temp * temp
    ensures yy > 0.0 && yy * (delta * c) == fp
  {
    PositiveProduct(temp, temp, yy);
    StepDefined(fp, delta, temp, c);
  }

  lemma RootBelowScalar(l: real, a: real, rho: real, yy: real, xx: real, k: real, p: real, uu: real, uv: real, vv: real,
                        c: real)
    requires l > 0.0 && a > 0.0 && rho > 0.0 && yy > 0.0 && xx == l * (l * yy) && k == rho * xx && uu == l * l
    requires vv == a * a
    requires p == uu - k && uv > 0.0 && uu * uu <= p * uv && uv * uv <= uu * vv && yy * (a * c) == l - a
    ensures c <= -rho
  {
    PositiveProduct(l, l, uu);
    var m := a * l;
    PositiveProduct(a, l, m);
    SquareOfProduct(a, l, vv, uu, m);
    CrossBelow(uv, m, uu * vv);
    PositiveProduct(uu, uu, uu * uu);
    PositiveFactor(p, uv);
    NonnegProduct(p, m - uv, p * (m - uv));
    assert p * m >= uu * uu;
    var t := rho * yy;
    assert k == uu * t by {
      assert rho * (l * (l * yy)) == (l * l) * (rho * yy);
    }
    ShrinkOnce(l, a, t, uu, k, p, m);
    BelowRoot(a, yy, t, rho, c, l - a);
  }

  lemma PositiveFactor(p: real, v: real)
    requires v > 0.0 && p * v > 0.0
    ensures p > 0.0
  {
    if p <= 0.0 {
      NonnegProduct(-p, v, -p * v);
    }
  }

  lemma ShrinkOnce(l: real, a: real, t: real, uu: real, k: real, p: real, m: real)
    requires l > 0.0 && uu == l * l && uu > 0.0 && k == uu * t && p == uu - k && m == a * l && p * m >= uu * uu
    ensures l - a <= -(a * t)
  {
    var f := (1.0 - t) * a;
    assert p == uu * (1.0 - t);
    assert p * m == (uu * l) * f by {
      assert (uu * (1.0 - t)) * (a * l) == (uu * l) * ((1.0 - t) * a);
    }
    assert uu * uu == (uu * l) * l;
    PositiveProduct(uu, l, uu * l);
    ScaleOrder(uu * l, l, f, (uu * l) * l, (uu * l) * f);
  }

  lemma BelowRoot(a: real, yy: real, t: real, rho: real, c: real, e: real)
    requires a > 0.0 && yy > 0.0 && t == rho * yy && yy * (a * c) == e && e <= -(a * t)
    ensures c <= -rho
  {
    var q := a * yy;
    PositiveProduct(a, yy, q);
    assert q * c == e by {
      assert (a * yy) * c == yy * (a * c);
    }
    assert q * -rho == -(a * t) by {
      assert (a * yy) * -rho == -(a * (rho * yy));
    }
    ScaleOrder(q, c, -rho, q * c, q * -rho);
  }

  /** The damping par was tried: its solution z and triangle S, and y with transpose(S) y = D^2 z / |D z|. */
  ghost predicate Tried(mach: Machine, s: Mat, r: Mat, d: Vec, b: Vec, par: real, z: Vec, y: Vec)
    requires mach.Valid()
  {
    && DampedTriangle(s, r, d, par) && |z| == |y| == |d| && Damped(r, d, b, z, par) && par > 0.0
    && ScaledNorm(mach, d, z) > 0.0 && mach.Norm(y) > 0.0
    && Scale(ScaledNorm(mach, d, z), Comb(y, s, |d|)) == Times(d, Times(d, z))
  }

  lemma RootAbove(mach: Machine, s: Mat, r: Mat, d: Vec, b: Vec, z: Vec, par: real, y: Vec, q: Vec, delta: real,
                  c: real, z': Vec, root: real)
    requires mach.Valid() && DampedTriangle(s, r, d, par) && |z| == |z'| == |y| == |q| == |d|
    requires Damped(r, d, b, z, par) && Damped(r, d, b, z', root) && 0.0 < par < root
    requires 0.0 < delta == ScaledNorm(mach, d, z') && mach.Norm(y) > 0.0
    requires Comb(y, s, |d|) == q && Scale(ScaledNorm(mach, d, z), q) == Times(d, Times(d, z))
    requires c == Step(ScaledNorm(mach, d, z) - delta, delta, mach.Norm(y))
    ensures par + c <= root
  {
    hide Times, Comb, Mul, Damped, Scale, Step, ScaledNorm, UpperTriangular, Cross;
    DampedMonotone(mach, r, d, b, z, par, z', root);
    if delta < ScaledNorm(mach, d, z) {
      ShiftedSystem(s, r, d, b, par, z, z', root);
      LowerIsBelow(mach, s, d, Mul(s, z), z, y, q, delta, c, z', root - par);
    } else {
      NoCorrection(ScaledNorm(mach, d, z) - delta, mach.Norm(y), delta, c);
    }
  }

  /** Newton's correction from a damping that was tried never passes a root: 1 / |D z| is a concave function of the
      damping. */
  lemma NewtonBelowRoot(mach: Machine, s: Mat, r: Mat, d: Vec, b: Vec, par: real, z: Vec, y: Vec, delta: real, c: real,
                        z': Vec, root: real)
    requires mach.Valid() && Tried(mach, s, r, d, b, par, z, y) && delta > 0.0
    requires c == Step(ScaledNorm(mach, d, z) - delta, delta, mach.Norm(y))
    requires Damped(r, d, b, z', root) && root > 0.0 && ScaledNorm(mach, d, z') == delta
    ensures par + c <= root
  {
    assert |z'| == |d| && IsMat(s, |d|, |d|);
    hide Times, Comb, Mul, Damped, DampedTriangle, Scale, Step, ScaledNorm;
    var q := Comb(y, s, |d|);
    if root < par {
      RootBelow(mach, s, r, d, b, z, par, y, q, delta, c, z', root);
    } else if root > par {
      RootAbove(mach, s, r, d, b, z, par, y, q, delta, c, z', root);
    } else {
      SameDampingLength(mach, r, d, b, z, z', par);
      NoCorrection(ScaledNorm(mach, d, z) - delta, mach.Norm(y), delta, c);
    }
  }

  lemma NoCorrection(fp: real, t: real, delta: real, c: real)
    requires t > 0.0 && delta > 0.0 && fp == 0.0 && c == Step(fp, delta, t)
    ensures c == 0.0
  {
    StepEquation(fp, delta, t, t * t, c);
    ZeroProduct(t * t, delta * c);
    ZeroProduct(delta, c);
  }

  /** Two solutions for one damping have the same length. */
  lemma SameDampingLength(mach: Machine, r: Mat, d: Vec, b: Vec, z: Vec, z': Vec, par: real)
    requires mach.Valid() && |z| == |z'| && Damped(r, d, b, z, par) && Damped(r, d, b, z', par) && par > 0.0
    ensures ScaledNorm(mach, d, z) == ScaledNorm(mach, d, z')
  {
    var u, v := Times(d, z), Times(d, z');
    DampedDifference(r, d, b, z, par, z', par, u, v);
    EqualDamping(par, Dot(u, u), Dot(u, v), Dot(v, v));
    EqualVectors(u, v);
  }

  lemma EqualDamping(p: real, uu: real, uv: real, vv: real)
    requires p > 0.0 && p * (uu - uv) <= p * (uv - vv)
    ensures uu - 2.0 * uv + vv <= 0.0
  {
    ScaleOrder(p, uu - uv, uv - vv, p * (uu - uv), p * (uv - vv));
  }

  // ---- the estimate stays long ----

  /** The correction towards a shorter length is larger. */
  lemma CorrectionGrows(l: real, delta: real, delta': real, temp: real, c: real, c': real)
    requires 0.0 < delta' < delta && temp > 0.0 && l > 0.0
    requires c == Step(l - delta, delta, temp) && c' == Step(l - delta', delta', temp)
    ensures c < c'
  {
    hide Step;
    var yy := temp * temp;
    StepEquation(l - delta, delta, temp, yy, c);
    StepEquation(l - delta', delta', temp, yy, c');
    GrowsScalar(l, delta, delta', yy, c, c', yy * c, yy * c');
  }

  lemma GrowsScalar(l: real, delta: real, delta': real, yy: real, c: real, c': real, k: real, k': real)
    requires 0.0 < delta' < delta && yy > 0.0 && l > 0.0 && yy * (delta * c) == l - delta
    requires yy * (delta' * c') == l - delta' && k == yy * c && k' == yy * c'
    ensures c < c'
  {
    assert delta * (k + 1.0) == l by {
      assert delta * (yy * c) == yy * (delta * c);
    }
    assert delta' * (k' + 1.0) == l by {
      assert delta' * (yy * c') == yy * (delta' * c');
    }
    SmallerFactor(delta, delta', k + 1.0, k' + 1.0, l);
    if c >= c' {
      NonnegProduct(yy, c - c', yy * (c - c'));
    }
  }

  lemma SmallerFactor(a: real, a': real, k: real, k': real, l: real)
    requires 0.0 < a' < a && l > 0.0 && a * k == l && a' * k' == l
    ensures k < k'
  {
    if k <= 0.0 {
      NonnegProduct(a, -k, a * -k);
    } else if k' <= k {
      NonnegProduct(a', k - k', a' * (k - k'));
      PositiveProduct(a - a', k, (a - a') * k);
    }
  }

  /** Newton's estimate is never too large a damping: if positive, the step it gives is at least delta long, whether or
      not any damping gives exactly delta. */
  lemma NewtonStaysLong(mach: Machine, s: Mat, r: Mat, d: Vec, b: Vec, par: real, z: Vec, y: Vec, delta: real, c: real,
                        q: real)
    requires mach.Valid() && Tried(mach, s, r, d, b, par, z, y) && delta > 0.0 && Sloped(r, d, b)
    requires c == Step(ScaledNorm(mach, d, z) - delta, delta, mach.Norm(y)) && q == par + c && q > 0.0
    ensures Long(mach, r, d, b, delta, q)
  {
    hide Damped, DampedTriangle, Step, Sloped;
    forall z': Vec | Damped(r, d, b, z', q)
      ensures |z'| == |d| && ScaledNorm(mach, d, z') >= delta
    {
      DampedSizes(r, d, b, z', q);
      DampedNonzero(mach, r, d, b, z', q);
      var delta' := ScaledNorm(mach, d, z');
      if delta' < delta {
        var c' := Step(ScaledNorm(mach, d, z) - delta', delta', mach.Norm(y));
        CorrectionGrows(ScaledNorm(mach, d, z), delta, delta', mach.Norm(y), c, c');
        NewtonBelowRoot(mach, s, r, d, b, par, z, y, delta', c', z', q);
      }
    }
  }

  /** The initial lower bound for a nonsingular factor: z0 is the undamped solution, and
      transpose(R) y = D^2 z0 / |D z0|. */
  ghost predicate FirstLower(mach: Machine, r: Mat, d: Vec, z0: Vec, delta: real, y: Vec, parl: real)
    requires mach.Valid()
  {
    && |z0| == |y| == |d| && IsMat(r, |d|, |d|) && 0.0 < delta < ScaledNorm(mach, d, z0) && mach.Norm(y) > 0.0
    && Scale(ScaledNorm(mach, d, z0), Comb(y, r, |d|)) == Times(d, Times(d, z0))
    && parl == Step(ScaledNorm(mach, d, z0) - delta, delta, mach.Norm(y))
  }

  lemma FirstIsBelow(mach: Machine, r: Mat, d: Vec, b: Vec, z0: Vec, delta: real, y: Vec, parl: real, z: Vec,
                     root: real)
    requires mach.Valid() && FirstLower(mach, r, d, z0, delta, y, parl) && Mul(r, z0) == b
    requires Damped(r, d, b, z, root) && root > 0.0 && ScaledNorm(mach, d, z) == delta
    ensures 0.0 < parl <= root
  {
    hide Step;
    assert |z| == |d|;
    StepDefined(ScaledNorm(mach, d, z0) - delta, delta, mach.Norm(y), parl);
    LowerIsBelow(mach, r, d, b, z0, y, Comb(y, r, |d|), delta, parl, z, root);
  }

  lemma FirstStaysLong(mach: Machine, r: Mat, d: Vec, b: Vec, z0: Vec, delta: real, y: Vec, parl: real)
    requires mach.Valid() && FirstLower(mach, r, d, z0, delta, y, parl) && Mul(r, z0) == b && Sloped(r, d, b)
    ensures parl > 0.0 && Long(mach, r, d, b, delta, parl)
  {
    hide Damped, Step, Sloped;
    var l, t := ScaledNorm(mach, d, z0), mach.Norm(y);
    StepDefined(l - delta, delta, t, parl);
    forall z: Vec | Damped(r, d, b, z, parl)
      ensures |z| == |d| && ScaledNorm(mach, d, z) >= delta
    {
      DampedSizes(r, d, b, z, parl);
      DampedNonzero(mach, r, d, b, z, parl);
      var delta' := ScaledNorm(mach, d, z);
      if delta' < delta {
        var c' := Step(l - delta', delta', t);
        CorrectionGrows(l, delta, delta', t, parl, c');
        LowerIsBelow(mach, r, d, b, z0, y, Comb(y, r, |d|), delta', c', z, parl);
      }
    }
  }
}
