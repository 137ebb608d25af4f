/** The reflection that reduces one column, and the invariant of a factorization in progress. */
module Householder {
  import opened Reals
  import opened Vectors
  import opened Reflectors

  /** The first k components of x, then d, then zeros: a column of the triangular factor. */
  function TriColumn(x: Vec, k: nat, d: real): (y: Vec)
    ensures |y| == |x|
    ensures forall i :: 0 <= i < |x| ==> y[i] == if i < k then x[i] else if i == k then d else 0.0
  {
    seq(|x|, i requires 0 <= i < |x| => if i < k then x[i] else if i == k then d else 0.0)
  }

  /** The vector qrfac stores for a column x whose lower part has signed norm sigma: v / sigma + e_k. */
  function HouseVector(x: Vec, k: nat, sigma: real): (u: Vec)
    requires k < |x| && sigma != 0.0
    ensures |u| == |x|
    ensures forall i :: 0 <= i < |x| ==>
              u[i] == if i < k then 0.0 else if i == k then x[i] / sigma + 1.0 else x[i] / sigma
  {
    seq(|x|, i requires 0 <= i < |x| && sigma != 0.0 =>
      if i < k then 0.0 else if i == k then x[i] / sigma + 1.0 else x[i] / sigma)
  }

  lemma HouseVectorForm(x: Vec, k: nat, sigma: real, s: real)
    requires k < |x| && sigma != 0.0 && s == 1.0 / sigma
    ensures HouseVector(x, k, sigma) == Axpy(s, Below(x, k), Scale(1.0, Unit(|x|, k)))
  {
    forall i | 0 <= i < |x|
      ensures HouseVector(x, k, sigma)[i] == Axpy(s, Below(x, k), Scale(1.0, Unit(|x|, k)))[i]
    {
      TimesInverse(x[i], sigma, s);
    }
  }

  lemma TimesInverse(a: real, b: real, s: real)
    requires b != 0.0 && s == 1.0 / b
    ensures a / b == s * a && s * b == 1.0
  {
    assert s * b == 1.0;
    assert s * a * b == a;
    Quotient(a, b, s * a);
  }

  /** The stored vector is proper with pivot at least 1, and its reflection turns x into a triangular column. */
  lemma HouseReflects(x: Vec, k: nat, sigma: real)
    requires k < |x| && sigma != 0.0 && sigma * sigma == DotR(x, x, k, |x|)
    requires sigma < 0.0 <==> x[k] < 0.0
    ensures var u := HouseVector(x, k, sigma);
      Proper(u, k) && u[k] >= 1.0 && Reflect(u, k, x) == TriColumn(x, k, -sigma)
  {
    hide DotR, HouseVector, Reflect, TriColumn, Dot, Axpy, Below, Scale, Unit, Quad;
    var s := 1.0 / sigma;
    var u := HouseVector(x, k, sigma);
    TimesInverse(x[k], sigma, s);
    HouseVectorForm(x, k, sigma, s);
    HousePivot(x[k], sigma, s, u[k]);
    HouseOwnProduct(x, k, s, sigma * sigma, u);
    HouseSquare(x[k], sigma, s, sigma * sigma, u[k]);
    HouseProduct(x, k, sigma, s, u);
    HouseImage(x, k, sigma, u);
  }

  lemma HouseOwnProduct(x: Vec, k: nat, s: real, s2: real, u: Vec)
    requires k < |x| && s2 == DotR(x, x, k, |x|) && u == Axpy(s, Below(x, k), Scale(1.0, Unit(|x|, k)))
    ensures Dot(u, u) == Quad(1.0, s, 1.0, x[k], s2)
  {
    hide Axpy, Scale, Quad, Dot;
    BelowProducts(x, k);
    DotUnit(Below(x, k), k);
    DotUnit(Unit(|x|, k), k);
    BlendSquare(1.0, Unit(|x|, k), s, Below(x, k), 1.0, x[k], s2);
  }

  /** <u, x> = sigma u_k */
  lemma HouseProduct(x: Vec, k: nat, sigma: real, s: real, u: Vec)
    requires k < |x| && s * sigma == 1.0 && sigma * sigma == DotR(x, x, k, |x|)
    requires u == Axpy(s, Below(x, k), Scale(1.0, Unit(|x|, k))) && u[k] == s * x[k] + 1.0
    ensures Dot(u, x) == sigma * u[k]
  {
    hide Axpy, Scale, Below, Dot;
    var ev, vv := DotBlend(1.0, Unit(|x|, k), s, Below(x, k), x);
    BelowProducts(x, k);
    DotUnit(x, k);
    HouseSlope(x[k], sigma, s, sigma * sigma, u[k], Dot(u, x));
  }

  lemma BelowProducts(x: Vec, k: nat)
    requires k < |x|
    ensures Dot(Below(x, k), Below(x, k)) == DotR(x, x, k, |x|) == Dot(Below(x, k), x)
  {
    var v := Below(x, k);
    DotSuffix(v, v, k);
    DotSuffix(v, x, k);
    DotREqual(v, v, x, x, k, |x|);
    DotREqual(v, x, x, x, k, |x|);
  }

  lemma HousePivot(xk: real, sigma: real, s: real, uk: real)
    requires s * sigma == 1.0 && uk == xk / sigma + 1.0 && sigma != 0.0 && (sigma < 0.0 <==> xk < 0.0)
    ensures uk >= 1.0
  {
    var q := xk / sigma;
    if sigma > 0.0 {
      DivisionSign(xk, sigma, q);
    } else {
      assert q * sigma == xk;
      if q < 0.0 {
        PositiveProduct(-q, -sigma, xk);
      }
    }
  }

  lemma HouseSquare(xk: real, sigma: real, s: real, s2: real, uk: real)
    requires s * sigma == 1.0 && s2 == sigma * sigma && uk == s * xk + 1.0
    ensures Quad(1.0, s, 1.0, xk, s2) == 2.0 * uk
  {
    assert s * s * s2 == (s * sigma) * (s * sigma);
  }

  lemma HouseSlope(xk: real, sigma: real, s: real, s2: real, uk: real, ux: real)
    requires s * sigma == 1.0 && s2 == sigma * sigma && uk == s * xk + 1.0
    requires ux == 1.0 * xk + s * s2
    ensures ux == sigma * uk
  {
    assert s * s2 == (s * sigma) * sigma;
    assert sigma * (s * xk) == (s * sigma) * xk;
  }

  lemma HouseImage(x: Vec, k: nat, sigma: real, u: Vec)
    requires k < |x| && sigma != 0.0 && u == HouseVector(x, k, sigma) && u[k] != 0.0
    requires Dot(u, x) == sigma * u[k]
    ensures Reflect(u, k, x) == TriColumn(x, k, -sigma)
  {
    var p := -sigma;
    assert p * u[k] == -Dot(u, x);
    Quotient(-Dot(u, x), u[k], p);
    forall i | 0 <= i < |x|
      ensures Axpy(p, u, x)[i] == TriColumn(x, k, p)[i]
    {
      assert sigma * (x[i] / sigma) == x[i];
    }
  }

  /** Only the first k reflections matter to the first k. */
  lemma {:induction false} ForwardPrefix(us: Mat, vs: Mat, k: nat, x: Vec)
    requires k <= |us| <= |x| && k <= |vs| <= |x| && IsMat(us, |us|, |x|) && IsMat(vs, |vs|, |x|)
    requires us[..k] == vs[..k]
    ensures Forward(us, k, x) == Forward(vs, k, x)
  {
    if k > 0 {
      assert us[k - 1] == us[..k][k - 1] == vs[..k][k - 1] == vs[k - 1];
      assert us[..k - 1] == us[..k][..k - 1] == vs[..k - 1];
      ForwardPrefix(us, vs, k - 1, x);
    }
  }

  /** One more reflection. */
  lemma ForwardAppend(us: Mat, u: Vec, x: Vec)
    requires |us| < |x| == |u| && IsMat(us, |us|, |x|)
    ensures Forward(us + [u], |us| + 1, x) == Reflect(u, |us|, Forward(us, |us|, x))
  {
    ForwardPrefix(us, us + [u], |us|, x);
  }

  /** A factorization in progress: cols is the work array after |us| of its columns have been reduced, a the original
      columns, p the order they are now in and d the diagonal found so far. */
  ghost predicate Reduced(cols: Mat, us: Mat, a: Mat, p: seq<nat>, d: Vec, m: nat) {
    && IsMat(cols, |a|, m) && IsMat(a, |a|, m) && |p| == |d| == |a| && |us| <= m && |us| <= |a|
    && (forall c :: 0 <= c < |p| ==> p[c] < |a|)
    && AllProper(us, m)
    && (forall c :: 0 <= c < |us| ==> us[c] == Below(cols[c], c))
    && (forall c :: 0 <= c < |us| ==> TriColumn(cols[c], c, d[c]) == Forward(us, |us|, a[p[c]]))
    && (forall c :: |us| <= c < |a| ==> cols[c] == Forward(us, |us|, a[p[c]]))
  }

  /** Column c of the array after reducing column j of it by the reflection u. */
  ghost predicate ReducedBy(cols: Mat, next: Mat, u: Vec, j: nat, m: nat) {
    && IsMat(cols, |cols|, m) && IsMat(next, |cols|, m) && |u| == m && j < m && j < |cols|
    && (forall c :: 0 <= c < j ==> next[c] == cols[c])
    && u == Below(next[j], j)
    && (forall i :: 0 <= i < j ==> next[j][i] == cols[j][i])
    && (forall c :: j < c < |cols| ==> next[c] == Reflect(u, j, cols[c]))
  }

  lemma ReducedStep(cols: Mat, next: Mat, us: Mat, u: Vec, a: Mat, p: seq<nat>, d: Vec, e: Vec, m: nat)
    requires Reduced(cols, us, a, p, d, m) && ReducedBy(cols, next, u, |us|, m) && Proper(u, |us|)
    requires |e| == |d| && forall c :: 0 <= c < |us| ==> e[c] == d[c]
    requires Reflect(u, |us|, cols[|us|]) == TriColumn(next[|us|], |us|, e[|us|])
    ensures Reduced(next, us + [u], a, p, e, m)
  {
    var j, vs := |us|, us + [u];
    forall c | 0 <= c < |a|
      ensures Forward(vs, j + 1, a[p[c]]) == Reflect(u, j, Forward(us, j, a[p[c]]))
    {
      ForwardAppend(us, u, a[p[c]]);
    }
    forall c | 0 <= c < j
      ensures TriColumn(next[c], c, e[c]) == Forward(vs, j + 1, a[p[c]])
    {
      ReflectFixes(u, j, TriColumn(cols[c], c, d[c]));
    }
    assert Stored(vs, m) by {
      assert u == Below(u, j);
    }
  }
}
