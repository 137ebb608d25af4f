/** Vectors and matrices over exact reals: the mathematics every routine is specified with.
    A vector is a sequence of reals; a matrix is the sequence of its rows. */
module Vectors {
  import opened Reals

  type Vec = seq<real>
  type Mat = seq<seq<real>>

  /** A matrix with m rows of length n. */
  ghost predicate IsMat(a: Mat, m: nat, n: nat) {
    |a| == m && forall i :: 0 <= i < m ==> |a[i]| == n
  }

  /** The partial inner product of components lo, ..., hi - 1. */
  function DotR(a: Vec, b: Vec, lo: nat, hi: nat): real
    requires lo <= hi <= |a| && hi <= |b|
    decreases hi
  {
    if lo == hi then 0.0 else DotR(a, b, lo, hi - 1) + a[hi - 1] * b[hi - 1]
  }

  function Dot(a: Vec, b: Vec): real
    requires |a| == |b|
  {
    DotR(a, b, 0, |a|)
  }

  function Zero(n: nat): (z: Vec)
    ensures |z| == n && forall i :: 0 <= i < n ==> z[i] == 0.0
  {
    seq(n, _ => 0.0)
  }

  /** The k-th unit vector. */
  function Unit(n: nat, k: nat): (e: Vec)
    ensures |e| == n && forall i :: 0 <= i < n ==> e[i] == if i == k then 1.0 else 0.0
  {
    seq(n, i => if i == k then 1.0 else 0.0)
  }

  /** y + c * x */
  function Axpy(c: real, x: Vec, y: Vec): (z: Vec)
    requires |x| == |y|
    ensures |z| == |x| && forall i :: 0 <= i < |z| ==> z[i] == y[i] + c * x[i]
  {
    seq(|x|, i requires 0 <= i < |x| && |x| == |y| => y[i] + c * x[i])
  }

  function Scale(c: real, x: Vec): (z: Vec)
    ensures |z| == |x| && forall i :: 0 <= i < |z| ==> z[i] == c * x[i]
  {
    seq(|x|, i requires 0 <= i < |x| => c * x[i])
  }

  /** The componentwise product, D x for a diagonal matrix D. */
  function Times(d: Vec, x: Vec): (z: Vec)
    requires |d| == |x|
    ensures |z| == |x| && forall i :: 0 <= i < |z| ==> z[i] == d[i] * x[i]
  {
    seq(|x|, i requires 0 <= i < |x| && |x| == |d| => d[i] * x[i])
  }

  /** A x */
  function Mul(a: Mat, x: Vec): (y: Vec)
    requires IsMat(a, |a|, |x|)
    ensures |y| == |a| && forall i :: 0 <= i < |a| ==> y[i] == Dot(a[i], x)
  {
    seq(|a|, i requires 0 <= i < |a| && IsMat(a, |a|, |x|) => Dot(a[i], x))
  }

  /** The combination c[0] a[0] + ... + c[k-1] a[k-1] of the first k rows of a, each of length n. */
  function CombTo(c: Vec, a: Mat, n: nat, k: nat): (y: Vec)
    requires k <= |c| && k <= |a| && IsMat(a, |a|, n)
    ensures |y| == n
    decreases k
  {
    if k == 0 then Zero(n) else Axpy(c[k - 1], a[k - 1], CombTo(c, a, n, k - 1))
  }

  /** transpose(A) c */
  function Comb(c: Vec, a: Mat, n: nat): (y: Vec)
    requires |c| == |a| && IsMat(a, |a|, n)
    ensures |y| == n
  {
    CombTo(c, a, n, |a|)
  }

  /** The rows of a are orthonormal: A transpose(A) = I. */
  ghost predicate OrthonormalRows(a: Mat, n: nat) {
    && IsMat(a, |a|, n)
    && forall i, j :: 0 <= i < |a| && 0 <= j < |a| ==> Dot(a[i], a[j]) == if i == j then 1.0 else 0.0
  }

  // Column j of a matrix.
  function Col(a: Mat, j: nat): (y: Vec)
    requires forall i :: 0 <= i < |a| ==> j < |a[i]|
    ensures |y| == |a| && forall i :: 0 <= i < |a| ==> y[i] == a[i][j]
  {
    seq(|a|, i requires 0 <= i < |a| && j < |a[i]| => a[i][j])
  }

  // ---- inner products ----

  lemma {:induction false} DotRCommutes(a: Vec, b: Vec, lo: nat, hi: nat)
    requires lo <= hi <= |a| && hi <= |b|
    ensures DotR(a, b, lo, hi) == DotR(b, a, lo, hi)
    decreases hi
  {
    if lo < hi {
      DotRCommutes(a, b, lo, hi - 1);
    }
  }

  lemma DotCommutes(a: Vec, b: Vec)
    requires |a| == |b|
    ensures Dot(a, b) == Dot(b, a)
  {
    DotRCommutes(a, b, 0, |a|);
  }

  /** A partial inner product depends only on the components in its range. */
  lemma {:induction false} DotRCong(a: Vec, b: Vec, c: Vec, d: Vec, lo: nat, hi: nat)
    requires lo <= hi <= |a| && hi <= |b| && hi <= |c| && hi <= |d|
    requires forall i :: lo <= i < hi ==> a[i] * b[i] == c[i] * d[i]
    ensures DotR(a, b, lo, hi) == DotR(c, d, lo, hi)
    decreases hi
  {
    if lo < hi {
      DotRCong(a, b, c, d, lo, hi - 1);
    }
  }

  lemma {:induction false} DotRSame(a: Vec, b: Vec, c: Vec, lo: nat, hi: nat)
    requires lo <= hi <= |a| && hi <= |b| && hi <= |c|
    requires forall i :: lo <= i < hi ==> b[i] == c[i]
    ensures DotR(a, b, lo, hi) == DotR(a, c, lo, hi)
    decreases hi
  {
    if lo < hi {
      DotRSame(a, b, c, lo, hi - 1);
    }
  }

  lemma {:induction false} DotREqual(a: Vec, b: Vec, c: Vec, d: Vec, lo: nat, hi: nat)
    requires lo <= hi <= |a| && hi <= |b| && hi <= |c| && hi <= |d|
    requires forall i :: lo <= i < hi ==> a[i] == c[i] && b[i] == d[i]
    ensures DotR(a, b, lo, hi) == DotR(c, d, lo, hi)
    decreases hi
  {
    if lo < hi {
      DotREqual(a, b, c, d, lo, hi - 1);
    }
  }

  lemma {:induction false} DotRSplit(a: Vec, b: Vec, lo: nat, mid: nat, hi: nat)
    requires lo <= mid <= hi <= |a| && hi <= |b|
    ensures DotR(a, b, lo, hi) == DotR(a, b, lo, mid) + DotR(a, b, mid, hi)
    decreases hi
  {
    if mid < hi {
      DotRSplit(a, b, lo, mid, hi - 1);
    }
  }

  lemma {:induction false} DotRZero(a: Vec, b: Vec, lo: nat, hi: nat)
    requires lo <= hi <= |a| && hi <= |b|
    requires forall i :: lo <= i < hi ==> a[i] == 0.0 || b[i] == 0.0
    ensures DotR(a, b, lo, hi) == 0.0
    decreases hi
  {
    if lo < hi {
      DotRZero(a, b, lo, hi - 1);
    }
  }

  /** Components below lo do not matter when one factor vanishes there. */
  lemma DotSuffix(a: Vec, b: Vec, lo: nat)
    requires lo <= |a| == |b|
    requires forall i :: 0 <= i < lo ==> a[i] == 0.0 || b[i] == 0.0
    ensures Dot(a, b) == DotR(a, b, lo, |a|)
  {
    DotRSplit(a, b, 0, lo, |a|);
    DotRZero(a, b, 0, lo);
  }

  lemma DotPrefix(a: Vec, b: Vec, hi: nat)
    requires hi <= |a| == |b|
    requires forall i :: hi <= i < |a| ==> a[i] == 0.0 || b[i] == 0.0
    ensures Dot(a, b) == DotR(a, b, 0, hi)
  {
    DotRSplit(a, b, 0, hi, |a|);
    DotRZero(a, b, hi, |a|);
  }

  lemma {:induction false} DotRAxpy(c: real, x: Vec, y: Vec, z: Vec, lo: nat, hi: nat)
    requires |x| == |y| && lo <= hi <= |x| && hi <= |z|
    ensures DotR(Axpy(c, x, y), z, lo, hi) == DotR(y, z, lo, hi) + c * DotR(x, z, lo, hi)
    decreases hi
  {
    if lo < hi {
      DotRAxpy(c, x, y, z, lo, hi - 1);
      var p := x[hi - 1];
      var q := y[hi - 1];
      var r := z[hi - 1];
      assert (q + c * p) * r == q * r + c * (p * r);
    }
  }

  lemma DotAxpy(c: real, x: Vec, y: Vec, z: Vec)
    requires |x| == |y| == |z|
    ensures Dot(Axpy(c, x, y), z) == Dot(y, z) + c * Dot(x, z)
    ensures Dot(z, Axpy(c, x, y)) == Dot(z, y) + c * Dot(z, x)
  {
    DotRAxpy(c, x, y, z, 0, |x|);
    DotCommutes(Axpy(c, x, y), z);
    DotCommutes(y, z);
    DotCommutes(x, z);
  }

  lemma DotScale(c: real, x: Vec, z: Vec)
    requires |x| == |z|
    ensures Dot(Scale(c, x), z) == c * Dot(x, z)
    ensures Dot(z, Scale(c, x)) == c * Dot(x, z)
  {
    assert Scale(c, x) == Axpy(c, x, Zero(|x|));
    DotAxpy(c, x, Zero(|x|), z);
    DotRZero(Zero(|x|), z, 0, |x|);
    DotCommutes(Scale(c, x), z);
  }

  lemma {:induction false} DotRNonneg(x: Vec, lo: nat, hi: nat)
    requires lo <= hi <= |x|
    ensures DotR(x, x, lo, hi) >= 0.0
    ensures DotR(x, x, lo, hi) == 0.0 <==> forall i :: lo <= i < hi ==> x[i] == 0.0
    decreases hi
  {
    if lo < hi {
      DotRNonneg(x, lo, hi - 1);
      SquareSign(x[hi - 1], x[hi - 1] * x[hi - 1]);
    }
  }

  lemma DotNonneg(x: Vec)
    ensures Dot(x, x) >= 0.0
    ensures Dot(x, x) == 0.0 <==> x == Zero(|x|)
  {
    DotRNonneg(x, 0, |x|);
  }

  /** |s x + t y|^2 in terms of |x|^2, <x, y> and |y|^2. */
  function Quad(s: real, t: real, xx: real, xy: real, yy: real): real {
    s * s * xx + 2.0 * (s * t * xy) + t * t * yy
  }

  lemma QuadExpands(s: real, t: real, xx: real, xy: real, yy: real, xz: real, yz: real)
    requires xz == s * xx + t * xy && yz == s * xy + t * yy
    ensures s * xz + t * yz == Quad(s, t, xx, xy, yy)
  {
    assert s * xz == s * s * xx + s * t * xy;
    assert t * yz == s * t * xy + t * t * yy;
  }

  /** <s x + t y, z> */
  lemma DotBlend(s: real, x: Vec, t: real, y: Vec, z: Vec) returns (xz: real, yz: real)
    requires |x| == |y| == |z|
    ensures xz == Dot(x, z) && yz == Dot(y, z)
    ensures Dot(Axpy(t, y, Scale(s, x)), z) == s * xz + t * yz
  {
    xz, yz := Dot(x, z), Dot(y, z);
    DotAxpy(t, y, Scale(s, x), z);
    DotScale(s, x, z);
  }

  lemma BlendSquare(s: real, x: Vec, t: real, y: Vec, xx: real, xy: real, yy: real)
    requires |x| == |y| && Dot(x, x) == xx && Dot(x, y) == xy && Dot(y, y) == yy
    ensures Dot(Axpy(t, y, Scale(s, x)), Axpy(t, y, Scale(s, x))) == Quad(s, t, xx, xy, yy)
  {
    var z := Axpy(t, y, Scale(s, x));
    var xz, yz := DotBlend(s, x, t, y, z);
    var a, b := DotBlend(s, x, t, y, x);
    var c, d := DotBlend(s, x, t, y, y);
    DotCommutes(x, z);
    DotCommutes(y, z);
    DotCommutes(x, y);
    QuadExpands(s, t, xx, xy, yy, xz, yz);
  }

  lemma CauchySchwarzScalar(a: real, b: real, c: real, t: real)
    requires c > 0.0 && t == -b / c && Quad(1.0, t, a, b, c) >= 0.0
    ensures b * b <= a * c
  {
    assert t * c == -b;
    CompleteSquare(a, b, c, t);
  }

  lemma CompleteSquare(a: real, b: real, c: real, t: real)
    requires c > 0.0 && t * c == -b && Quad(1.0, t, a, b, c) >= 0.0
    ensures b * b <= a * c
  {
    var q := Quad(1.0, t, a, b, c);
    assert q == a + 2.0 * (t * b) + t * (t * c);
    assert t * (t * c) == -(t * b);
    NonnegProduct(c, q, c * q);
    assert c * q == a * c + (t * c) * b;
    assert (t * c) * b == -(b * b);
  }

  /** The Cauchy-Schwarz inequality. */
  lemma CauchySchwarz(x: Vec, y: Vec)
    requires |x| == |y|
    ensures Dot(x, y) * Dot(x, y) <= Dot(x, x) * Dot(y, y)
  {
    var a, b, c := Dot(x, x), Dot(x, y), Dot(y, y);
    DotNonneg(y);
    if c == 0.0 {
      DotRZero(x, y, 0, |x|);
    } else {
      var t := -b / c;
      BlendSquare(1.0, x, t, y, a, b, c);
      DotNonneg(Axpy(t, y, Scale(1.0, x)));
      CauchySchwarzScalar(a, b, c, t);
    }
  }

  lemma {:induction false} DotRUnit(x: Vec, k: nat, hi: nat)
    requires hi <= |x|
    ensures DotR(x, Unit(|x|, k), 0, hi) == if k < hi then x[k] else 0.0
    decreases hi
  {
    if hi > 0 {
      DotRUnit(x, k, hi - 1);
    }
  }

  lemma DotUnit(x: Vec, k: nat)
    requires k < |x|
    ensures Dot(x, Unit(|x|, k)) == x[k]
    ensures Dot(Unit(|x|, k), x) == x[k]
  {
    DotRUnit(x, k, |x|);
    DotCommutes(x, Unit(|x|, k));
  }

  /** Replacing one component. */
  lemma {:induction false} DotRUpdate(x: Vec, y: Vec, k: nat, p: real, q: real, hi: nat)
    requires hi <= |x| == |y| && k < |x|
    ensures DotR(x[k := p], y[k := q], 0, hi) == DotR(x, y, 0, hi) + if k < hi then p * q - x[k] * y[k] else 0.0
    decreases hi
  {
    if hi > 0 {
      DotRUpdate(x, y, k, p, q, hi - 1);
    }
  }

  lemma DotUpdate(x: Vec, y: Vec, k: nat, p: real, q: real)
    requires k < |x| == |y|
    ensures Dot(x[k := p], y[k := q]) == Dot(x, y) + p * q - x[k] * y[k]
  {
    DotRUpdate(x, y, k, p, q, |x|);
  }

  /** Replacing two components. */
  lemma DotUpdateTwo(x: Vec, y: Vec, j: nat, l: nat, a: real, b: real, p: real, q: real)
    requires j < |x| == |y| && l < |x| && j != l
    ensures Dot(x[j := a][l := b], y[j := p][l := q]) == Dot(x, y) + (a * p + b * q) - (x[j] * y[j] + x[l] * y[l])
  {
    DotUpdate(x, y, j, a, p);
    DotUpdate(x[j := a], y[j := p], l, b, q);
  }

  // ---- matrices ----

  lemma {:induction false} CombToDot(c: Vec, a: Mat, n: nat, k: nat, y: Vec)
    requires k <= |c| && k <= |a| && IsMat(a, |a|, n) && |y| == n
    ensures Dot(CombTo(c, a, n, k), y) == DotR(c, Mul(a, y), 0, k)
    decreases k
  {
    if k == 0 {
      DotRZero(Zero(n), y, 0, n);
    } else {
      CombToDot(c, a, n, k - 1, y);
      DotAxpy(c[k - 1], a[k - 1], CombTo(c, a, n, k - 1), y);
    }
  }

  /** <transpose(A) c, y> = <c, A y> */
  lemma Adjoint(c: Vec, a: Mat, y: Vec)
    requires |c| == |a| && IsMat(a, |a|, |y|)
    ensures Dot(Comb(c, a, |y|), y) == Dot(c, Mul(a, y))
  {
    CombToDot(c, a, |y|, |a|, y);
  }

  lemma {:induction false} CombToAt(c: Vec, a: Mat, n: nat, k: nat, j: nat)
    requires k <= |c| == |a| && IsMat(a, |a|, n) && j < n
    ensures CombTo(c, a, n, k)[j] == DotR(c, Col(a, j), 0, k)
    decreases k
  {
    if k > 0 {
      CombToAt(c, a, n, k - 1, j);
    }
  }

  /** Component j of transpose(A) c is the inner product of c with column j. */
  lemma CombAt(c: Vec, a: Mat, n: nat, j: nat)
    requires |c| == |a| && IsMat(a, |a|, n) && j < n
    ensures Comb(c, a, n)[j] == Dot(c, Col(a, j))
  {
    CombToAt(c, a, n, |a|, j);
  }

  /** A (x + t y) = A x + t A y */
  lemma MulAxpy(a: Mat, t: real, y: Vec, x: Vec)
    requires |x| == |y| && IsMat(a, |a|, |x|)
    ensures Mul(a, Axpy(t, y, x)) == Axpy(t, Mul(a, y), Mul(a, x))
  {
    forall i | 0 <= i < |a|
      ensures Mul(a, Axpy(t, y, x))[i] == Axpy(t, Mul(a, y), Mul(a, x))[i]
    {
      DotAxpy(t, y, x, a[i]);
    }
  }

  lemma MulScale(a: Mat, t: real, x: Vec)
    requires IsMat(a, |a|, |x|)
    ensures Mul(a, Scale(t, x)) == Scale(t, Mul(a, x))
  {
    forall i | 0 <= i < |a|
      ensures Mul(a, Scale(t, x))[i] == Scale(t, Mul(a, x))[i]
    {
      DotScale(t, x, a[i]);
      DotCommutes(a[i], x);
    }
  }

  /** transpose(A) (t c) = t transpose(A) c */
  /** transpose(A) (y + t x) = transpose(A) y + t transpose(A) x */
  lemma CombAxpy(t: real, x: Vec, y: Vec, a: Mat, n: nat)
    requires |x| == |y| == |a| && IsMat(a, |a|, n)
    ensures Comb(Axpy(t, x, y), a, n) == Axpy(t, Comb(x, a, n), Comb(y, a, n))
  {
    hide Comb, Axpy, Dot, Col;
    forall j | 0 <= j < n
      ensures Comb(Axpy(t, x, y), a, n)[j] == Axpy(t, Comb(x, a, n), Comb(y, a, n))[j]
    {
      CombAt(Axpy(t, x, y), a, n, j);
      CombAt(x, a, n, j);
      CombAt(y, a, n, j);
      DotAxpy(t, x, y, Col(a, j));
    }
  }

  lemma CombScale(t: real, c: Vec, a: Mat, n: nat)
    requires |c| == |a| && IsMat(a, |a|, n)
    ensures Comb(Scale(t, c), a, n) == Scale(t, Comb(c, a, n))
  {
    forall j | 0 <= j < n
      ensures Comb(Scale(t, c), a, n)[j] == Scale(t, Comb(c, a, n))[j]
    {
      CombAt(Scale(t, c), a, n, j);
      CombAt(c, a, n, j);
      DotScale(t, c, Col(a, j));
    }
  }

  /** A transpose(A) = I makes A transpose(A) f = f for every f. */
  lemma OrthonormalRecovers(a: Mat, n: nat, f: Vec)
    requires OrthonormalRows(a, n) && |f| == |a|
    ensures Mul(a, Comb(f, a, n)) == f
  {
    forall i | 0 <= i < |a|
      ensures Mul(a, Comb(f, a, n))[i] == f[i]
    {
      Adjoint(f, a, a[i]);
      DotCommutes(a[i], Comb(f, a, n));
      assert Mul(a, a[i]) == Unit(|a|, i);
      DotUnit(f, i);
    }
  }

  /** |transpose(A) f| = |f| when A transpose(A) = I. */
  lemma OrthonormalIsometry(a: Mat, n: nat, f: Vec)
    requires OrthonormalRows(a, n) && |f| == |a|
    ensures Dot(Comb(f, a, n), Comb(f, a, n)) == Dot(f, f)
  {
    Adjoint(f, a, Comb(f, a, n));
    OrthonormalRecovers(a, n, f);
  }

  lemma Dot3(a: Vec, b: Vec)
    requires |a| == |b| == 3
    ensures Dot(a, b) == a[0] * b[0] + a[1] * b[1] + a[2] * b[2]
  {
    assert DotR(a, b, 0, 0) == 0.0;
    assert DotR(a, b, 0, 1) == a[0] * b[0];
    assert DotR(a, b, 0, 2) == a[0] * b[0] + a[1] * b[1];
  }

  lemma Dot2(a: Vec, b: Vec)
    requires |a| == |b| == 2
    ensures Dot(a, b) == a[0] * b[0] + a[1] * b[1]
  {
    assert DotR(a, b, 0, 0) == 0.0;
    assert DotR(a, b, 0, 1) == a[0] * b[0];
  }
}
