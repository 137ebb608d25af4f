/** The linear model |f - J x| of a least-squares problem, seen through the pivoted factorization of J. */
module LeastSquares {
  import opened Vectors
  import opened Reflectors
  import opened Qrfac
  import opened Qrsolv
  import opened Permutations

  /** J x, for a matrix given by its columns. */
  ghost function Image(cols: Mat, x: Vec, m: nat): (y: Vec)
    requires |x| == |cols| && IsMat(cols, |cols|, m)
    ensures |y| == m
  {
    Comb(x, cols, m)
  }

  /** The first n components. */
  function Top(x: Vec, n: nat): (y: Vec)
    requires n <= |x|
    ensures |y| == n && forall i :: 0 <= i < n ==> y[i] == x[i]
  {
    x[..n]
  }

  /** Products of J x, and of f with J x, are those of R z and of qtf with R z, z being x in the order of r. */
  ghost predicate RepresentsAt(cols: Mat, f: Vec, r: Mat, qtf: Vec, p: seq<nat>, n: nat, m: nat, x: Vec)
    requires IsMat(cols, n, m) && |f| == m && IsMat(r, n, n) && |qtf| == |p| == n && Permutation(p) && |x| == n
  {
    var y, u := Image(cols, x, m), Mul(r, Permuted(x, p));
    Dot(y, y) == Dot(u, u) && Dot(f, y) == Dot(qtf, u)
  }

  /** r and qtf stand for the columns of J and the vector f. */
  ghost predicate Represents(cols: Mat, f: Vec, r: Mat, qtf: Vec, p: seq<nat>, n: nat, m: nat) {
    && IsMat(cols, n, m) && |f| == m && IsMat(r, n, n) && |qtf| == |p| == n && Permutation(p)
    && forall x: Vec {:trigger RepresentsAt(cols, f, r, qtf, p, n, m, x)} :: |x| == n ==>
         RepresentsAt(cols, f, r, qtf, p, n, m, x)
  }

  /** The triangular factor and the reflections that produced it. */
  ghost predicate PivotedFactor(cols: Mat, us: Mat, r: Mat, p: seq<nat>, n: nat, m: nat) {
    && n <= m && IsMat(cols, n, m) && |us| == n && AllProper(us, m) && IsMat(r, n, n) && |p| == n && Permutation(p)
    && forall c :: 0 <= c < n ==> IsColumn(Forward(us, n, cols[p[c]]), r, c, n)
  }

  /** a is column c of the n by n matrix r above zeros. */
  ghost predicate IsColumn(a: Vec, r: Mat, c: nat, n: nat)
    requires IsMat(r, n, n) && c < n
  {
    forall i :: 0 <= i < |a| ==> a[i] == if i < n then r[i][c] else 0.0
  }

  /** transpose(Q) J x is R z above zeros. */
  lemma ForwardOfImage(cols: Mat, us: Mat, r: Mat, p: seq<nat>, n: nat, m: nat, x: Vec, i: nat)
    requires PivotedFactor(cols, us, r, p, n, m) && |x| == n && i < m
    ensures Forward(us, n, Image(cols, x, m))[i] == if i < n then Mul(r, Permuted(x, p))[i] else 0.0
  {
    var y, e := Image(cols, x, m), Backward(us, 0, Unit(m, i));
    DotUnit(Forward(us, n, y), i);
    ForwardIsTranspose(us, y, Unit(m, i));
    Adjoint(x, cols, e);
    var w := Mul(cols, e);
    PermutedDot(x, w, p);
    var z, v := Permuted(x, p), Permuted(w, p);
    forall c | 0 <= c < n
      ensures v[c] == if i < n then r[i][c] else 0.0
    {
      assert IsColumn(Forward(us, n, cols[p[c]]), r, c, n);
      ForwardIsTranspose(us, cols[p[c]], Unit(m, i));
      DotUnit(Forward(us, n, cols[p[c]]), i);
    }
    if i < n {
      assert v == r[i];
      DotCommutes(z, v);
    } else {
      DotRZero(z, v, 0, n);
    }
  }

  lemma FactorRepresents(cols: Mat, us: Mat, r: Mat, p: seq<nat>, n: nat, m: nat, f: Vec, qtf: Vec)
    requires PivotedFactor(cols, us, r, p, n, m) && |f| == m && qtf == Top(Forward(us, n, f), n)
    ensures Represents(cols, f, r, qtf, p, n, m)
  {
    forall x: Vec | |x| == n
      ensures RepresentsAt(cols, f, r, qtf, p, n, m, x)
    {
      ProductsThrough(cols, us, r, p, n, m, f, qtf, x);
    }
  }

  lemma ProductsThrough(cols: Mat, us: Mat, r: Mat, p: seq<nat>, n: nat, m: nat, f: Vec, qtf: Vec, x: Vec)
    requires PivotedFactor(cols, us, r, p, n, m) && |f| == m && |x| == n && qtf == Top(Forward(us, n, f), n)
    ensures RepresentsAt(cols, f, r, qtf, p, n, m, x)
  {
    var y, u := Image(cols, x, m), Mul(r, Permuted(x, p));
    var fy, ff := Forward(us, n, y), Forward(us, n, f);
    forall i | 0 <= i < m
      ensures fy[i] == if i < n then u[i] else 0.0
    {
      ForwardOfImage(cols, us, r, p, n, m, x, i);
    }
    ForwardIsometry(us, n, y, y);
    ForwardIsometry(us, n, f, y);
    DotPadded(fy, fy, u, u, n);
    DotPadded(ff, fy, qtf, u, n);
  }

  lemma DotPadded(a: Vec, b: Vec, c: Vec, d: Vec, n: nat)
    requires n == |c| == |d| <= |a| == |b| && (forall i :: 0 <= i < n ==> a[i] == c[i] && b[i] == d[i])
    requires forall i :: n <= i < |b| ==> b[i] == 0.0
    ensures Dot(a, b) == Dot(c, d)
  {
    DotPrefix(a, b, n);
    DotREqual(a, b, c, d, 0, n);
  }

  /** A column of J against f is a component of transpose(R) transpose(Q) f. */
  lemma GradientEntry(cols: Mat, us: Mat, r: Mat, p: seq<nat>, n: nat, m: nat, f: Vec, c: nat)
    requires PivotedFactor(cols, us, r, p, n, m) && |f| == m && c < n
    ensures Dot(cols[p[c]], f) == Dot(Top(Forward(us, n, f), n), Col(r, c))
  {
    var a, ff := Forward(us, n, cols[p[c]]), Forward(us, n, f);
    ForwardIsometry(us, n, cols[p[c]], f);
    DotCommutes(a, ff);
    assert IsColumn(a, r, c, n);
    DotPadded(ff, a, Top(ff, n), Col(r, c), n);
  }

  // ---- the model's decrease ----

  lemma ProductsOf(cols: Mat, f: Vec, r: Mat, qtf: Vec, p: seq<nat>, n: nat, m: nat, x: Vec)
    requires Represents(cols, f, r, qtf, p, n, m) && |x| == n
    ensures RepresentsAt(cols, f, r, qtf, p, n, m, x)
  {
  }

  lemma DifferenceSquare(f: Vec, y: Vec)
    requires |f| == |y|
    ensures Dot(Axpy(-1.0, y, f), Axpy(-1.0, y, f)) == Dot(f, f) - 2.0 * Dot(f, y) + Dot(y, y)
  {
    var s := Axpy(-1.0, y, f);
    DotAxpy(-1.0, y, f, s);
    DotAxpy(-1.0, y, f, f);
    DotAxpy(-1.0, y, f, y);
    DotCommutes(f, y);
  }
}
