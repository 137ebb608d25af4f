/** lmpar: the Levenberg-Marquardt parameter of a trust region of radius delta, by a safeguarded iteration. */
module Lmpar {
  import opened Reals
  import opened Vectors
  import opened Machines
  import opened Arrays
  import opened Dogleg
  import opened Qrfac
  import opened Qrsolv
  import opened Permutations
  import opened Levenberg
  import opened Newton
  import opened DampingSearch

  // ---- the Gauss-Newton direction ----

  /** The columns from j on have been eliminated from the right side kept in w. */
  ghost predicate PartialBack(r: Mat, b: Vec, w: Vec, nsing: nat, j: nat) {
    && IsMat(r, |w|, |w|) && |b| == |w| && j <= nsing <= |w|
    && (forall i :: nsing <= i < |w| ==> w[i] == 0.0)
    && (forall i :: 0 <= i < j ==> w[i] == b[i] - DotR(r[i], w, j, |w|))
    && (forall i :: j <= i < nsing ==> RowSolved(r, w, b, i))
  }

  lemma PartialBackStart(r: Mat, b: Vec, w: Vec, nsing: nat)
    requires IsMat(r, |w|, |w|) && |b| == |w| && nsing <= |w|
    requires forall i :: 0 <= i < |w| ==> w[i] == if i < nsing then b[i] else 0.0
    ensures PartialBack(r, b, w, nsing, nsing)
  {
    forall i | 0 <= i < nsing
      ensures w[i] == b[i] - DotR(r[i], w, nsing, |w|)
    {
      DotRZero(r[i], w, nsing, |w|);
    }
  }

  /** Component j has been divided by its pivot, and column j eliminated from the components above. */
  ghost predicate ColumnGone(r: Mat, w: Vec, w': Vec, j: nat) {
    && IsMat(r, |w|, |w|) && |w'| == |w| && j < |w| && w'[j] * r[j][j] == w[j]
    && (forall i :: 0 <= i < j ==> w'[i] == w[i] - r[i][j] * w'[j])
    && (forall i :: j < i < |w| ==> w'[i] == w[i])
  }

  lemma PartialBackStep(r: Mat, b: Vec, w: Vec, w': Vec, nsing: nat, j: nat)
    requires PartialBack(r, b, w, nsing, j + 1) && ColumnGone(r, w, w', j)
    ensures PartialBack(r, b, w', nsing, j)
  {
    forall i | 0 <= i < j
      ensures w'[i] == b[i] - DotR(r[i], w', j, |w|)
    {
      FirstTerm(r[i], w, w', j, r[i][j] * w'[j]);
    }
    FirstTerm(r[j], w, w', j, w[j]);
    assert RowSolved(r, w', b, j);
    LaterRowsKept(r, w, w', b, j, nsing);
  }

  /** A partial product from component j on, its first term apart. */
  lemma FirstTerm(row: Vec, w: Vec, w': Vec, j: nat, p: real)
    requires j < |w| == |w'| == |row| && p == row[j] * w'[j] && forall i :: j < i < |w| ==> w'[i] == w[i]
    ensures DotR(row, w', j, |w|) == p + DotR(row, w, j + 1, |w|)
  {
    DotRSplit(row, w', j, j + 1, |w|);
    DotRSame(row, w, w', j + 1, |w|);
    assert DotR(row, w', j, j) == 0.0;
  }

  lemma PartialBackEnd(r: Mat, b: Vec, w: Vec, nsing: nat)
    requires PartialBack(r, b, w, nsing, 0) && UpperTriangular(r)
    requires (forall i :: 0 <= i < nsing ==> r[i][i] != 0.0) && (nsing < |w| ==> r[nsing][nsing] == 0.0)
    ensures LeadingSolve(r, b, w, nsing)
  {
    forall i | 0 <= i < nsing
      ensures Dot(r[i], w) == b[i]
    {
      assert RowSolved(r, w, b, i);
      DotSuffix(r[i], w, i);
    }
  }

  /** Once a diagonal entry is zero, its row and the rows after it are. */
  ghost predicate ZeroRest(r: Mat) {
    && IsMat(r, |r|, |r|)
    && forall i, h, c :: 0 <= i <= h < |r| && 0 <= c < |r| && r[i][i] == 0.0 ==> r[h][c] == 0.0
  }

  /** Then the leading block is all of the system: its solution meets the normal equations without damping. */
  lemma LeadingIsDamped(r: Mat, d: Vec, b: Vec, z: Vec, nsing: nat)
    requires LeadingSolve(r, b, z, nsing) && UpperTriangular(r) && ZeroRest(r) && |d| == |z|
    ensures Damped(r, d, b, z, 0.0)
  {
    var y := Mul(r, z);
    LeadingResidual(r, b, z, nsing);
    forall j | 0 <= j < |z|
      ensures Comb(y, r, |z|)[j] == Comb(b, r, |z|)[j]
    {
      CombAt(y, r, |z|, j);
      CombAt(b, r, |z|, j);
      forall i | 0 <= i < |z|
        ensures y[i] * Col(r, j)[i] == b[i] * Col(r, j)[i]
      {
        if i >= nsing {
          assert r[i][j] == 0.0;
        }
      }
      DotRCong(y, Col(r, j), b, Col(r, j), 0, |z|);
    }
    assert Axpy(0.0, Times(d, Times(d, z)), Comb(y, r, |z|)) == Comb(b, r, |z|);
  }

  lemma {:induction false} LeadingKernel(r: Mat, z: Vec, nsing: nat, i: nat)
    requires IsMat(r, |z|, |z|) && UpperTriangular(r) && i <= nsing <= |z| && Mul(r, z) == Zero(|z|)
    requires (forall k :: 0 <= k < nsing ==> r[k][k] != 0.0) && forall k :: nsing <= k < |z| ==> z[k] == 0.0
    ensures forall k :: i <= k < |z| ==> z[k] == 0.0
    decreases nsing - i
  {
    if i < nsing {
      LeadingKernel(r, z, nsing, i + 1);
      assert Mul(r, z)[i] == 0.0;
      DotSuffix(r[i], z, i);
      DotRSplit(r[i], z, i, i + 1, |z|);
      DotRZero(r[i], z, i + 1, |z|);
      assert DotR(r[i], z, i, i) == 0.0;
      ZeroProduct(r[i][i], z[i]);
    }
  }

  /** A Gauss-Newton direction other than zero needs a gradient other than zero. */
  lemma GradientBehind(r: Mat, b: Vec, z: Vec, nsing: nat)
    requires LeadingSolve(r, b, z, nsing) && UpperTriangular(r) && Comb(b, r, |z|) == Zero(|z|)
    ensures z == Zero(|z|)
  {
    LeadingResidual(r, b, z, nsing);
    Adjoint(b, r, z);
    DotRZero(Zero(|z|), z, 0, |z|);
    DotNonneg(Mul(r, z));
    LeadingKernel(r, z, nsing, 0);
  }

  /** wa1 = the columns' right side for the leading block: zero from the first zero pivot on. */
  method StartBack(n: nat, r: array2<real>, b: Vec, wa1: array<real>) returns (nsing: nat)
    requires n == r.Length1 == wa1.Length == |b| <= r.Length0
    modifies wa1
    ensures nsing <= n && (forall i :: 0 <= i < nsing ==> r[i, i] != 0.0) && (nsing < n ==> r[nsing, nsing] == 0.0)
    ensures forall i :: 0 <= i < n ==> wa1[i] == if i < nsing then b[i] else 0.0
  {
    nsing := n;
    for j := 0 to n
      invariant nsing < j || nsing == n
      invariant forall i :: 0 <= i < j && i < nsing ==> r[i, i] != 0.0
      invariant nsing < n ==> r[nsing, nsing] == 0.0
      invariant forall i :: 0 <= i < j ==> wa1[i] == if i < nsing then b[i] else 0.0
    {
      wa1[j] := b[j];
      if r[j, j] == 0.0 && nsing == n {
        nsing := j;
      }
      if nsing < n {
        wa1[j] := 0.0;
      }
    }
  }

  /** Divides component j and eliminates it from the components above. */
  method BackColumn(n: nat, r: array2<real>, j: nat, wa1: array<real>, ghost f: Mat)
    requires n == r.Length1 == wa1.Length <= r.Length0 && j < n && r[j, j] != 0.0 && f == Factor(ColsOf(r), n)
    modifies wa1
    ensures ColumnGone(f, old(wa1[..]), wa1[..], j)
  {
    hide ColsOf, ColOf;
    assert f[j][j] == r[j, j];
    var temp := DivideBy(wa1[j], r[j, j]);
    wa1[j] := temp;
    for i := 0 to j
      invariant wa1[j] == temp
      invariant forall h :: 0 <= h < i ==> wa1[h] == old(wa1[h]) - f[h][j] * temp
      invariant forall h :: i <= h < n && h != j ==> wa1[h] == old(wa1[h])
    {
      assert f[i][j] == r[i, j];
      wa1[i] := wa1[i] - r[i, j] * temp;
    }
  }

  method DivideBy(a: real, b: real) returns (q: real)
    requires b != 0.0
    ensures q * b == a && q == a / b
  {
    q := a / b;
  }

  lemma FactorIsUpper(cols: Mat, n: nat)
    requires |cols| == n && forall h :: 0 <= h < n ==> |cols[h]| >= n
    ensures UpperTriangular(Factor(cols, n))
  {
  }

  /** Column j - 1 of the back substitution. */
  method BackStep(n: nat, r: array2<real>, ghost b: Vec, wa1: array<real>, ghost nsing: nat, j: nat) returns (j': nat)
    requires n == r.Length1 == wa1.Length <= r.Length0 && 0 < j <= n && r[j - 1, j - 1] != 0.0
    requires PartialBack(Factor(ColsOf(r), n), b, wa1[..], nsing, j)
    modifies wa1
    ensures j' == j - 1 && PartialBack(Factor(ColsOf(r), n), b, wa1[..], nsing, j')
  {
    ghost var f, w := Factor(ColsOf(r), n), wa1[..];
    j' := j - 1;
    BackColumn(n, r, j', wa1, f);
    PartialBackStep(f, b, w, wa1[..], nsing, j');
  }

  /** The Gauss-Newton direction, or the least-squares stand-in of a rank-deficient factor, in the order of the
      factorization. */
  method GaussNewton(n: nat, r: array2<real>, b: Vec, wa1: array<real>) returns (nsing: nat)
    requires n == r.Length1 == wa1.Length == |b| <= r.Length0
    modifies wa1
    ensures LeadingSolve(Factor(ColsOf(r), n), b, wa1[..], nsing)
  {
    hide LeadingSolve, Factor, ColsOf, PartialBack;
    ghost var f := Factor(ColsOf(r), n);
    assert forall i :: 0 <= i < n ==> f[i][i] == ColsOf(r)[i][i] == r[i, i];
    nsing := StartBack(n, r, b, wa1);
    PartialBackStart(f, b, wa1[..], nsing);
    var j := nsing;
    while j > 0
      invariant PartialBack(f, b, wa1[..], nsing, j)
    {
      j := BackStep(n, r, b, wa1, nsing, j);
    }
    FactorIsUpper(ColsOf(r), n);
    PartialBackEnd(f, b, wa1[..], nsing);
  }

  // ---- forward substitution ----

  /** The first j components of w solve transpose(T) y = q as far as they reach. */
  ghost predicate PartialForward(t: Mat, q: Vec, w: Vec, j: nat) {
    && IsMat(t, |w|, |w|) && |q| == |w| && j <= |w|
    && forall i :: 0 <= i < j ==> DotR(w, Col(t, i), 0, i + 1) == q[i]
  }

  lemma PartialForwardStep(t: Mat, q: Vec, w: Vec, w': Vec, j: nat)
    requires PartialForward(t, q, w, j) && j < |w| == |w'| && (forall i :: 0 <= i < j ==> w'[i] == w[i])
    requires w'[j] * t[j][j] == q[j] - DotR(w, Col(t, j), 0, j)
    ensures PartialForward(t, q, w', j + 1)
  {
    forall i | 0 <= i < j + 1
      ensures DotR(w', Col(t, i), 0, i + 1) == q[i]
    {
      if i < j {
        DotREqual(w', Col(t, i), w, Col(t, i), 0, i + 1);
      } else {
        DotREqual(w', Col(t, j), w, Col(t, j), 0, j);
      }
    }
  }

  lemma PartialForwardEnd(t: Mat, q: Vec, w: Vec)
    requires PartialForward(t, q, w, |w|) && UpperTriangular(t)
    ensures Comb(w, t, |w|) == q
  {
    forall i | 0 <= i < |w|
      ensures Comb(w, t, |w|)[i] == q[i]
    {
      CombAt(w, t, |w|, i);
      DotRSplit(w, Col(t, i), 0, i + 1, |w|);
      DotRZero(w, Col(t, i), i + 1, |w|);
    }
  }

  /** The sum of the first j products of wa1 with column j. */
  method ColumnSum(r: array2<real>, j: nat, k: nat, v: Vec) returns (sum: real)
    requires k <= |v| && k <= r.Length0 && j < r.Length1
    ensures sum == DotR(v, ColOf(r, j), 0, k)
  {
    sum := 0.0;
    for i := 0 to k
      invariant sum == DotR(v, ColOf(r, j), 0, i)
    {
      sum := sum + r[i, j] * v[i];
    }
  }

  method ForwardStep(n: nat, r: array2<real>, ghost q: Vec, wa1: array<real>, j: nat) returns (j': nat)
    requires n == r.Length1 == wa1.Length == |q| <= r.Length0 && j < n && r[j, j] != 0.0
    requires PartialForward(Factor(ColsOf(r), n), q, wa1[..], j) && forall i :: j <= i < n ==> wa1[i] == q[i]
    modifies wa1
    ensures j' == j + 1 && PartialForward(Factor(ColsOf(r), n), q, wa1[..], j')
    ensures forall i :: j' <= i < n ==> wa1[i] == q[i]
  {
    hide Factor, ColsOf, ColOf, Col, DotR;
    ghost var f, w := Factor(ColsOf(r), n), wa1[..];
    var sum := ColumnSum(r, j, j, wa1[..]);
    DotREqual(w, ColOf(r, j), w, Col(f, j), 0, j);
    wa1[j] := DivideBy(wa1[j] - sum, r[j, j]);
    assert f[j][j] == r[j, j];
    PartialForwardStep(f, q, w, wa1[..], j);
    j' := j + 1;
  }

  /** Solves transpose(R) y = q in place, for a nonsingular R. */
  method ForwardSolve(n: nat, r: array2<real>, ghost q: Vec, wa1: array<real>)
    requires n == r.Length1 == wa1.Length <= r.Length0 && wa1[..] == q && forall i :: 0 <= i < n ==> r[i, i] != 0.0
    modifies wa1
    ensures Comb(wa1[..], Factor(ColsOf(r), n), n) == q
  {
    var j := 0;
    while j < n
      invariant j <= n && PartialForward(Factor(ColsOf(r), n), q, wa1[..], j)
      invariant forall i :: j <= i < n ==> wa1[i] == q[i]
    {
      j := ForwardStep(n, r, q, wa1, j);
    }
    FactorIsUpper(ColsOf(r), n);
    PartialForwardEnd(Factor(ColsOf(r), n), q, wa1[..]);
  }

  // ---- the bounds ----

  /** wa1 = D (D x / dxnorm), permuted */
  method FormDirection(n: nat, ipvt: seq<int>, diag: Vec, wa2: Vec, dxnorm: real, wa1: array<real>)
    requires n == |diag| == |wa2| == wa1.Length && dxnorm != 0.0 && Numbers(true, ipvt, n)
    requires Permutation(Order(true, ipvt, n))
    modifies wa1
    ensures Scale(dxnorm, wa1[..]) == Permuted(Times(diag, wa2), Order(true, ipvt, n))
  {
    ghost var p := Order(true, ipvt, n);
    ghost var v := Permuted(Times(diag, wa2), p);
    for j := 0 to n
      invariant forall i :: 0 <= i < j ==> Scale(dxnorm, wa1[..])[i] == v[i]
    {
      var l := ipvt[j] - 1;
      wa1[j] := ScaledQuotient(diag[l], wa2[l], dxnorm, v[j]);
    }
  }

  method ScaledQuotient(d: real, w: real, k: real, ghost v: real) returns (t: real)
    requires k != 0.0 && v == d * w
    ensures k * t == v
  {
    var q := DivideBy(w, k);
    t := d * q;
    Associate(k, q, w, d);
    assert k * (d * q) == d * (q * k);
  }

  /** q solves k q = D^2 z0 and transpose(R) y = q, where k = |D z0| > 0: then y is not zero. */
  lemma DirectionNonzero(mach: Machine, t: Mat, d: Vec, z: Vec, y: Vec, q: Vec, k: real)
    requires mach.Valid() && IsMat(t, |y|, |y|) && |d| == |z| == |q| == |y| && Comb(y, t, |y|) == q
    requires Scale(k, q) == Times(d, Times(d, z)) && k == ScaledNorm(mach, d, z) > 0.0
    requires forall i :: 0 <= i < |d| ==> d[i] != 0.0
    ensures mach.Norm(y) > 0.0
  {
    NormZero(mach, y);
    NormZero(mach, Times(d, z));
    if y == Zero(|y|) {
      CombZero(t, |y|);
      forall i | 0 <= i < |d|
        ensures Times(d, z)[i] == 0.0
      {
        assert Scale(k, q)[i] == d[i] * Times(d, z)[i];
        ZeroProduct(d[i], Times(d, z)[i]);
      }
    }
  }

  /** parl for a nonsingular factor. wa2 = D x for the Gauss-Newton direction x, z0 that direction in the order of R. */
  method LowerBound(mach: Machine, n: nat, r: array2<real>, ipvt: seq<int>, diag: Vec, delta: real, dxnorm: real,
                    wa1: array<real>, wa2: Vec, ghost z0: Vec)
    returns (parl: real, ghost y: Vec)
    requires mach.Valid() && n == r.Length1 == wa1.Length == |diag| == |wa2| == |z0| <= r.Length0
    requires Numbers(true, ipvt, n) && Permutation(Order(true, ipvt, n))
    requires forall i :: 0 <= i < n ==> diag[i] != 0.0 && r[i, i] != 0.0
    requires dxnorm == ScaledNorm(mach, Permuted(diag, Order(true, ipvt, n)), z0)
    requires var d := Permuted(diag, Order(true, ipvt, n)); Permuted(Times(diag, wa2), Order(true, ipvt, n)) == Times(d,
        Times(d, z0))
    requires 0.0 < delta < dxnorm
    modifies wa1
    ensures FirstLower(mach, Factor(ColsOf(r), n), Permuted(diag, Order(true, ipvt, n)), z0, delta, y, parl)
  {
    hide Factor, Times, Permutation;
    ghost var f, d := Factor(ColsOf(r), n), Permuted(diag, Order(true, ipvt, n));
    FormDirection(n, ipvt, diag, wa2, dxnorm, wa1);
    ghost var q := wa1[..];
    ForwardSolve(n, r, q, wa1);
    y := wa1[..];
    DirectionNonzero(mach, f, d, z0, y, q, dxnorm);
    var temp := mach.Norm(wa1[..]);
    parl := Step(dxnorm - delta, delta, temp);
  }

  /** wa1 = inverse(D) transpose(R) b, permuted; gnorm its norm. */
  method ScaledGradientNorm(mach: Machine, n: nat, r: array2<real>, ipvt: seq<int>, diag: Vec, b: Vec, wa1: array<real>)
    returns (gnorm: real)
    requires mach.Valid() && n == r.Length1 == wa1.Length == |diag| == |b| <= r.Length0
    requires Numbers(true, ipvt, n) && Permutation(Order(true, ipvt, n)) && forall i :: 0 <= i < n ==> diag[i] != 0.0
    modifies wa1
    ensures gnorm == mach.Norm(Divided(Comb(b, Factor(ColsOf(r), n), n), Permuted(diag, Order(true, ipvt, n))))
  {
    hide Order, Divided, Factor, ColsOf, Permuted, Dot, CombTo, ColOf;
    ghost var f, d := Factor(ColsOf(r), n), Permuted(diag, Order(true, ipvt, n));
    ghost var g := Divided(Comb(b, f, n), d);
    for j := 0 to n
      invariant forall i :: 0 <= i < j ==> wa1[i] == g[i]
    {
      wa1[j] := GradientAt(n, r, diag[ipvt[j] - 1], b, j, d);
    }
    assert wa1[..] == g;
    gnorm := mach.Norm(wa1[..]);
  }

  method GradientAt(n: nat, r: array2<real>, dj: real, b: Vec, j: nat, ghost d: Vec) returns (t: real)
    requires n == r.Length1 == |b| == |d| <= r.Length0 && j < n && dj == d[j] && forall i :: 0 <= i < n ==> d[i] != 0.0
    ensures t == Divided(Comb(b, Factor(ColsOf(r), n), n), d)[j]
  {
    var sum := ColumnSum(r, j, j + 1, b);
    ColumnOfFactor(ColsOf(r), n, j, b);
    t := sum / dj;
  }

  /** Component j of transpose(R) b. */
  lemma ColumnOfFactor(cols: Mat, n: nat, j: nat, b: Vec)
    requires |cols| == n == |b| && (forall h :: 0 <= h < n ==> |cols[h]| >= n) && j < n
    ensures Comb(b, Factor(cols, n), n)[j] == DotR(b, cols[j], 0, j + 1)
  {
    var c := Col(Factor(cols, n), j);
    CombAt(b, Factor(cols, n), n, j);
    DotRSplit(b, c, 0, j + 1, n);
    DotRZero(b, c, j + 1, n);
    DotREqual(b, c, b, cols[j], 0, j + 1);
  }

  // ---- one iteration ----

  /** The factor is still on and above the diagonal, and whatever is below its rows has not moved. */
  ghost predicate UpperKept(cols0: Mat, cols: Mat, n: nat) {
    && n == |cols| == |cols0| && (forall h :: 0 <= h < n ==> |cols[h]| == |cols0[h]| >= n)
    && (forall h, i :: 0 <= h < n && 0 <= i < |cols[h]| && (i <= h || i >= n) ==> cols[h][i] == cols0[h][i])
  }

  lemma SameFactor(cols0: Mat, cols: Mat, n: nat)
    requires UpperKept(cols0, cols, n)
    ensures Factor(cols, n) == Factor(cols0, n)
  {
    forall i | 0 <= i < n
      ensures Factor(cols, n)[i] == Factor(cols0, n)[i]
    {
      forall h | 0 <= h < n
        ensures Factor(cols, n)[i][h] == Factor(cols0, n)[i][h]
      {
      }
    }
  }

  lemma SqrtPositive(mach: Machine, par: real)
    requires mach.Valid() && par > 0.0
    ensures mach.sqrt(par) > 0.0 && mach.sqrt(par) * mach.sqrt(par) == par
  {
    SquareSign(mach.sqrt(par), par);
  }

  lemma NonzeroProduct(t: real, d: real, e: real)
    requires t > 0.0 && d != 0.0 && e == t * d
    ensures e != 0.0
  {
    if e == 0.0 {
      ZeroProduct(t, d);
    }
  }

  /** The solution for the damping par, with the rows sqrt(par) D below R. */
  method Evaluate(mach: Machine, n: nat, r: array2<real>, ipvt: seq<int>, diag: Vec, b: Vec, par: real, x: array<real>,
                  sdiag: array<real>, wa1: array<real>, wa2: array<real>)
    requires mach.Valid()
    requires n == r.Length1 == x.Length == sdiag.Length == wa1.Length == wa2.Length == |diag| == |b| <= r.Length0
    requires x != sdiag && x != wa1 && x != wa2 && sdiag != wa1 && sdiag != wa2 && wa1 != wa2
    requires Numbers(true, ipvt, n) && Permutation(Order(true, ipvt, n)) && par > 0.0
    requires forall i :: 0 <= i < n ==> diag[i] != 0.0
    modifies r, x, sdiag, wa1, wa2
    ensures UpperKept(old(ColsOf(r)), ColsOf(r), n) && forall i :: 0 <= i < n ==> sdiag[i] != 0.0
    ensures var p := Order(true, ipvt, n); Damped(Factor(old(ColsOf(r)), n), Permuted(diag, p), b, Permuted(x[..], p),
                                                  par)
    ensures DampedTriangle(Triangle(ColsOf(r), sdiag[..], n, n), Factor(old(ColsOf(r)), n),
                           Permuted(diag, Order(true, ipvt, n)), par)
    ensures wa2[..] == Times(diag, x[..])
  {
    hide Solved, Damped, DampedTriangle, Factor, Triangle, Times, Scale, UpperKept;
    ghost var cols0, p := ColsOf(r), Order(true, ipvt, n);
    var temp := mach.sqrt(par);
    ScaleInto(temp, diag, wa1);
    ghost var w, nsing := Qrsolv.Qrsolv(mach, n, r, ipvt, wa1[..], b, x, sdiag, wa2);
    ScaledPermuted(temp, diag, p);
    SolvedIsDamped(mach, cols0, ColsOf(r), sdiag[..], b, Permuted(diag, p), Permuted(x[..], p), n, par, w,
                   nsing);
    FormScaled(diag, x[..], wa2);
  }

  lemma SolvedIsDamped(mach: Machine, cols0: Mat, cols: Mat, sd: Vec, b: Vec, d: Vec, z: Vec, n: nat, par: real, w: Vec,
                       nsing: nat)
    requires mach.Valid() && par > 0.0 && Solved(cols0, cols, sd, b, Scale(mach.sqrt(par), d), z, n, w, nsing)
    requires forall i :: 0 <= i < |d| ==> d[i] != 0.0
    ensures UpperKept(cols0, cols, n) && forall i :: 0 <= i < n ==> sd[i] != 0.0
    ensures Damped(Factor(cols0, n), d, b, z, par)
    ensures DampedTriangle(Triangle(cols, sd, n, n), Factor(cols0, n), d, par)
  {
    hide Damped, Augmented, Factor;
    var temp := mach.sqrt(par);
    TriangleDiagonal(cols, sd, n);
    SqrtPositive(mach, par);
    ScaledNonzero(temp, d);
    NonsingularSolves(Triangle(cols, sd, n, n), w, Factor(cols0, n), b, Scale(temp, d), z, n, nsing);
    AugmentedIsDamped(Factor(cols0, n), d, b, z, temp, par);
    DampingSquares(temp, par, d);
    TriangleIsUpper(cols, sd, n);
  }

  lemma DampingSquares(t: real, par: real, d: Vec)
    requires t * t == par
    ensures Times(Scale(t, d), Scale(t, d)) == Scale(par, Times(d, d))
  {
    forall i | 0 <= i < |d|
      ensures Times(Scale(t, d), Scale(t, d))[i] == Scale(par, Times(d, d))[i]
    {
      DampingSquare(t, par, d[i], Scale(t, d)[i]);
    }
  }

  lemma DampingSquare(t: real, par: real, d: real, e: real)
    requires t * t == par && e == t * d
    ensures e * e == par * (d * d)
  {
    assert (t * d) * (t * d) == (t * t) * (d * d);
  }

  lemma TriangleDiagonal(cols: Mat, sd: Vec, n: nat)
    requires n == |cols| == |sd| && forall h :: 0 <= h < n ==> |cols[h]| >= n
    ensures forall i :: 0 <= i < n ==> Triangle(cols, sd, n, n)[i][i] == sd[i]
  {
  }

  lemma ScaledPermuted(t: real, d: Vec, p: seq<nat>)
    requires Permutation(p) && |p| == |d|
    ensures Permuted(Scale(t, d), p) == Scale(t, Permuted(d, p))
  {
    forall i | 0 <= i < |d|
      ensures Permuted(Scale(t, d), p)[i] == Scale(t, Permuted(d, p))[i]
    {
      assert Permuted(Scale(t, d), p)[i] == Scale(t, d)[p[i]];
    }
  }

  lemma ScaledNonzero(t: real, d: Vec)
    requires t > 0.0 && forall i :: 0 <= i < |d| ==> d[i] != 0.0
    ensures forall i :: 0 <= i < |d| ==> Scale(t, d)[i] != 0.0
  {
    forall i | 0 <= i < |d|
      ensures Scale(t, d)[i] != 0.0
    {
      NonzeroProduct(t, d[i], Scale(t, d)[i]);
    }
  }

  method ScaleInto(t: real, v: Vec, out: array<real>)
    requires out.Length == |v|
    modifies out
    ensures out[..] == Scale(t, v)
  {
    for j := 0 to |v|
      invariant forall i :: 0 <= i < j ==> out[i] == Scale(t, v)[i]
    {
      out[j] := t * v[j];
    }
  }

  /** The first j components of w are final, and have been eliminated from the rest. */
  ghost predicate PartialDown(s: Mat, q: Vec, w: Vec, j: nat) {
    && PartialForward(s, q, w, j)
    && forall i :: j <= i < |w| ==> w[i] == q[i] - DotR(w, Col(s, i), 0, j)
  }

  lemma PartialDownStep(s: Mat, q: Vec, w: Vec, w': Vec, j: nat)
    requires PartialDown(s, q, w, j) && j < |w| == |w'| && (forall i :: 0 <= i < j ==> w'[i] == w[i])
    requires w'[j] * s[j][j] == w[j] && forall i :: j < i < |w| ==> w'[i] == w[i] - s[j][i] * w'[j]
    ensures PartialDown(s, q, w', j + 1)
  {
    PartialForwardStep(s, q, w, w', j);
    forall i | j + 1 <= i < |w|
      ensures w'[i] == q[i] - DotR(w', Col(s, i), 0, j + 1)
    {
      DotREqual(w', Col(s, i), w, Col(s, i), 0, j);
    }
  }

  /** Divides component j and eliminates it from the components below. */
  method DownColumn(n: nat, r: array2<real>, sdj: real, j: nat, wa1: array<real>)
    requires n == r.Length1 == wa1.Length <= r.Length0 && j < n && sdj != 0.0
    modifies wa1
    ensures wa1[j] * sdj == old(wa1[j])
    ensures forall i :: j < i < n ==> wa1[i] == old(wa1[i]) - r[i, j] * wa1[j]
    ensures forall i :: 0 <= i < j ==> wa1[i] == old(wa1[i])
  {
    var temp := DivideBy(wa1[j], sdj);
    wa1[j] := temp;
    for i := j + 1 to n
      invariant wa1[j] == temp
      invariant forall h :: j < h < i ==> wa1[h] == old(wa1[h]) - r[h, j] * temp
      invariant forall h :: 0 <= h < n && (h < j || h >= i) ==> wa1[h] == old(wa1[h])
    {
      wa1[i] := wa1[i] - r[i, j] * temp;
    }
  }

  method DownStep(n: nat, r: array2<real>, sd: Vec, ghost q: Vec, wa1: array<real>, j: nat) returns (j': nat)
    requires n == r.Length1 == wa1.Length == |sd| <= r.Length0 && j < n && sd[j] != 0.0
    requires PartialDown(Triangle(ColsOf(r), sd, n, n), q, wa1[..], j)
    modifies wa1
    ensures j' == j + 1 && PartialDown(Triangle(ColsOf(r), sd, n, n), q, wa1[..], j')
  {
    hide Col, DotR;
    ghost var s, w := Triangle(ColsOf(r), sd, n, n), wa1[..];
    DownColumn(n, r, sd[j], j, wa1);
    j' := j + 1;
    assert s[j] == TriangleRow(ColsOf(r)[j], sd, n, n, j);
    assert forall i :: j < i < n ==> s[j][i] == ColsOf(r)[j][i] == r[i, j];
    PartialDownStep(s, q, w, wa1[..], j);
  }

  /** The Newton correction of the damping, from transpose(S) y = D^2 x / |D x|. */
  method Correction(mach: Machine, n: nat, r: array2<real>, sd: Vec, ipvt: seq<int>, diag: Vec, fp: real, delta: real,
                    dxnorm: real, wa1: array<real>, wa2: Vec, ghost z: Vec)
    returns (parc: real, ghost y: Vec)
    requires mach.Valid() && n == r.Length1 == wa1.Length == |sd| == |diag| == |wa2| == |z| <= r.Length0
    requires Numbers(true, ipvt, n) && Permutation(Order(true, ipvt, n)) && delta > 0.0
    requires forall i :: 0 <= i < n ==> sd[i] != 0.0 && diag[i] != 0.0
    requires dxnorm == ScaledNorm(mach, Permuted(diag, Order(true, ipvt, n)), z) > 0.0
    requires var d := Permuted(diag, Order(true, ipvt, n)); Permuted(Times(diag, wa2), Order(true, ipvt, n)) == Times(d,
        Times(d, z))
    modifies wa1
    ensures |y| == n && mach.Norm(y) > 0.0 && parc == Step(fp, delta, mach.Norm(y))
    ensures var d := Permuted(diag, Order(true, ipvt, n));
            Scale(dxnorm, Comb(y, Triangle(ColsOf(r), sd, n, n), n)) == Times(d, Times(d, z))
  {
    hide Numbers, Step;
    ghost var s := Triangle(ColsOf(r), sd, n, n);
    FormDirection(n, ipvt, diag, wa2, dxnorm, wa1);
    ghost var q := wa1[..];
    var j := 0;
    while j < n
      invariant PartialDown(s, q, wa1[..], j)
    {
      j := DownStep(n, r, sd, q, wa1, j);
    }
    TriangleIsUpper(ColsOf(r), sd, n);
    PartialForwardEnd(s, q, wa1[..]);
    y := wa1[..];
    DirectionNonzero(mach, s, Permuted(diag, Order(true, ipvt, n)), z, y, q, dxnorm);
    var temp := mach.Norm(wa1[..]);
    parc := Step(fp, delta, temp);
  }

  // ---- the routine ----

  /** D x and D (D x) in the order of the factorization. */
  lemma PermutedScales(diag: Vec, x: Vec, p: seq<nat>)
    requires Permutation(p) && |p| == |diag| == |x|
    ensures Permuted(Times(diag, Times(diag, x)), p) == Times(Permuted(diag, p),
                                                              Times(Permuted(diag, p), Permuted(x, p)))
  {
    var u, v := Permuted(Times(diag, Times(diag, x)), p), Times(Permuted(diag, p),
                                                                Times(Permuted(diag, p), Permuted(x, p)));
    forall j | 0 <= j < |p|
      ensures u[j] == v[j]
    {
      assert u[j] == Times(diag, Times(diag, x))[p[j]];
    }
  }

  /** The lower bound: Newton's from the Gauss-Newton direction when the factor is nonsingular, zero otherwise. */
  method ChooseLower(mach: Machine, n: nat, r: array2<real>, ipvt: seq<int>, diag: Vec, b: Vec, delta: real,
                     dxnorm: real, nsing: nat, wa1: array<real>, wa2: Vec, ghost x: Vec)
    returns (parl: real)
    requires mach.Valid() && n == r.Length1 == wa1.Length == |diag| == |wa2| == |b| == |x| <= r.Length0
    requires Numbers(true, ipvt, n) && Permutation(Order(true, ipvt, n)) && forall i :: 0 <= i < n ==> diag[i] != 0.0
    requires LeadingSolve(Factor(ColsOf(r), n), b, Permuted(x, Order(true, ipvt, n)), nsing) && wa2 == Times(diag, x)
    requires dxnorm == ScaledNorm(mach, diag, x) > delta > 0.0
    modifies wa1
    ensures if nsing < n then parl == 0.0
            else exists y: Vec ::
              FirstLower(mach, Factor(ColsOf(r), n), Permuted(diag, Order(true, ipvt, n)),
                         Permuted(x, Order(true, ipvt, n)), delta, y, parl)
  {
    ghost var f, p := Factor(ColsOf(r), n), Order(true, ipvt, n);
    ghost var z0 := Permuted(x, p);
    parl := 0.0;
    if nsing >= n {
      PermutedNorm(mach, diag, x, p);
      PermutedScales(diag, x, p);
      assert forall i :: 0 <= i < n ==> f[i][i] == ColsOf(r)[i][i] == r[i, i];
      ghost var y;
      parl, y := LowerBound(mach, n, r, ipvt, diag, delta, dxnorm, wa1, wa2, z0);
    }
  }

  /** The upper bound from the scaled gradient. */
  method ChooseUpper(mach: Machine, n: nat, r: array2<real>, ipvt: seq<int>, diag: Vec, b: Vec, delta: real,
                     wa1: array<real>)
    returns (gnorm: real, paru: real)
    requires mach.Valid() && n == r.Length1 == wa1.Length == |diag| == |b| <= r.Length0 && delta > 0.0
    requires Numbers(true, ipvt, n) && Permutation(Order(true, ipvt, n)) && forall i :: 0 <= i < n ==> diag[i] != 0.0
    modifies wa1
    ensures gnorm == mach.Norm(Divided(Comb(b, Factor(ColsOf(r), n), n), Permuted(diag, Order(true, ipvt, n))))
    ensures paru == FirstUpper(mach, gnorm, delta)
  {
    gnorm := ScaledGradientNorm(mach, n, r, ipvt, diag, b, wa1);
    paru := gnorm / delta;
    if paru == 0.0 {
      paru := mach.dwarf / Min(delta, 0.1);
    }
  }

  /** The estimate the search begins with: the caller's, moved between the bounds, or a positive stand-in for zero. */
  method ChooseEstimate(par0: real, parl: real, paru: real, gnorm: real, dxnorm: real) returns (par: real)
    requires dxnorm > 0.0
    ensures par == FirstEstimate(par0, parl, paru, gnorm, dxnorm)
  {
    par := Max(par0, parl);
    par := Min(par, paru);
    if par == 0.0 {
      par := gnorm / dxnorm;
    }
  }

  /** Moves the bounds to the evaluated estimate and the estimate by the Newton correction. */
  method Improve(mach: Machine, n: nat, r: array2<real>, ipvt: seq<int>, diag: Vec, b: Vec, delta: real, s0: Search,
                 dxnorm: real, ghost x: Vec, sd: Vec, wa1: array<real>, wa2: Vec, ghost f: Mat)
    returns (s: Search, ghost y: Vec)
    requires mach.Valid() && n == r.Length1 == wa1.Length == |x| == |sd| == |wa2| == |diag| == |b| <= r.Length0
    requires Numbers(true, ipvt, n) && Permutation(Order(true, ipvt, n)) && delta > 0.0 && wa2 == Times(diag, x)
    requires forall i :: 0 <= i < n ==> sd[i] != 0.0 && diag[i] != 0.0
    requires dxnorm == ScaledNorm(mach, Permuted(diag, Order(true, ipvt, n)), Permuted(x, Order(true, ipvt, n))) > 0.0
    requires Damped(f, Permuted(diag, Order(true, ipvt, n)), b, Permuted(x, Order(true, ipvt, n)), s0.par)
    requires DampedTriangle(Triangle(ColsOf(r), sd, n, n), f, Permuted(diag, Order(true, ipvt, n)), s0.par)
    requires s0.par > 0.0
    modifies wa1
    ensures Tried(mach, Triangle(ColsOf(r), sd, n, n), f, Permuted(diag, Order(true, ipvt, n)), b, s0.par,
                  Permuted(x, Order(true, ipvt, n)), y)
    ensures s == Advance(s0, dxnorm - delta, Step(dxnorm - delta, delta, mach.Norm(y)))
  {
    hide Damped, DampedTriangle, Comb, Mul, Factor, Step;
    ghost var p := Order(true, ipvt, n);
    ghost var z := Permuted(x, p);
    PermutedScales(diag, x, p);
    var parc, fp := 0.0, dxnorm - delta;
    parc, y := Correction(mach, n, r, sd, ipvt, diag, fp, delta, dxnorm, wa1, wa2, z);
    var parl, paru := s0.parl, s0.paru;
    if fp > 0.0 {
      parl := Max(parl, s0.par);
    }
    if fp < 0.0 {
      paru := Min(paru, s0.par);
    }
    s := Search(Max(parl, s0.par + parc), parl, paru, fp, s0.iter);
  }

  /** Evaluates at the next try after s0. */
  method SearchStep(mach: Machine, n: nat, r: array2<real>, ipvt: seq<int>, diag: Vec, b: Vec, delta: real, s0: Search,
                    x: array<real>, sdiag: array<real>, wa1: array<real>, wa2: array<real>, ghost f: Mat,
                    ghost first: Search)
    returns (s: Search, done: bool)
    requires mach.Valid()
    requires n == r.Length1 == x.Length == sdiag.Length == wa1.Length == wa2.Length == |diag| == |b| <= r.Length0
    requires x != sdiag && x != wa1 && x != wa2 && sdiag != wa1 && sdiag != wa2 && wa1 != wa2
    requires Numbers(true, ipvt, n) && Permutation(Order(true, ipvt, n)) && delta > 0.0
    requires forall i :: 0 <= i < n ==> diag[i] != 0.0
    requires f == Factor(ColsOf(r), n) && Sloped(f, Permuted(diag, Order(true, ipvt, n)), b)
    requires s0.par >= 0.0 && s0.parl >= 0.0 && s0.iter < 10
    requires Reached(mach, f, Permuted(diag, Order(true, ipvt, n)), b, delta, first, NextTry(mach, s0))
    modifies r, x, sdiag, wa1, wa2
    ensures UpperKept(old(ColsOf(r)), ColsOf(r), n) && s.iter == s0.iter + 1
    ensures !done ==> s.par >= 0.0 && s.parl >= 0.0 && s.iter < 10
    ensures !done ==> Reached(mach, f, Permuted(diag, Order(true, ipvt, n)), b, delta, first, NextTry(mach, s))
    ensures done ==>
              Found(mach, f, Permuted(diag, Order(true, ipvt, n)), b, delta, first,
                    Permuted(x[..], Order(true, ipvt, n)), Triangle(ColsOf(r), sdiag[..], n, n), s)
  {
    hide Damped, DampedTriangle, Times, Comb, Mul, Factor, Triangle, Reached, Sloped, Tried, Step, Permutation;
    hide ColsOf, Permuted, UpperKept, ColOf, Zero;
    ghost var p := Order(true, ipvt, n);
    ghost var d := Permuted(diag, p);
    s := NextTry(mach, s0);
    Evaluate(mach, n, r, ipvt, diag, b, s.par, x, sdiag, wa1, wa2);
    ghost var z := Permuted(x[..], p);
    PermutedNorm(mach, diag, x[..], p);
    var dxnorm := mach.Norm(wa2[..]);
    DampedNonzero(mach, f, d, b, z, s.par);
    done := Accepts(s, dxnorm - delta, delta);
    if !done {
      ghost var y, try := [], s;
      s, y := Improve(mach, n, r, ipvt, diag, b, delta, s, dxnorm, x[..], sdiag[..], wa1, wa2[..], f);
      ReachedNext(mach, f, d, b, delta, first, try, NextTry(mach, s), Triangle(ColsOf(r), sdiag[..], n, n), z, y);
    }
  }

  /** The loop: at most ten evaluations. */
  method Iterate(mach: Machine, n: nat, r: array2<real>, ipvt: seq<int>, diag: Vec, b: Vec, delta: real, s0: Search,
                 x: array<real>, sdiag: array<real>, wa1: array<real>, wa2: array<real>)
    returns (s: Search)
    requires mach.Valid()
    requires n == r.Length1 == x.Length == sdiag.Length == wa1.Length == wa2.Length == |diag| == |b| <= r.Length0
    requires x != sdiag && x != wa1 && x != wa2 && sdiag != wa1 && sdiag != wa2 && wa1 != wa2
    requires Numbers(true, ipvt, n) && Permutation(Order(true, ipvt, n)) && delta > 0.0
    requires forall i :: 0 <= i < n ==> diag[i] != 0.0
    requires Sloped(Factor(ColsOf(r), n), Permuted(diag, Order(true, ipvt, n)), b)
    requires s0.par >= 0.0 && s0.parl >= 0.0 && s0.iter == 0
    modifies r, x, sdiag, wa1, wa2
    ensures UpperKept(old(ColsOf(r)), ColsOf(r), n) && s.par > 0.0 && 1 <= s.iter <= 10
    ensures Found(mach, old(Factor(ColsOf(r), n)), Permuted(diag, Order(true, ipvt, n)), b, delta, s0,
                  Permuted(x[..], Order(true, ipvt, n)), Triangle(ColsOf(r), sdiag[..], n, n), s)
  {
    hide Sloped, Factor, Follows, Found;
    ghost var f, d, cols0 := Factor(ColsOf(r), n), Permuted(diag, Order(true, ipvt, n)), ColsOf(r);
    s := s0;
    var done := false;
    while !done
      invariant UpperKept(cols0, ColsOf(r), n) && s.iter <= 10 && (s.iter == 0 ==> !done) && (s.iter == 10 ==> done)
      invariant !done ==> s.par >= 0.0 && s.parl >= 0.0 && Reached(mach, f, d, b, delta, s0, NextTry(mach, s))
      invariant done ==>
                Found(mach, f, d, b, delta, s0, Permuted(x[..], Order(true, ipvt, n)),
                      Triangle(ColsOf(r), sdiag[..], n, n), s)
      decreases 10 - s.iter, !done
    {
      SameFactor(cols0, ColsOf(r), n);
      s, done := SearchStep(mach, n, r, ipvt, diag, b, delta, s, x, sdiag, wa1, wa2, f, s0);
    }
    FoundPositive(mach, f, d, b, delta, s0, Permuted(x[..], Order(true, ipvt, n)), Triangle(ColsOf(r), sdiag[..], n, n),
                  s);
  }

  lemma FoundPositive(mach: Machine, r: Mat, d: Vec, b: Vec, delta: real, s0: Search, z: Vec, t: Mat, s: Search)
    requires mach.Valid() && Found(mach, r, d, b, delta, s0, z, t, s)
    ensures s.par > 0.0
  {
  }

  /** What lmpar returns. gn is the Gauss-Newton direction, z the direction of the result, both in the order of R. The
      search for a positive parameter begins with s0 and ends with s, and t is the triangle with
      transpose(T) T = transpose(R) R + par D^2. */
  ghost predicate Parameter(mach: Machine, r: Mat, d: Vec, b: Vec, delta: real, par0: real, gn: Vec, nsing: nat, z: Vec,
                            t: Mat, par: real, s0: Search, s: Search)
    requires mach.Valid()
  {
    && LeadingSolve(r, b, gn, nsing) && UpperTriangular(r) && |d| == |gn|
    && (par == 0.0 <==> ScaledNorm(mach, d, gn) - delta <= 0.1 * delta)
    && (par == 0.0 ==> z == gn)
    && (par != 0.0 ==>
          par == s.par && Opening(mach, r, d, b, delta, par0, gn, nsing, s0)
          && Found(mach, r, d, b, delta, s0, z, t, s))
  }

  /** The bounds and the first estimate, for a direction x that is too long; wa2 = D x. */
  method BeginSearch(mach: Machine, n: nat, r: array2<real>, ipvt: seq<int>, diag: Vec, b: Vec, delta: real, par0: real,
                     dxnorm: real, nsing: nat, wa1: array<real>, wa2: Vec, ghost x: Vec)
    returns (s: Search)
    requires mach.Valid() && n == r.Length1 == wa1.Length == |diag| == |wa2| == |b| == |x| <= r.Length0
    requires Numbers(true, ipvt, n) && Permutation(Order(true, ipvt, n)) && forall i :: 0 <= i < n ==> diag[i] != 0.0
    requires LeadingSolve(Factor(ColsOf(r), n), b, Permuted(x, Order(true, ipvt, n)), nsing) && wa2 == Times(diag, x)
    requires dxnorm == ScaledNorm(mach, diag, x) > delta > 0.0
    modifies wa1
    ensures Opening(mach, Factor(ColsOf(r), n), Permuted(diag, Order(true, ipvt, n)), b, delta, par0,
                    Permuted(x, Order(true, ipvt, n)), nsing, s)
  {
    hide FirstLower, FirstUpper, FirstEstimate, Divided, LeadingSolve, Factor, Times, Comb;
    PermutedNorm(mach, diag, x, Order(true, ipvt, n));
    var parl := ChooseLower(mach, n, r, ipvt, diag, b, delta, dxnorm, nsing, wa1, wa2, x);
    var gnorm, paru := ChooseUpper(mach, n, r, ipvt, diag, b, delta, wa1);
    var par := ChooseEstimate(par0, parl, paru, gnorm, dxnorm);
    s := Search(par, parl, paru, dxnorm - delta, 0);
  }

  /** The direction tried first, without damping; wa2 = D x. */
  method FirstTry(mach: Machine, n: nat, r: array2<real>, ipvt: seq<int>, diag: Vec, b: Vec, x: array<real>,
                  wa1: array<real>, wa2: array<real>)
    returns (nsing: nat, dxnorm: real)
    requires mach.Valid() && n == r.Length1 == x.Length == wa1.Length == wa2.Length == |diag| == |b| <= r.Length0
    requires x != wa1 && x != wa2 && wa1 != wa2 && Numbers(true, ipvt, n) && Permutation(Order(true, ipvt, n))
    modifies x, wa1, wa2
    ensures LeadingSolve(Factor(ColsOf(r), n), b, Permuted(x[..], Order(true, ipvt, n)), nsing)
    ensures wa2[..] == Times(diag, x[..]) && dxnorm == ScaledNorm(mach, diag, x[..])
    ensures dxnorm == ScaledNorm(mach, Permuted(diag, Order(true, ipvt, n)), Permuted(x[..], Order(true, ipvt, n)))
  {
    hide Factor, LeadingSolve;
    nsing := GaussNewton(n, r, b, wa1);
    PermuteBack(ipvt, wa1[..], x);
    PermutedNorm(mach, diag, x[..], Order(true, ipvt, n));
    FormScaled(diag, x[..], wa2);
    dxnorm := mach.Norm(wa2[..]);
  }

  method Lmpar(mach: Machine, n: nat, r: array2<real>, ipvt: seq<int>, diag: Vec, qtb: Vec, delta: real, par0: real,
               x: array<real>, sdiag: array<real>, wa1: array<real>, wa2: array<real>)
    returns (par: real, ghost gn: Vec, ghost nsing: nat, ghost s0: Search, ghost s: Search)
    requires mach.Valid()
    requires n == r.Length1 == x.Length == sdiag.Length == wa1.Length == wa2.Length == |diag| == |qtb| <= r.Length0
    requires x != sdiag && x != wa1 && x != wa2 && sdiag != wa1 && sdiag != wa2 && wa1 != wa2
    requires Numbers(true, ipvt, n) && Permutation(Order(true, ipvt, n)) && delta > 0.0 && par0 >= 0.0
    requires forall i :: 0 <= i < n ==> diag[i] != 0.0
    modifies r, x, sdiag, wa1, wa2
    ensures UpperKept(old(ColsOf(r)), ColsOf(r), n) && par >= 0.0
    ensures Parameter(mach, old(Factor(ColsOf(r), n)), Permuted(diag, Order(true, ipvt, n)), qtb, delta, par0, gn,
                      nsing, Permuted(x[..], Order(true, ipvt, n)), Triangle(ColsOf(r), sdiag[..], n, n), par, s0, s)
  {
    hide Found, Opening, Sloped, SearchOk, Triangle, Factor, LeadingSolve, UpperTriangular, Numbers, Permutation;
    hide Order, ColsOf, Permuted, ColOf, TriangleRow;
    ghost var f, p := Factor(ColsOf(r), n), Order(true, ipvt, n);
    FactorIsUpper(ColsOf(r), n);
    var rank, dxnorm := FirstTry(mach, n, r, ipvt, diag, qtb, x, wa1, wa2);
    gn, nsing := Permuted(x[..], p), rank;
    s0 := Search(0.0, 0.0, 0.0, 0.0, 0);
    s := s0;
    par := 0.0;
    if dxnorm - delta <= 0.1 * delta {
      return;
    }
    var first := BeginSearch(mach, n, r, ipvt, diag, qtb, delta, par0, dxnorm, rank, wa1, wa2[..], x[..]);
    OpeningIsSound(mach, f, Permuted(diag, p), qtb, delta, par0, gn, nsing, first);
    var t := Iterate(mach, n, r, ipvt, diag, qtb, delta, first, x, sdiag, wa1, wa2);
    s0, s, par := first, t, t.par;
  }

  /** The search of a rejected first direction begins with bounds that enclose the roots, and on a system whose length
      depends on the damping. */
  lemma OpeningIsSound(mach: Machine, r: Mat, d: Vec, b: Vec, delta: real, par0: real, gn: Vec, nsing: nat, s: Search)
    requires mach.Valid() && LeadingSolve(r, b, gn, nsing) && UpperTriangular(r) && par0 >= 0.0
    requires Opening(mach, r, d, b, delta, par0, gn, nsing, s)
    ensures Sloped(r, d, b) && SearchOk(mach, r, d, b, delta, s) && s.par >= 0.0 && s.parl >= 0.0 && s.iter == 0
  {
    hide FirstLower, FirstUpper, FirstEstimate, Divided, UpperTriangular, LowerOnly, UpperOnly, Long;
    NonzeroGradient(mach, r, d, b, gn, nsing, |d|);
    FullRank(r, b, gn, nsing);
    OpeningOk(mach, r, d, b, delta, par0, gn, nsing, s);
  }

  lemma FullRank(r: Mat, b: Vec, gn: Vec, nsing: nat)
    requires LeadingSolve(r, b, gn, nsing)
    ensures (nsing >= |gn| ==> Mul(r, gn) == b) && (Nonsingular(r) ==> nsing >= |gn|)
  {
  }

  /** A rejected Gauss-Newton direction is not zero, so neither is the gradient. */
  lemma NonzeroGradient(mach: Machine, r: Mat, d: Vec, b: Vec, gn: Vec, nsing: nat, n: nat)
    requires mach.Valid() && LeadingSolve(r, b, gn, nsing) && UpperTriangular(r) && n == |gn| == |d|
    requires ScaledNorm(mach, d, gn) > 0.0
    ensures Comb(b, r, n) != Zero(n)
  {
    if Comb(b, r, n) == Zero(n) {
      NormZero(mach, Times(d, gn));
      GradientBehind(r, b, gn, nsing);
    }
  }
}
