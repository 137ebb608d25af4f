/** qrfac: Householder QR factorization in place, with optional column pivoting. */
module Qrfac {
  import opened Reals
  import opened Vectors
  import opened Machines
  import opened Arrays
  import opened Reflectors
  import opened Householder
  import opened Qform

  /** ipvt numbers columns from 1; it is not referenced without pivoting. */
  ghost predicate Numbers(pivot: bool, ipvt: seq<int>, n: nat) {
    pivot ==> |ipvt| >= n && forall c :: 0 <= c < n ==> 1 <= ipvt[c] <= n
  }

  /** The order the columns are in. */
  ghost function Order(pivot: bool, ipvt: seq<int>, n: nat): (p: seq<nat>)
    requires Numbers(pivot, ipvt, n)
    ensures |p| == n && forall c :: 0 <= c < n ==> p[c] == if pivot then ipvt[c] - 1 else c
  {
    seq(n, c requires 0 <= c < n && Numbers(pivot, ipvt, n) => if pivot then ipvt[c] - 1 else c)
  }

  ghost predicate Permutation(p: seq<nat>) {
    && (forall c :: 0 <= c < |p| ==> p[c] < |p|)
    && (forall b, c :: 0 <= b < c < |p| ==> p[b] != p[c])
  }

  /** rd is the norm of the part of x from row j down, and w has not fallen below it. */
  ghost predicate NormKept(x: Vec, j: nat, rd: real, w: real)
    requires j <= |x|
  {
    0.0 <= rd <= w && rd * rd == DotR(x, x, j, |x|)
  }

  /** The norms of the remaining columns, kept without recomputing them. */
  ghost predicate NormsKept(cols: Mat, rdiag: Vec, wa: Vec, j: nat, m: nat) {
    && IsMat(cols, |cols|, m) && |rdiag| == |wa| == |cols| && j <= m
    && forall c :: j <= c < |cols| ==> NormKept(cols[c], j, rdiag[c], wa[c])
  }

  /** The same for the columns after j. */
  ghost predicate RestKept(cols: Mat, rdiag: Vec, wa: Vec, j: nat, m: nat) {
    && IsMat(cols, |cols|, m) && |rdiag| == |wa| == |cols| && j <= m
    && forall c :: j < c < |cols| ==> NormKept(cols[c], j, rdiag[c], wa[c])
  }

  /** The diagonal found so far does not grow, and dominates every remaining column norm. */
  ghost predicate DiagonalFalls(rdiag: Vec, j: nat) {
    forall b, c :: 0 <= b < c < |rdiag| && b < j ==> Abs(rdiag[b]) >= Abs(rdiag[c])
  }

  ghost predicate EntryBounded(x: Vec, rdiag: Vec, b: nat) {
    b < |x| && b < |rdiag| && Abs(x[b]) <= Abs(rdiag[b])
  }

  /** In each of the first j rows of the factor no entry is larger than the one on the diagonal. */
  ghost predicate RowsBounded(cols: Mat, rdiag: Vec, j: nat) {
    forall b, c :: 0 <= b < j && b < c < |cols| ==> EntryBounded(cols[c], rdiag, b)
  }

  method InitNorms(mach: Machine, m: nat, n: nat, a: array2<real>, pivot: bool, ipvt: array<int>, rdiag: array<real>,
                   acnorm: array<real>, wa: array<real>)
    requires mach.Valid() && a.Length0 == m && a.Length1 == n == rdiag.Length == acnorm.Length == wa.Length
    requires pivot ==> ipvt.Length >= n
    requires rdiag != acnorm && rdiag != wa && acnorm != wa
    modifies ipvt, rdiag, acnorm, wa
    ensures pivot ==> forall c :: 0 <= c < n ==> ipvt[c] == c + 1
    ensures forall c :: 0 <= c < n ==> rdiag[c] == wa[c] == acnorm[c] == mach.Norm(ColsOf(a)[c])
  {
    for j := 0 to n
      invariant pivot ==> forall c :: 0 <= c < j ==> ipvt[c] == c + 1
      invariant forall c :: 0 <= c < j ==> rdiag[c] == wa[c] == acnorm[c] == mach.Norm(ColOf(a, c))
    {
      acnorm[j] := mach.Norm(ColOf(a, j));
      rdiag[j] := acnorm[j];
      wa[j] := rdiag[j];
      if pivot {
        ipvt[j] := j + 1;
      }
    }
  }

  /** The column of largest remaining norm. */
  method LargestColumn(n: nat, j: nat, rdiag: array<real>) returns (kmax: nat)
    requires j < n == rdiag.Length
    ensures j <= kmax < n && forall c :: j <= c < n ==> rdiag[c] <= rdiag[kmax]
  {
    kmax := j;
    for k := j to n
      invariant j <= kmax < n && forall c :: j <= c < k ==> rdiag[c] <= rdiag[kmax]
    {
      if rdiag[k] > rdiag[kmax] {
        kmax := k;
      }
    }
  }

  function Partner(c: int, j: nat, k: nat): int {
    if c == j then k else if c == k then j else c
  }

  function Swapped<T>(s: seq<T>, j: nat, k: nat): (t: seq<T>)
    requires j < |s| && k < |s|
    ensures |t| == |s|
    ensures forall c :: 0 <= c < |s| ==> t[c] == s[Partner(c, j, k)]
  {
    s[j := s[k]][k := s[j]]
  }

  method SwapColumns(a: array2<real>, j: nat, k: nat)
    requires j < a.Length1 && k < a.Length1 && j != k
    modifies a
    ensures ColsOf(a) == Swapped(old(ColsOf(a)), j, k)
  {
    for i := 0 to a.Length0
      invariant forall l :: 0 <= l < i ==> a[l, j] == old(a[l, k]) && a[l, k] == old(a[l, j])
      invariant forall l :: i <= l < a.Length0 ==> a[l, j] == old(a[l, j]) && a[l, k] == old(a[l, k])
      invariant forall l, c :: 0 <= l < a.Length0 && 0 <= c < a.Length1 && c != j && c != k ==> a[l, c] == old(a[l, c])
    {
      var temp := a[i, j];
      a[i, j] := a[i, k];
      a[i, k] := temp;
    }
    assert ColOf(a, j) == old(ColOf(a, k));
    assert ColOf(a, k) == old(ColOf(a, j));
    forall c | 0 <= c < a.Length1 && c != j && c != k
      ensures ColOf(a, c) == old(ColOf(a, c))
    {
    }
  }

  /** Divides the part of column j from the diagonal down by sigma and adds 1 to the diagonal. */
  method MakeReflector(a: array2<real>, j: nat, sigma: real)
    requires j < a.Length1 && j < a.Length0 && sigma != 0.0
    modifies a
    ensures forall c :: 0 <= c < a.Length1 && c != j ==> ColsOf(a)[c] == old(ColsOf(a))[c]
    ensures Below(ColsOf(a)[j], j) == HouseVector(old(ColOf(a, j)), j, sigma)
    ensures forall i :: 0 <= i < j ==> ColsOf(a)[j][i] == old(ColOf(a, j))[i]
  {
    for i := j to a.Length0
      invariant forall l :: 0 <= l < j || i <= l < a.Length0 ==> a[l, j] == old(a[l, j])
      invariant forall l :: j <= l < i ==> a[l, j] == old(a[l, j]) / sigma
      invariant forall l, c :: 0 <= l < a.Length0 && 0 <= c < a.Length1 && c != j ==> a[l, c] == old(a[l, c])
    {
      a[i, j] := a[i, j] / sigma;
    }
    a[j, j] := a[j, j] + 1.0;
    forall c | 0 <= c < a.Length1 && c != j
      ensures ColOf(a, c) == old(ColOf(a, c))
    {
    }
  }

  /** The norm of the part of x from row j down. */
  function TailNorm(mach: Machine, x: Vec, j: nat): (r: real)
    requires mach.Valid() && j <= |x|
    ensures r >= 0.0 && r * r == DotR(x, x, j, |x|)
  {
    DotRNonneg(x, j, |x|);
    mach.sqrt(DotR(x, x, j, |x|))
  }

  /** The norm of a column's tail after its top entry is removed. */
  method Downdate(mach: Machine, x: Vec, j: nat, rd: real, w: real) returns (rd': real, w': real)
    requires mach.Valid() && j < |x| && rd != 0.0 && NormKept(x, j, rd, w)
    ensures NormKept(x, j + 1, rd', w') && rd' <= rd
  {
    var temp := x[j] / rd;
    var d1 := 1.0 - temp * temp;
    rd' := rd * mach.sqrt(Max(0.0, d1));
    DotRSplit(x, x, j, j + 1, |x|);
    DotRNonneg(x, j + 1, |x|);
    assert DotR(x, x, j, j) == 0.0;
    Shrink(mach, rd, x[j], temp, d1, rd', DotR(x, x, j + 1, |x|));
    var d := rd' / w;
    w' := w;
    if 0.05 * (d * d) <= mach.epsmch {
      RootUnique(rd', TailNorm(mach, x, j + 1));
      rd' := TailNorm(mach, x, j + 1);
      w' := rd';
    }
  }

  lemma Shrink(mach: Machine, rd: real, xj: real, temp: real, d1: real, rd': real, rest: real)
    requires mach.Valid() && rd > 0.0 && temp == xj / rd && d1 == 1.0 - temp * temp
    requires rd' == rd * mach.sqrt(Max(0.0, d1))
    requires rd * rd == xj * xj + rest && rest >= 0.0
    ensures 0.0 <= rd' <= rd && rd' * rd' == rest
  {
    assert temp * rd == xj;
    var r2 := rd * rd;
    SquareSign(rd, r2);
    ShrinkFactor(rd, xj, temp, d1, rest, r2);
    ScaleOrder(r2, 0.0, d1, 0.0, rest);
    var s := mach.sqrt(d1);
    SquareSign(temp, temp * temp);
    SquareOrder(s, 1.0, d1, 1.0);
    NonnegProduct(rd, s, rd');
    ScaleOrder(rd, s, 1.0, rd', rd);
    assert (rd * s) * (rd * s) == (rd * rd) * (s * s);
  }

  lemma ShrinkFactor(rd: real, xj: real, temp: real, d1: real, rest: real, r2: real)
    requires r2 == rd * rd && temp * rd == xj && d1 == 1.0 - temp * temp && r2 == xj * xj + rest
    ensures r2 * d1 == rest
  {
    assert r2 * (temp * temp) == (temp * rd) * (temp * rd);
    assert r2 * d1 == r2 - r2 * (temp * temp);
  }

  /** A reflection of the rows from k down keeps the norm of that part. */
  lemma TailIsometry(u: Vec, k: nat, x: Vec)
    requires |u| == |x| && k < |u| && Proper(u, k) && u == Below(u, k)
    ensures var y := Reflect(u, k, x); DotR(y, y, k, |x|) == DotR(x, x, k, |x|)
  {
    var y := Reflect(u, k, x);
    ReflectIsometry(u, k, x, x);
    DotRSplit(x, x, 0, k, |x|);
    DotRSplit(y, y, 0, k, |x|);
    TopKept(u, k, x);
    DotRCong(x, x, y, y, 0, k);
  }

  lemma TopKept(u: Vec, k: nat, x: Vec)
    requires |u| == |x| && k < |u| && u == Below(u, k)
    ensures forall i :: 0 <= i < k ==> Reflect(u, k, x)[i] == x[i]
  {
    forall i | 0 <= i < k
      ensures Reflect(u, k, x)[i] == x[i]
    {
      assert u[i] == 0.0;
    }
  }

  /** A zero tail stays zero, and has nothing below its top either. */
  lemma ZeroTail(x: Vec, j: nat, w: real)
    requires j < |x| && NormKept(x, j, 0.0, w)
    ensures NormKept(x, j + 1, 0.0, w)
  {
    DotRNonneg(x, j, |x|);
    DotRZero(x, x, j + 1, |x|);
  }

  /** Applies the reflection in column j to column k and brings the column's norm up to date. */
  method ReduceColumn(mach: Machine, a: array2<real>, j: nat, k: nat, u: Vec, pivot: bool, rdiag: array<real>,
                      wa: array<real>)
    requires mach.Valid() && rdiag != wa && k < a.Length1 == rdiag.Length == wa.Length && j < a.Length0 == |u|
    requires u[j] != 0.0 && Proper(Below(u, j), j)
    requires pivot ==> NormKept(ColOf(a, k), j, rdiag[k], wa[k])
    modifies a, rdiag, wa
    ensures ColsOf(a) == old(ColsOf(a))[k := Reflect(Below(u, j), j, old(ColOf(a, k)))]
    ensures pivot ==> NormKept(ColOf(a, k), j + 1, rdiag[k], wa[k]) && rdiag[k] <= old(rdiag[k])
    ensures forall c :: 0 <= c < rdiag.Length && c != k ==> rdiag[c] == old(rdiag[c]) && wa[c] == old(wa[c])
  {
    TailIsometry(Below(u, j), j, ColOf(a, k));
    ReflectColumn(a, k, j, u);
    assert ColOf(a, k) == ColsOf(a)[k];
    if pivot {
      if rdiag[k] != 0.0 {
        rdiag[k], wa[k] := Downdate(mach, ColOf(a, k), j, rdiag[k], wa[k]);
      } else {
        ZeroTail(ColOf(a, k), j, wa[k]);
      }
    }
  }

  /** Applies the reflection in column j to all later columns. */
  method ReduceRest(mach: Machine, a: array2<real>, j: nat, u: Vec, pivot: bool, rdiag: array<real>, wa: array<real>)
    requires mach.Valid() && rdiag != wa && j < a.Length1 == rdiag.Length == wa.Length && j < a.Length0 == |u|
    requires u[j] != 0.0 && Proper(Below(u, j), j)
    requires pivot ==> forall c :: j < c < a.Length1 ==> NormKept(ColsOf(a)[c], j, rdiag[c], wa[c])
    modifies a, rdiag, wa
    ensures forall c :: 0 <= c <= j ==> ColsOf(a)[c] == old(ColsOf(a))[c]
    ensures forall c :: j < c < a.Length1 ==> ColsOf(a)[c] == Reflect(Below(u, j), j, old(ColsOf(a))[c])
    ensures pivot ==> forall c :: j < c < a.Length1 ==>
              NormKept(ColsOf(a)[c], j + 1, rdiag[c], wa[c]) && rdiag[c] <= old(rdiag[c])
    ensures forall c :: 0 <= c <= j ==> rdiag[c] == old(rdiag[c])
  {
    ghost var cols := ColsOf(a);
    for k := j + 1 to a.Length1
      invariant forall c :: 0 <= c <= j || k <= c < a.Length1 ==> ColsOf(a)[c] == cols[c]
      invariant forall c :: j < c < k ==> ColsOf(a)[c] == Reflect(Below(u, j), j, cols[c])
      invariant pivot ==> forall c :: j < c < k ==>
                  NormKept(ColsOf(a)[c], j + 1, rdiag[c], wa[c]) && rdiag[c] <= old(rdiag[c])
      invariant forall c :: 0 <= c <= j || k <= c < a.Length1 ==> rdiag[c] == old(rdiag[c]) && wa[c] == old(wa[c])
    {
      assert ColOf(a, k) == ColsOf(a)[k];
      ReduceColumn(mach, a, j, k, u, pivot, rdiag, wa);
    }
  }

  /** Column j of cols has been reduced by u to a diagonal entry -sigma, giving next; the norms d have become e. */
  ghost predicate Eliminated(cols: Mat, next: Mat, u: Vec, j: nat, m: nat, sigma: real, pivot: bool, d: Vec, e: Vec,
                             w: Vec) {
    && ReducedBy(cols, next, u, j, m) && Proper(u, j)
    && Reflect(u, j, cols[j]) == TriColumn(next[j], j, -sigma)
    && |d| == |e| == |cols| && (forall c :: 0 <= c <= j ==> e[c] == d[c])
    && (pivot ==> NormsKept(next, e, w, j + 1, m) && forall c :: j < c < |cols| ==> e[c] <= d[c])
  }

  /** Reduces column j by a reflection with the signed norm sigma of its tail. */
  method Eliminate(mach: Machine, m: nat, a: array2<real>, j: nat, sigma: real, pivot: bool, rdiag: array<real>,
                   wa: array<real>)
    returns (ghost u: Vec)
    requires mach.Valid() && a.Length0 == m && a.Length1 == rdiag.Length == wa.Length && rdiag != wa
    requires j < m && j < a.Length1 && sigma != 0.0
    requires var x := ColsOf(a)[j]; sigma * sigma == DotR(x, x, j, m) && (sigma < 0.0 <==> x[j] < 0.0)
    requires pivot ==> RestKept(ColsOf(a), rdiag[..], wa[..], j, m)
    modifies a, rdiag, wa
    ensures Eliminated(old(ColsOf(a)), ColsOf(a), u, j, m, sigma, pivot, old(rdiag[..]), rdiag[..], wa[..])
  {
    ghost var x := ColsOf(a)[j];
    HouseReflects(x, j, sigma);
    MakeReflector(a, j, sigma);
    u := Below(ColsOf(a)[j], j);
    ReduceRest(mach, a, j, ColOf(a, j), pivot, rdiag, wa);
    assert TriColumn(ColsOf(a)[j], j, -sigma) == TriColumn(x, j, -sigma);
  }

  /** Column j is already reduced: the norms of later columns carry over. */
  lemma NormsCarryOver(cols: Mat, rdiag: Vec, wa: Vec, j: nat, m: nat)
    requires RestKept(cols, rdiag, wa, j, m) && j < |cols| && j < m
    requires forall c :: j < c < |cols| ==> rdiag[c] <= 0.0
    ensures NormsKept(cols, rdiag, wa, j + 1, m)
  {
    forall c | j < c < |cols|
      ensures NormKept(cols[c], j + 1, rdiag[c], wa[c])
    {
      assert NormKept(cols[c], j, rdiag[c], wa[c]);
      ZeroTail(cols[c], j, wa[c]);
    }
  }

  /** The norm of the tail of x, with the sign of its top entry. */
  method SignedNorm(mach: Machine, x: Vec, j: nat) returns (sigma: real)
    requires mach.Valid() && j < |x|
    ensures sigma * sigma == DotR(x, x, j, |x|) && Abs(sigma) == TailNorm(mach, x, j)
    ensures sigma != 0.0 ==> (sigma < 0.0 <==> x[j] < 0.0)
  {
    sigma := TailNorm(mach, x, j);
    if sigma != 0.0 && x[j] < 0.0 {
      var t := sigma;
      sigma := -t;
      SameSquare(t, sigma, DotR(x, x, j, |x|));
    }
  }

  lemma SameSquare(t: real, s: real, p: real)
    requires s == -t && t * t == p
    ensures s * s == p
  {
  }

  /** Reduces column j when its tail is not zero, and leaves everything alone when it is. */
  method EliminateOrSkip(mach: Machine, m: nat, a: array2<real>, j: nat, sigma: real, pivot: bool, rdiag: array<real>,
                         wa: array<real>)
    returns (ghost u: Vec)
    requires mach.Valid() && a.Length0 == m && a.Length1 == rdiag.Length == wa.Length && rdiag != wa
    requires j < m && j < a.Length1
    requires var x := ColsOf(a)[j]; sigma * sigma == DotR(x, x, j,
                                                          m) && (sigma != 0.0 ==> (sigma < 0.0 <==> x[j] < 0.0))
    requires pivot ==> RestKept(ColsOf(a), rdiag[..], wa[..], j, m)
    requires pivot ==> forall c :: j < c < a.Length1 ==> rdiag[c] <= Abs(sigma)
    modifies a, rdiag, wa
    ensures Eliminated(old(ColsOf(a)), ColsOf(a), u, j, m, sigma, pivot, old(rdiag[..]), rdiag[..], wa[..])
  {
    if sigma != 0.0 {
      u := Eliminate(mach, m, a, j, sigma, pivot, rdiag, wa);
    } else {
      u := Below(ColsOf(a)[j], j);
      ZeroColumn(ColsOf(a), ColsOf(a)[j], j, m);
      if pivot {
        NormsCarryOver(ColsOf(a), rdiag[..], wa[..], j, m);
      }
    }
  }

  /** Reduces column j and records the diagonal entry. */
  method ReduceStep(mach: Machine, m: nat, n: nat, a: array2<real>, j: nat, pivot: bool, rdiag: array<real>,
                    wa: array<real>)
    returns (sigma: real, ghost u: Vec, ghost e: Vec)
    requires mach.Valid() && a.Length0 == m && a.Length1 == n == rdiag.Length == wa.Length && rdiag != wa
    requires j < m && j < n
    requires pivot ==> RestKept(ColsOf(a), rdiag[..], wa[..], j, m)
    requires pivot ==> forall c :: j < c < n ==> rdiag[c] <= TailNorm(mach, ColsOf(a)[j], j)
    modifies a, rdiag, wa
    ensures Eliminated(old(ColsOf(a)), ColsOf(a), u, j, m, sigma, pivot, old(rdiag[..]), e, wa[..])
    ensures rdiag[..] == e[j := -sigma]
    ensures Abs(sigma) == old(TailNorm(mach, ColsOf(a)[j], j))
  {
    assert ColOf(a, j) == ColsOf(a)[j];
    sigma := SignedNorm(mach, ColOf(a, j), j);
    u := EliminateOrSkip(mach, m, a, j, sigma, pivot, rdiag, wa);
    e := rdiag[..];
    RecordDiagonal(rdiag, j, -sigma);
  }

  lemma RecordStep(cols: Mat, next: Mat, us: Mat, u: Vec, a0: Mat, p: seq<nat>, d: Vec, e: Vec, w: Vec, pivot: bool,
                   m: nat, sigma: real)
    requires Reduced(cols, us, a0, p, d, m) && |us| < |a0| && Eliminated(cols, next, u, |us|, m, sigma, pivot, d, e, w)
    ensures Reduced(next, us + [u], a0, p, e[|us| := -sigma], m)
    ensures pivot ==> NormsKept(next, e[|us| := -sigma], w, |us| + 1, m)
  {
    ReducedStep(cols, next, us, u, a0, p, d, e[|us| := -sigma], m);
    if pivot {
      forall c | |us| < c < |next|
        ensures NormKept(next[c], |us| + 1, e[|us| := -sigma][c], w[c])
      {
        assert NormKept(next[c], |us| + 1, e[c], w[c]);
      }
    }
  }

  method RecordDiagonal(rdiag: array<real>, j: nat, t: real)
    requires j < rdiag.Length
    modifies rdiag
    ensures rdiag[..] == old(rdiag[..])[j := t]
  {
    rdiag[j] := t;
  }

  /** A column with a zero tail is already reduced: its reflection is the identity. */
  lemma ZeroColumn(cols: Mat, x: Vec, j: nat, m: nat)
    requires IsMat(cols, |cols|, m) && j < |cols| && j < m && x == cols[j] && DotR(x, x, j, m) == 0.0
    ensures ReducedBy(cols, cols, Below(x, j), j, m) && Proper(Below(x, j), j)
    ensures Reflect(Below(x, j), j, x) == TriColumn(x, j, -0.0)
  {
    DotRNonneg(x, j, m);
    assert TriColumn(x, j, -0.0) == x;
  }

  /** What qrfac leaves in the work array cols and in d: the reflections on and below the diagonal, the triangular
      factor above it and on d. a holds the original columns and p the order qrfac put them in. */
  ghost predicate Factorization(cols: Mat, d: Vec, a: Mat, p: seq<nat>, m: nat)
  {
    |cols| == |a| && Reduced(cols, Factored(cols, MinNat(m, |a|)), a, p, d, m) && Permutation(p)
  }

  lemma SwapReduced(cols: Mat, us: Mat, a: Mat, p: seq<nat>, d: Vec, e: Vec, m: nat, j: nat, k: nat)
    requires Reduced(cols, us, a, p, d, m) && |us| <= j < |a| && |us| <= k < |a| && Permutation(p)
    requires |e| == |d| && forall c :: 0 <= c < |us| ==> e[c] == d[c]
    ensures Reduced(Swapped(cols, j, k), us, a, Swapped(p, j, k), e, m)
    ensures Permutation(Swapped(p, j, k))
  {
    var next, q := Swapped(cols, j, k), Swapped(p, j, k);
    forall c | |us| <= c < |a|
      ensures next[c] == Forward(us, |us|, a[q[c]])
    {
      assert next[c] == cols[Partner(c, j, k)] && q[c] == p[Partner(c, j, k)];
    }
    forall c | 0 <= c < |us|
      ensures next[c] == cols[c] && q[c] == p[c]
    {
    }
    SwapPermutation(p, j, k);
  }

  lemma SwapPermutation(p: seq<nat>, j: nat, k: nat)
    requires Permutation(p) && j < |p| && k < |p|
    ensures Permutation(Swapped(p, j, k))
  {
    forall b, c | 0 <= b < c < |p|
      ensures Swapped(p, j, k)[b] != Swapped(p, j, k)[c]
    {
      assert Partner(b, j, k) != Partner(c, j, k);
      assert p[Partner(b, j, k)] != p[Partner(c, j, k)];
    }
  }

  /** The bookkeeping of a column exchange. The norm of the column that moves to position j is not recorded: it is
      about to be computed again. */
  method ExchangeRecords(n: nat, j: nat, kmax: nat, ipvt: array<int>, rdiag: array<real>, wa: array<real>)
    requires n == rdiag.Length == wa.Length <= ipvt.Length && j < kmax < n && rdiag != wa
    modifies ipvt, rdiag, wa
    ensures rdiag[..] == old(rdiag[..])[kmax := old(rdiag[j])]
    ensures wa[..] == old(wa[..])[kmax := old(wa[j])]
    ensures ipvt[..] == Swapped(old(ipvt[..]), j, kmax)
  {
    rdiag[kmax] := rdiag[j];
    wa[kmax] := wa[j];
    var k := ipvt[j];
    ipvt[j] := ipvt[kmax];
    ipvt[kmax] := k;
  }

  lemma SwapNorms(mach: Machine, cols: Mat, d: Vec, w: Vec, j: nat, k: nat, m: nat)
    requires mach.Valid() && NormsKept(cols, d, w, j, m) && j < k < |cols| && j < m
    requires forall c :: j <= c < |cols| ==> d[c] <= d[k]
    requires DiagonalFalls(d, j)
    ensures RestKept(Swapped(cols, j, k), d[k := d[j]], w[k := w[j]], j, m)
    ensures TailNorm(mach, Swapped(cols, j, k)[j], j) == d[k]
    ensures DiagonalFalls(d[k := d[j]], j)
  {
    assert NormKept(cols[k], j, d[k], w[k]);
    assert NormKept(cols[j], j, d[j], w[j]);
    RootUnique(TailNorm(mach, cols[k], j), d[k]);
    forall c | j < c < |cols|
      ensures NormKept(Swapped(cols, j, k)[c], j, d[k := d[j]][c], w[k := w[j]][c])
    {
      assert NormKept(cols[c], j, d[c], w[c]);
    }
  }

  /** The state of the factorization between two columns. */
  ghost predicate Progress(cols: Mat, us: Mat, a0: Mat, pivot: bool, ipvt: seq<int>, d: Vec, w: Vec, m: nat) {
    && Numbers(pivot, ipvt, |a0|) && Reduced(cols, us, a0, Order(pivot, ipvt, |a0|), d, m)
    && Permutation(Order(pivot, ipvt, |a0|))
    && (pivot ==> NormsKept(cols, d, w, |us|, m) && DiagonalFalls(d, |us|) && RowsBounded(cols, d, |us|))
  }

  /** The state once the next pivot column is in place. */
  ghost predicate PivotReady(mach: Machine, cols: Mat, us: Mat, a0: Mat, pivot: bool, ipvt: seq<int>, d: Vec, w: Vec,
                             m: nat) {
    var j := |us|;
    && mach.Valid() && j < m && j < |a0| && Numbers(pivot, ipvt, |a0|)
    && Reduced(cols, us, a0, Order(pivot, ipvt, |a0|), d, m)
    && Permutation(Order(pivot, ipvt, |a0|))
    && (pivot ==> RestKept(cols, d, w, j, m) && DiagonalFalls(d, j) && RowsBounded(cols, d, j)
                  && (forall c :: j < c < |d| ==> d[c] <= TailNorm(mach, cols[j], j))
                  && (forall b :: 0 <= b < j ==> Abs(d[b]) >= TailNorm(mach, cols[j], j)))
  }

  /** Brings the column of largest remaining norm into position j. */
  method PivotSwap(mach: Machine, m: nat, n: nat, a: array2<real>, j: nat, ipvt: array<int>, rdiag: array<real>,
                   wa: array<real>, ghost us: Mat, ghost a0: Mat)
    requires mach.Valid() && a.Length0 == m && a.Length1 == n == rdiag.Length == wa.Length == |a0| && rdiag != wa
    requires ipvt.Length >= n
    requires |us| == j < n && j < m && Progress(ColsOf(a), us, a0, true, ipvt[..], rdiag[..], wa[..], m)
    modifies a, ipvt, rdiag, wa
    ensures PivotReady(mach, ColsOf(a), us, a0, true, ipvt[..], rdiag[..], wa[..], m)
  {
    ghost var cols, d, w, ip := ColsOf(a), rdiag[..], wa[..], ipvt[..];
    var kmax := LargestColumn(n, j, rdiag);
    if kmax != j {
      SwapColumns(a, j, kmax);
      ExchangeRecords(n, j, kmax, ipvt, rdiag, wa);
      SwapReady(mach, cols, us, a0, ip, d, w, m, kmax);
    } else {
      NoSwapReady(mach, cols, us, a0, ip, d, w, m);
    }
  }

  lemma SwapReady(mach: Machine, cols: Mat, us: Mat, a0: Mat, ip: seq<int>, d: Vec, w: Vec, m: nat, k: nat)
    requires mach.Valid() && |us| < m && |us| < k < |a0| && Progress(cols, us, a0, true, ip, d, w, m)
    requires forall c :: |us| <= c < |a0| ==> d[c] <= d[k]
    ensures var j := |us|; PivotReady(mach, Swapped(cols, j, k), us, a0, true, Swapped(ip, j, k), d[k := d[j]],
                                      w[k := w[j]], m)
  {
    hide Order, Swapped, Numbers, Permutation, RowsBounded, IsMat, Below, TriColumn, Forward, EntryBounded;
    var j := |us|;
    var p := Order(true, ip, |a0|);
    SwapReduced(cols, us, a0, p, d, d[k := d[j]], m, j, k);
    SwapOrder(ip, |a0|, j, k);
    SwapNorms(mach, cols, d, w, j, k, m);
    SwapRows(cols, d, j, k);
  }

  lemma SwapRows(cols: Mat, d: Vec, j: nat, k: nat)
    requires RowsBounded(cols, d, j) && j < k < |cols| == |d|
    ensures RowsBounded(Swapped(cols, j, k), d[k := d[j]], j)
  {
    var next, e := Swapped(cols, j, k), d[k := d[j]];
    forall b, c | 0 <= b < j && b < c < |next|
      ensures EntryBounded(next[c], e, b)
    {
      assert EntryBounded(cols[Partner(c, j, k)], d, b);
    }
  }

  lemma SwapOrder(ip: seq<int>, n: nat, j: nat, k: nat)
    requires Numbers(true, ip, n) && j < n && k < n
    ensures Numbers(true, Swapped(ip, j, k), n)
    ensures Order(true, Swapped(ip, j, k), n) == Swapped(Order(true, ip, n), j, k)
  {
  }

  lemma NoSwapReady(mach: Machine, cols: Mat, us: Mat, a0: Mat, ip: seq<int>, d: Vec, w: Vec, m: nat)
    requires mach.Valid() && |us| < m && |us| < |a0| && Progress(cols, us, a0, true, ip, d, w, m)
    requires forall c :: |us| <= c < |a0| ==> d[c] <= d[|us|]
    ensures PivotReady(mach, cols, us, a0, true, ip, d, w, m)
  {
    hide Order, Permutation, RowsBounded;
    var j := |us|;
    assert NormKept(cols[j], j, d[j], w[j]);
    RootUnique(TailNorm(mach, cols[j], j), d[j]);
  }

  lemma DiagonalExtends(d: Vec, e: Vec, j: nat, t: real)
    requires DiagonalFalls(d, j) && j < |d| == |e| && Abs(e[j]) == t >= 0.0
    requires forall c :: 0 <= c < j ==> e[c] == d[c]
    requires forall b :: 0 <= b < j ==> Abs(d[b]) >= t
    requires forall c :: j < c < |d| ==> 0.0 <= e[c] <= d[c] <= t
    ensures DiagonalFalls(e, j + 1)
  {
  }

  /** Reduces the pivot column. */
  method PivotStep(mach: Machine, m: nat, n: nat, a: array2<real>, j: nat, pivot: bool, ghost ip: seq<int>,
                   rdiag: array<real>, wa: array<real>, ghost us: Mat, ghost a0: Mat)
    returns (ghost u: Vec)
    requires a.Length0 == m && a.Length1 == n == rdiag.Length == wa.Length == |a0| && rdiag != wa && |us| == j
    requires PivotReady(mach, ColsOf(a), us, a0, pivot, ip, rdiag[..], wa[..], m)
    modifies a, rdiag, wa
    ensures Progress(ColsOf(a), us + [u], a0, pivot, ip, rdiag[..], wa[..], m)
  {
    ghost var cols, d, w := ColsOf(a), rdiag[..], wa[..];
    var sigma, v, e := ReduceStep(mach, m, n, a, j, pivot, rdiag, wa);
    u := v;
    StepProgress(mach, cols, ColsOf(a), us, u, a0, pivot, ip, d, e, w, wa[..], m, sigma);
  }

  lemma StepProgress(mach: Machine, cols: Mat, next: Mat, us: Mat, u: Vec, a0: Mat, pivot: bool, ip: seq<int>, d: Vec,
                     e: Vec, w0: Vec, w: Vec, m: nat, sigma: real)
    requires |w| == |d| && PivotReady(mach, cols, us, a0, pivot, ip, d, w0, m)
    requires |us| < |a0| && Eliminated(cols, next, u, |us|, m, sigma, pivot, d, e, w)
    requires mach.Valid() && |cols[|us|]| >= |us| && Abs(sigma) == TailNorm(mach, cols[|us|], |us|)
    ensures Progress(next, us + [u], a0, pivot, ip, e[|us| := -sigma], w, m)
  {
    hide Reduced, Proper, Reflect, TriColumn, RowsBounded, DiagonalFalls, RestKept, Permutation, NormKept;
    var p := Order(pivot, ip, |a0|);
    RecordStep(cols, next, us, u, a0, p, d, e, w, pivot, m, sigma);
    if pivot {
      DiagonalStep(mach, cols, next, us, a0, ip, d, e, w0, w, m, sigma);
      RowsKept(mach, cols, next, us, u, a0, ip, d, e, w0, w, m, sigma);
    }
  }

  lemma RowsKept(mach: Machine, cols: Mat, next: Mat, us: Mat, u: Vec, a0: Mat, ip: seq<int>, d: Vec, e: Vec, w0: Vec,
                 w: Vec, m: nat, sigma: real)
    requires PivotReady(mach, cols, us, a0, true, ip, d, w0, m)
    requires Eliminated(cols, next, u, |us|, m, sigma, true, d, e, w) && |cols[|us|]| >= |us|
    requires Abs(sigma) == TailNorm(mach, cols[|us|], |us|)
    ensures RowsBounded(next, e[|us| := -sigma], |us| + 1)
  {
    hide Reduced, Proper, Reflect, TriColumn, RowsBounded, DiagonalFalls, NormsKept, RestKept, Permutation;
    RowsStep(cols, next, u, d, e[|us| := -sigma], w0, |us|, m, Abs(sigma));
  }

  /** A reflection keeps the rows above it, and its own row cannot exceed the tails it keeps. */
  lemma RowsStep(cols: Mat, next: Mat, u: Vec, d: Vec, e: Vec, w: Vec, j: nat, m: nat, t: real)
    requires ReducedBy(cols, next, u, j, m) && Proper(u, j) && RestKept(cols, d, w, j, m) && RowsBounded(cols, d, j)
    requires |e| == |d| && (forall b :: 0 <= b < j ==> e[b] == d[b]) && Abs(e[j]) == t >= 0.0
    requires forall c :: j < c < |d| ==> d[c] <= t
    ensures RowsBounded(next, e, j + 1)
  {
    hide Reflect, Below, Proper;
    forall b, c | 0 <= b < j + 1 && b < c < |next|
      ensures EntryBounded(next[c], e, b)
    {
      if b == j {
        OwnRow(u, cols[c], d[c], w[c], e, j, t);
      } else {
        assert EntryBounded(cols[c], d, b);
        if c > j {
          TopKept(u, j, cols[c]);
        }
      }
    }
  }

  lemma OwnRow(u: Vec, x: Vec, rd: real, w: real, e: Vec, j: nat, t: real)
    requires |u| == |x| && j < |u| && Proper(u, j) && u == Below(u, j) && NormKept(x, j, rd, w) && rd <= t
    requires j < |e| && Abs(e[j]) == t
    ensures EntryBounded(Reflect(u, j, x), e, j)
  {
    hide Proper, Below;
    TailIsometry(u, j, x);
    FirstOfTail(Reflect(u, j, x), j, rd, t);
  }

  lemma FirstOfTail(x: Vec, j: nat, rd: real, t: real)
    requires j < |x| && 0.0 <= rd <= t && rd * rd == DotR(x, x, j, |x|)
    ensures Abs(x[j]) <= t
  {
    DotRSplit(x, x, j, j + 1, |x|);
    DotRNonneg(x, j + 1, |x|);
    assert DotR(x, x, j, j) == 0.0;
    SquareAbs(x[j]);
    SquareOrder(Abs(x[j]), rd, x[j] * x[j], rd * rd);
  }

  lemma DiagonalStep(mach: Machine, cols: Mat, next: Mat, us: Mat, a0: Mat, ip: seq<int>, d: Vec, e: Vec, w0: Vec,
                     w: Vec, m: nat, sigma: real)
    requires PivotReady(mach, cols, us, a0, true, ip, d, w0, m) && |e| == |d|
    requires Abs(sigma) == TailNorm(mach, cols[|us|], |us|)
    requires NormsKept(next, e[|us| := -sigma], w, |us| + 1, m)
    requires forall c :: 0 <= c <= |us| ==> e[c] == d[c]
    requires forall c :: |us| < c < |d| ==> e[c] <= d[c]
    ensures DiagonalFalls(e[|us| := -sigma], |us| + 1)
  {
    StepFalls(next, d, e[|us| := -sigma], w, |us|, Abs(sigma), m);
  }

  lemma StepFalls(cols: Mat, d: Vec, e: Vec, w: Vec, j: nat, t: real, m: nat)
    requires NormsKept(cols, e, w, j + 1, m) && DiagonalFalls(d, j) && j < |d| == |e| && Abs(e[j]) == t >= 0.0
    requires forall c :: 0 <= c < j ==> e[c] == d[c]
    requires forall b :: 0 <= b < j ==> Abs(d[b]) >= t
    requires forall c :: j < c < |d| ==> e[c] <= d[c] <= t
    ensures DiagonalFalls(e, j + 1)
  {
    forall c | j < c < |d|
      ensures 0.0 <= e[c]
    {
      assert NormKept(cols[c], j + 1, e[c], w[c]);
    }
    DiagonalExtends(d, e, j, t);
  }

  lemma InitialProgress(mach: Machine, cols: Mat, pivot: bool, ipvt: seq<int>, d: Vec, w: Vec, m: nat)
    requires mach.Valid() && IsMat(cols, |cols|, m) && |d| == |w| == |cols|
    requires pivot ==> |ipvt| >= |cols| && forall c :: 0 <= c < |cols| ==> ipvt[c] == c + 1
    requires forall c :: 0 <= c < |cols| ==> d[c] == w[c] == mach.Norm(cols[c])
    ensures Progress(cols, [], cols, pivot, ipvt, d, w, m)
  {
    assert Reduced(cols, [], cols, Order(pivot, ipvt, |cols|), d, m);
    assert Permutation(Order(pivot, ipvt, |cols|));
  }

  method FactorColumn(mach: Machine, m: nat, n: nat, a: array2<real>, j: nat, pivot: bool, ipvt: array<int>,
                      rdiag: array<real>, wa: array<real>, ghost us: Mat, ghost a0: Mat)
    returns (ghost u: Vec)
    requires mach.Valid() && a.Length0 == m && a.Length1 == n == rdiag.Length == wa.Length == |a0| && rdiag != wa
    requires |us| == j < n && j < m && Progress(ColsOf(a), us, a0, pivot, ipvt[..], rdiag[..], wa[..], m)
    modifies a, ipvt, rdiag, wa
    ensures Progress(ColsOf(a), us + [u], a0, pivot, ipvt[..], rdiag[..], wa[..], m)
  {
    if pivot {
      PivotSwap(mach, m, n, a, j, ipvt, rdiag, wa, us, a0);
    }
    u := PivotStep(mach, m, n, a, j, pivot, ipvt[..], rdiag, wa, us, a0);
  }

  lemma ProgressEnds(cols: Mat, us: Mat, a0: Mat, pivot: bool, ipvt: seq<int>, d: Vec, w: Vec, m: nat)
    requires |us| == MinNat(m, |a0|) && Progress(cols, us, a0, pivot, ipvt, d, w, m)
    ensures Factorization(cols, d, a0, Order(pivot, ipvt, |a0|), m)
    ensures pivot ==> DiagonalFalls(d, MinNat(m, |a0|)) && RowsBounded(cols, d, MinNat(m, |a0|))
  {
    assert us == Factored(cols, MinNat(m, |a0|));
  }

  /** Overwrites a by its factorization. With pivoting the diagonal of the triangular factor has nonincreasing
      magnitude, and no entry exceeds the diagonal one of its row; acnorm holds the norms of the original columns either
      way. */
  method Qrfac(mach: Machine, m: nat, n: nat, a: array2<real>, pivot: bool, ipvt: array<int>, rdiag: array<real>,
               acnorm: array<real>, wa: array<real>)
    requires mach.Valid() && a.Length0 == m && a.Length1 == n == rdiag.Length == acnorm.Length == wa.Length
    requires pivot ==> ipvt.Length >= n
    requires rdiag != acnorm && rdiag != wa && acnorm != wa
    modifies a, ipvt, rdiag, acnorm, wa
    ensures Numbers(pivot, ipvt[..], n)
    ensures Factorization(ColsOf(a), rdiag[..], old(ColsOf(a)), Order(pivot, ipvt[..], n), m)
    ensures pivot ==> DiagonalFalls(rdiag[..], MinNat(m, n)) && RowsBounded(ColsOf(a), rdiag[..], MinNat(m, n))
    ensures forall c :: 0 <= c < n ==> acnorm[c] == mach.Norm(old(ColsOf(a))[c])
  {
    ghost var a0 := ColsOf(a);
    InitNorms(mach, m, n, a, pivot, ipvt, rdiag, acnorm, wa);
    ghost var us: Mat := [];
    InitialProgress(mach, a0, pivot, ipvt[..], rdiag[..], wa[..], m);
    for j := 0 to MinNat(m, n)
      invariant |us| == j
      invariant Progress(ColsOf(a), us, a0, pivot, ipvt[..], rdiag[..], wa[..], m)
      invariant forall c :: 0 <= c < n ==> acnorm[c] == mach.Norm(a0[c])
    {
      ghost var u := FactorColumn(mach, m, n, a, j, pivot, ipvt, rdiag, wa, us, a0);
      us := us + [u];
    }
    ProgressEnds(ColsOf(a), us, a0, pivot, ipvt[..], rdiag[..], wa[..], m);
  }
}
