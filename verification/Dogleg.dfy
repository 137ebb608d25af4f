/** dogleg: the step a trust region of radius delta takes along the dogleg of an upper triangular system. */
module Dogleg {
  import opened Reals
  import opened Vectors
  import opened Machines
  import opened Packed
  import opened DoglegPath

  // ---- the Gauss-Newton direction ----

  /** The largest magnitude among the first k entries of column j. */
  function ColumnMax(a: Mat, j: nat, k: nat): (t: real)
    requires k <= |a| && forall i :: 0 <= i < |a| ==> j < |a[i]|
    ensures t >= 0.0
  {
    if k == 0 then 0.0 else Max(ColumnMax(a, j, k - 1), Abs(a[k - 1][j]))
  }

  /** The divisor used for row j: the diagonal entry, or a small positive stand-in for a zero. */
  function Pivot(mach: Machine, a: Mat, j: nat): (t: real)
    requires mach.Valid() && j < |a| && forall i :: 0 <= i < |a| ==> j < |a[i]|
    ensures t != 0.0
    ensures a[j][j] != 0.0 ==> t == a[j][j]
    ensures a[j][j] == 0.0 ==> t > 0.0
  {
    if a[j][j] != 0.0 then a[j][j]
    else
      var t := mach.epsmch * ColumnMax(a, j, j + 1);
      NonnegProduct(mach.epsmch, ColumnMax(a, j, j + 1), t);
      if t == 0.0 then mach.epsmch else t
  }

  /** The matrix whose system the back substitution solves: a with its pivots on the diagonal. */
  function Pivoted(mach: Machine, a: Mat): (p: Mat)
    requires mach.Valid() && IsMat(a, |a|, |a|)
    ensures IsMat(p, |a|, |a|)
    ensures forall j :: 0 <= j < |a| ==> p[j] == a[j][j := Pivot(mach, a, j)]
  {
    seq(|a|, j requires 0 <= j < |a| && IsMat(a, |a|, |a|) => a[j][j := Pivot(mach, a, j)])
  }

  /** t is the largest magnitude among the first k entries of column j, or 0 when there is none. */
  ghost predicate LargestAbove(a: Mat, j: nat, k: nat, t: real) {
    && k <= |a| && (forall i :: 0 <= i < |a| ==> j < |a[i]|) && t >= 0.0
    && (forall i :: 0 <= i < k ==> -t <= a[i][j] <= t)
    && (t == 0.0 || exists i :: 0 <= i < k && (a[i][j] == t || a[i][j] == -t))
  }

  lemma {:induction false} ColumnMaxIsLargest(a: Mat, j: nat, k: nat)
    requires k <= |a| && forall i :: 0 <= i < |a| ==> j < |a[i]|
    ensures LargestAbove(a, j, k, ColumnMax(a, j, k))
  {
    if k > 0 {
      ColumnMaxIsLargest(a, j, k - 1);
      assert a[k - 1][j] == Abs(a[k - 1][j]) || a[k - 1][j] == -Abs(a[k - 1][j]);
    }
  }

  /** The stand-in for a zero on the diagonal is epsmch times the largest magnitude in its column down to the diagonal,
      or epsmch itself for a zero column. */
  lemma StandInIs(mach: Machine, a: Mat, j: nat) returns (t: real)
    requires mach.Valid() && j < |a| && (forall i :: 0 <= i < |a| ==> j < |a[i]|) && a[j][j] == 0.0
    ensures LargestAbove(a, j, j + 1, t) && Pivot(mach, a, j) == if t > 0.0 then mach.epsmch * t else mach.epsmch
  {
    t := ColumnMax(a, j, j + 1);
    ColumnMaxIsLargest(a, j, j + 1);
    hide LargestAbove, ColumnMax;
    if t > 0.0 {
      PositiveProduct(mach.epsmch, t, mach.epsmch * t);
    }
  }

  ghost predicate Nonsingular(a: Mat) {
    IsMat(a, |a|, |a|) && forall j :: 0 <= j < |a| ==> a[j][j] != 0.0
  }

  ghost predicate UpperTriangular(a: Mat) {
    forall i, j :: 0 <= j < i < |a| && j < |a[i]| ==> a[i][j] == 0.0
  }

  lemma PivotedNonsingular(mach: Machine, a: Mat)
    requires mach.Valid() && Nonsingular(a)
    ensures Pivoted(mach, a) == a
  {
    forall j | 0 <= j < |a|
      ensures Pivoted(mach, a)[j] == a[j]
    {
    }
  }

  /** The walk down column j of the packed triangle that looks for a stand-in pivot. */
  method ColumnWalk(n: nat, r: seq<real>, j: nat) returns (temp: real)
    requires |r| >= Slots(n) && j < n
    ensures temp == ColumnMax(Upper(r, n), j, j + 1)
  {
    temp := 0.0;
    var l := j;
    for i := 0 to j + 1
      invariant i <= j ==> l == Slot(n, j, i)
      invariant temp == ColumnMax(Upper(r, n), j, i)
    {
      temp := Max(temp, Abs(r[l]));
      l := l + n - (i + 1);
    }
  }

  method ChoosePivot(mach: Machine, n: nat, r: seq<real>, j: nat, jj: nat) returns (temp: real)
    requires mach.Valid() && |r| >= Slots(n) && j < n && jj == Off(n, j)
    ensures temp == Pivot(mach, Upper(r, n), j)
  {
    assert jj == Slot(n, j, j);
    temp := r[jj];
    if temp == 0.0 {
      temp := ColumnWalk(n, r, j);
      temp := mach.epsmch * temp;
      if temp == 0.0 {
        temp := mach.epsmch;
      }
    }
  }

  /** The inner product of row j of the packed triangle with v, from component lo on; l walks along the strip. */
  method StripDot(n: nat, r: seq<real>, j: nat, v: Vec, lo: nat, start: nat) returns (sum: real, l: nat)
    requires |r| >= Slots(n) && j <= lo <= n == |v| && j < n && start == Off(n, j) + lo - j
    ensures sum == DotR(UpperRow(r, n, j), v, lo, n)
    ensures l == Off(n, j + 1)
  {
    ghost var row := UpperRow(r, n, j);
    sum := 0.0;
    l := start;
    for i := lo to n
      invariant l == start + i - lo
      invariant sum == DotR(row, v, lo, i)
    {
      assert l == Slot(n, i, j);
      sum := sum + r[l] * v[i];
      l := l + 1;
    }
  }

  /** Row i of the system holds for the components of x from i on. */
  ghost predicate RowSolved(p: Mat, x: Vec, b: Vec, i: nat)
    requires IsMat(p, |b|, |b|) && |x| == |b| && i < |b|
  {
    DotR(p[i], x, i, |b|) == b[i]
  }

  /** Solves the triangular system from the last row to the first, in place in x. */
  method BackSubstitute(mach: Machine, n: nat, r: seq<real>, qtb: Vec, x: array<real>)
    requires mach.Valid() && |r| >= Slots(n) && |qtb| == n && x.Length == n
    modifies x
    ensures Mul(Pivoted(mach, Upper(r, n)), x[..]) == qtb
  {
    ghost var a := Upper(r, n);
    ghost var p := Pivoted(mach, a);
    var jj := Slots(n);
    for k := 1 to n + 1
      invariant jj == Off(n, n - k + 1)
      invariant forall i :: n - k + 1 <= i < n ==> RowSolved(p, x[..], qtb, i)
    {
      var j := n - k;
      jj := jj - k;
      var sum, l := StripDot(n, r, j, x[..], j + 1, jj + 1);
      var temp := ChoosePivot(mach, n, r, j, jj);
      ghost var before := x[..];
      x[j] := (qtb[j] - sum) / temp;
      PivotRowSolved(UpperRow(r, n, j), p[j], j, temp, before, x[..], sum, qtb[j]);
      LaterRowsKept(p, before, x[..], qtb, j, n);
    }
    TriangleSolved(p, x[..], qtb);
  }

  lemma LaterRowsKept(p: Mat, before: Vec, after: Vec, b: Vec, j: nat, hi: nat)
    requires IsMat(p, |b|, |b|) && |before| == |after| == |b| && j < hi <= |b|
    requires forall i :: j < i < |b| ==> before[i] == after[i]
    requires forall i :: j < i < hi ==> RowSolved(p, before, b, i)
    ensures forall i :: j < i < hi ==> RowSolved(p, after, b, i)
  {
    forall i | j < i < hi
      ensures RowSolved(p, after, b, i)
    {
      assert RowSolved(p, before, b, i);
      DotRSame(p[i], before, after, i, |b|);
    }
  }

  /** The rows of an upper triangle see only their own suffix of x. */
  lemma TriangleSolved(p: Mat, x: Vec, b: Vec)
    requires IsMat(p, |x|, |x|) && UpperTriangular(p) && |b| == |x|
    requires forall i :: 0 <= i < |x| ==> RowSolved(p, x, b, i)
    ensures Mul(p, x) == b
  {
    forall i | 0 <= i < |x|
      ensures Mul(p, x)[i] == b[i]
    {
      assert RowSolved(p, x, b, i);
      DotSuffix(p[i], x, i);
    }
  }

  lemma PivotRowSolved(row: Vec, p: Vec, j: nat, temp: real, before: Vec, after: Vec, sum: real, b: real)
    requires j < |row| == |before| && temp != 0.0 && p == row[j := temp]
    requires sum == DotR(row, before, j + 1, |row|) && after == before[j := (b - sum) / temp]
    ensures DotR(p, after, j, |row|) == b
  {
    DotRCong(row, before, p, after, j + 1, |row|);
    DotRSplit(p, after, j, j + 1, |row|);
    assert DotR(p, after, j, j) == 0.0;
    assert temp * ((b - sum) / temp) == b - sum;
  }

  // ---- the scaled gradient ----

  /** inverse(D) transpose(R) b */
  function ScaledGradient(a: Mat, d: Vec, b: Vec): (v: Vec)
    requires IsMat(a, |b|, |b|) && |d| == |b| && forall i :: 0 <= i < |d| ==> d[i] != 0.0
    ensures |v| == |b|
  {
    seq(|b|, i requires 0 <= i < |b| && IsMat(a, |b|, |b|) && |d| == |b| && d[i] != 0.0 => Comb(b, a, |b|)[i] / d[i])
  }

  /** Adds temp times strip j of the packed triangle to wa1. */
  method AddStrip(n: nat, r: seq<real>, j: nat, temp: real, wa1: array<real>, start: nat) returns (l: nat)
    requires |r| >= Slots(n) && j < n == wa1.Length && start == Off(n, j)
    modifies wa1
    ensures wa1[..] == Axpy(temp, UpperRow(r, n, j), old(wa1[..]))
    ensures l == Off(n, j + 1)
  {
    l := start;
    for i := j to n
      invariant l == start + i - j
      invariant forall m :: 0 <= m < j || i <= m < n ==> wa1[m] == old(wa1[m])
      invariant forall m :: j <= m < i ==> wa1[m] == old(wa1[m]) + temp * UpperRow(r, n, j)[m]
    {
      assert l == Slot(n, i, j);
      wa1[i] := wa1[i] + r[l] * temp;
      l := l + 1;
    }
  }

  method FormGradient(n: nat, r: seq<real>, diag: Vec, qtb: Vec, wa1: array<real>)
    requires |r| >= Slots(n) && |diag| == |qtb| == n == wa1.Length
    requires forall i :: 0 <= i < n ==> diag[i] != 0.0
    requires forall i :: 0 <= i < n ==> wa1[i] == 0.0
    modifies wa1
    ensures wa1[..] == ScaledGradient(Upper(r, n), diag, qtb)
  {
    hide Upper, UpperRow;
    ghost var a := Upper(r, n);
    var l := 0;
    for j := 0 to n
      invariant l == Off(n, j)
      invariant forall i :: 0 <= i < j ==> wa1[i] == CombTo(qtb, a, n, j)[i] / diag[i]
      invariant forall i :: j <= i < n ==> wa1[i] == CombTo(qtb, a, n, j)[i]
    {
      l := AddStrip(n, r, j, qtb[j], wa1, l);
      forall m | 0 <= m < j
        ensures CombTo(qtb, a, n, j + 1)[m] == CombTo(qtb, a, n, j)[m]
      {
        assert a[j][m] == 0.0;
      }
      wa1[j] := wa1[j] / diag[j];
    }
  }

  /** R v, row by row through the packed triangle. */
  method MultiplyUpper(n: nat, r: seq<real>, v: Vec, out: array<real>)
    requires |r| >= Slots(n) && |v| == n == out.Length
    modifies out
    ensures out[..] == Mul(Upper(r, n), v)
  {
    ghost var a := Upper(r, n);
    var l := 0;
    for j := 0 to n
      invariant l == Off(n, j)
      invariant forall i :: 0 <= i < j ==> out[i] == Dot(a[i], v)
    {
      var sum;
      sum, l := StripDot(n, r, j, v, j, l);
      DotSuffix(a[j], v, j);
      out[j] := sum;
    }
  }

  // ---- the point on the boundary ----

  /** <D w, D gn> when R gn = b. */
  function CrossValue(bnorm: real, gnorm: real): real
    requires gnorm != 0.0
  {
    bnorm * bnorm / gnorm
  }

  /** |(1 - alpha) sg u + alpha v| = delta for a unit vector u and a vector v of length q with <u, v> = c. */
  predicate OnBoundary(alpha: real, sg: real, c: real, q: real, delta: real) {
    Quad(LegWeight(sg, alpha), alpha, 1.0, c, q * q) == delta * delta
  }

  /** The weight of the Gauss-Newton point on the last leg. It lies strictly between 0 and 1 and puts the
      combination at distance exactly delta when <D w, D gn> = bnorm^2 / gnorm. */
  function Alpha(mach: Machine, bnorm: real, gnorm: real, qnorm: real, sgnorm: real, delta: real): (alpha: real)
    requires mach.Valid() && bnorm > 0.0 && gnorm > 0.0 && 0.0 < sgnorm < delta < qnorm
    ensures 0.0 < alpha < 1.0
    ensures OnBoundary(alpha, sgnorm, CrossValue(bnorm, gnorm), qnorm, delta)
  {
    var temp := bnorm / gnorm * (bnorm / qnorm) * (sgnorm / delta);
    var d1 := sgnorm / delta;
    var d3 := delta / qnorm;
    RatiosOk(bnorm, gnorm, qnorm, sgnorm, delta, temp, d1, d3);
    RadicandNonneg(Ratios(d3, d1, temp));
    var root := mach.sqrt(Ratios(d3, d1, temp).Radicand());
    var den := temp - d3 * (d1 * d1) + root;
    AlphaOnBoundary(bnorm, gnorm, qnorm, sgnorm, delta, temp, d1, d3, root, den);
    d3 * (1.0 - d1 * d1) / den
  }

  lemma RatiosOk(bnorm: real, gnorm: real, qnorm: real, sgnorm: real, delta: real, temp: real, d1: real, d3: real)
    requires bnorm > 0.0 && gnorm > 0.0 && 0.0 < sgnorm < delta < qnorm
    requires d1 == sgnorm / delta && d3 == delta / qnorm && temp == bnorm / gnorm * (bnorm / qnorm) * d1
    ensures Ratios(d3, d1, temp).Ok()
  {
    DivisionSign(sgnorm, delta, d1);
    DivisionSign(delta, qnorm, d3);
    DivisionSign(delta - sgnorm, delta, 1.0 - d1);
    DivisionSign(qnorm - delta, qnorm, 1.0 - d3);
    var u, v := bnorm / gnorm, bnorm / qnorm;
    DivisionSign(bnorm, gnorm, u);
    DivisionSign(bnorm, qnorm, v);
    PositiveProduct(u, v, u * v);
    PositiveProduct(u * v, d1, temp);
  }

  lemma AlphaOnBoundary(bnorm: real, gnorm: real, qnorm: real, sgnorm: real, delta: real, temp: real, d1: real,
                        d3: real, root: real, den: real)
    requires bnorm > 0.0 && gnorm > 0.0 && 0.0 < sgnorm < delta < qnorm
    requires d1 == sgnorm / delta && d3 == delta / qnorm && temp == bnorm / gnorm * (bnorm / qnorm) * d1
    requires root >= 0.0 && root * root == Ratios(d3, d1, temp).Radicand()
    requires den == temp - d3 * (d1 * d1) + root
    ensures den > 0.0
    ensures var alpha := d3 * (1.0 - d1 * d1) / den;
      0.0 < alpha < 1.0 && OnBoundary(alpha, sgnorm, CrossValue(bnorm, gnorm), qnorm, delta)
  {
    RatiosOk(bnorm, gnorm, qnorm, sgnorm, delta, temp, d1, d3);
    var q := Ratios(d3, d1, temp);
    RootDenominator(q, root, den);
    var num := d3 * (1.0 - d1 * d1);
    var alpha := num / den;
    DivisionSign(num, den, alpha);
    OneMinus(num, den);
    DivisionSign(den - num, den, 1.0 - alpha);
    var beta := AlphaOverDq(d3, 1.0 - d1 * d1, den, alpha);
    PlaceOnBoundary(bnorm, gnorm, qnorm, sgnorm, delta, q, root, alpha, beta, 1.0 - alpha);
  }

  lemma PlaceOnBoundary(bnorm: real, gnorm: real, qnorm: real, sgnorm: real, delta: real, q: Ratios, root: real,
                        alpha: real, beta: real, e: real)
    requires bnorm > 0.0 && gnorm > 0.0 && 0.0 < sgnorm < delta < qnorm
    requires q.Ok() && q.sn == sgnorm / delta && q.dq == delta / qnorm && q.tm == bnorm / gnorm * (bnorm / qnorm) * q.sn
    requires root >= 0.0 && root * root == q.Radicand()
    requires alpha == q.dq * beta && e == 1.0 - alpha
    requires beta * (q.tm - q.dq * (q.sn * q.sn) + root) == 1.0 - q.sn * q.sn
    ensures OnBoundary(alpha, sgnorm, CrossValue(bnorm, gnorm), qnorm, delta)
  {
    BoundaryRoot(q, root, alpha, beta, e);
    Rescale(bnorm, gnorm, qnorm, sgnorm, delta, q.tm, q.sn, q.dq, alpha, beta, e, LegWeight(sgnorm, alpha),
            CrossValue(bnorm, gnorm));
  }

  lemma RadicandNonneg(q: Ratios)
    requires q.Ok()
    ensures q.Radicand() >= 0.0
  {
    var d1, d3 := q.sn, q.dq;
    SquareOrder(d1, 1.0, d1 * d1, 1.0);
    SquareOrder(d3, 1.0, d3 * d3, 1.0);
    NonnegProduct(1.0 - d3 * d3, 1.0 - d1 * d1, (1.0 - d3 * d3) * (1.0 - d1 * d1));
    SquareSign(q.tm - d3, (q.tm - d3) * (q.tm - d3));
  }

  lemma AlphaOverDq(d3: real, c: real, den: real, alpha: real) returns (beta: real)
    requires den != 0.0 && alpha == d3 * c / den
    ensures alpha == d3 * beta && beta * den == c
  {
    beta := c / den;
    Quotient(c, den, beta);
    assert d3 * beta * den == d3 * c;
    Quotient(d3 * c, den, d3 * beta);
  }

  lemma OneMinus(num: real, den: real)
    requires den != 0.0
    ensures 1.0 - num / den == (den - num) / den
  {
    var q := num / den;
    Quotient(num, den, q);
    assert (1.0 - q) * den == den - num;
    Quotient(den - num, den, 1.0 - q);
  }

  /** From units of delta back to lengths. */
  lemma Rescale(bnorm: real, gnorm: real, qnorm: real, sgnorm: real, delta: real, temp: real, d1: real, d3: real,
                alpha: real, beta: real, e: real, t: real, c: real)
    requires gnorm != 0.0 && delta != 0.0 && qnorm != 0.0
    requires d1 == sgnorm / delta && d3 == delta / qnorm && temp == bnorm / gnorm * (bnorm / qnorm) * d1
    requires alpha == d3 * beta && t == e * sgnorm && c == bnorm * bnorm / gnorm
    requires e * e * (d1 * d1) + 2.0 * (e * beta * temp) + beta * beta == 1.0
    ensures Quad(t, alpha, 1.0, c, qnorm * qnorm) == delta * delta
  {
    assert d1 * delta == sgnorm;
    assert beta * delta == alpha * qnorm by {
      assert d3 * qnorm == delta;
      assert alpha * qnorm == beta * (d3 * qnorm);
    }
    assert temp * qnorm == c * d1 by {
      assert bnorm / gnorm * bnorm == c;
      assert bnorm / qnorm * qnorm == bnorm;
      assert temp * qnorm == bnorm / gnorm * (bnorm / qnorm * qnorm) * d1;
    }
    RescaleProducts(e, d1, beta, temp, delta, alpha, qnorm, c, sgnorm, t);
  }

  lemma RescaleProducts(e: real, d1: real, beta: real, temp: real, delta: real, alpha: real, qnorm: real, c: real,
                        sgnorm: real, t: real)
    requires d1 * delta == sgnorm && beta * delta == alpha * qnorm && temp * qnorm == c * d1 && t == e * sgnorm
    requires e * e * (d1 * d1) + 2.0 * (e * beta * temp) + beta * beta == 1.0
    ensures Quad(t, alpha, 1.0, c, qnorm * qnorm) == delta * delta
  {
    var p, r := ScaleSquares(e, d1, beta, delta, sgnorm, alpha, qnorm, t);
    var q := ScaleMiddle(e, beta, temp, delta, alpha, qnorm, c, d1, sgnorm, t);
    UnitSum(e * e * (d1 * d1), e * beta * temp, beta * beta, delta * delta, p, q, r);
  }

  lemma ScaleSquares(e: real, d1: real, beta: real, delta: real, sgnorm: real, alpha: real, qnorm: real, t: real)
    returns (p: real, r: real)
    requires d1 * delta == sgnorm && beta * delta == alpha * qnorm && t == e * sgnorm
    ensures t * t == p == e * e * (d1 * d1) * (delta * delta)
    ensures alpha * alpha * (qnorm * qnorm) == r == beta * beta * (delta * delta)
  {
    p, r := t * t, alpha * alpha * (qnorm * qnorm);
    assert e * e * (d1 * d1) * (delta * delta) == (e * (d1 * delta)) * (e * (d1 * delta));
    assert beta * beta * (delta * delta) == (beta * delta) * (beta * delta);
    assert alpha * alpha * (qnorm * qnorm) == (alpha * qnorm) * (alpha * qnorm);
  }

  lemma ScaleMiddle(e: real, beta: real, temp: real, delta: real, alpha: real, qnorm: real, c: real, d1: real,
                    sgnorm: real, t: real)
    returns (q: real)
    requires d1 * delta == sgnorm && beta * delta == alpha * qnorm && temp * qnorm == c * d1 && t == e * sgnorm
    ensures t * alpha * c == q == e * beta * temp * (delta * delta)
  {
    q := t * alpha * c;
    var bd, td, tq := beta * delta, temp * delta, temp * qnorm;
    assert e * beta * temp * (delta * delta) == e * (bd * td);
    assert bd * td == alpha * (tq * delta);
    assert tq * delta == c * sgnorm;
    assert e * (alpha * (c * sgnorm)) == t * alpha * c;
  }

  lemma UnitSum(x: real, y: real, z: real, k: real, p: real, q: real, r: real)
    requires x + 2.0 * y + z == 1.0 && p == x * k && q == y * k && r == z * k
    ensures p + 2.0 * q + r == k
  {
    assert z == 1.0 - x - 2.0 * y;
    assert r == k - p - 2.0 * q;
  }

  // ---- the step ----

  /** The scaled gradient direction, normalized so that |D w| = 1. */
  function UnitDirection(a: Mat, d: Vec, b: Vec, g: real): (w: Vec)
    requires IsMat(a, |b|, |b|) && |d| == |b| && g != 0.0
    requires forall i :: 0 <= i < |d| ==> d[i] != 0.0
    ensures |w| == |b|
  {
    var v := ScaledGradient(a, d, b);
    seq(|b|, i requires 0 <= i < |b| && |v| == |d| == |b| && d[i] != 0.0 && g != 0.0 => v[i] / g / d[i])
  }

  lemma UnitDirectionIsDirection(mach: Machine, a: Mat, d: Vec, b: Vec, g: real)
    requires mach.Valid() && IsMat(a, |b|, |b|) && |d| == |b|
    requires forall i :: 0 <= i < |d| ==> d[i] != 0.0
    requires g == mach.Norm(ScaledGradient(a, d, b)) != 0.0
    ensures Direction(a, d, b, UnitDirection(a, d, b, g), g)
  {
    hide Dot, CombTo;
    var v := ScaledGradient(a, d, b);
    var dw := Times(d, UnitDirection(a, d, b, g));
    assert v == Scale(g, dw) by {
      forall i | 0 <= i < |b|
        ensures v[i] == Scale(g, dw)[i]
      {
        UnitDirectionAt(a, d, b, g, i);
      }
    }
    forall i | 0 <= i < |b|
      ensures g * (d[i] * (d[i] * UnitDirection(a, d, b, g)[i])) == Comb(b, a, |b|)[i]
    {
      UnitDirectionAt(a, d, b, g, i);
    }
    DotScale(g, dw, v);
    DotScale(g, dw, dw);
    UnitLength(g, Dot(dw, dw), Dot(v, v));
  }

  lemma UnitDirectionAt(a: Mat, d: Vec, b: Vec, g: real, i: nat)
    requires IsMat(a, |b|, |b|) && |d| == |b| && g != 0.0 && i < |b|
    requires forall k :: 0 <= k < |d| ==> d[k] != 0.0
    ensures var w := UnitDirection(a, d, b, g)[i];
      g * (d[i] * w) == ScaledGradient(a, d, b)[i] && g * (d[i] * (d[i] * w)) == Comb(b, a, |b|)[i]
  {
    Unscale(Comb(b, a, |b|)[i], ScaledGradient(a, d, b)[i], g, d[i], UnitDirection(a, d, b, g)[i]);
  }

  lemma Unscale(c: real, v: real, g: real, d: real, w: real)
    requires g != 0.0 && d != 0.0 && v == c / d && w == v / g / d
    ensures g * (d * w) == v
    ensures g * (d * (d * w)) == c
  {
    assert d * w == v / g;
    assert g * (v / g) == v;
    assert v * d == c;
  }

  lemma UnitLength(g: real, s: real, p: real)
    requires g != 0.0 && p == g * g && p == g * (g * s)
    ensures s == 1.0
  {
    SquareSign(g, p);
    assert p * (s - 1.0) == 0.0;
    ZeroProduct(p, s - 1.0);
  }

  ghost predicate Inputs(a: Mat, d: Vec, b: Vec, delta: real) {
    && IsMat(a, |b|, |b|) && UpperTriangular(a) && |d| == |b| && delta > 0.0
    && forall i :: 0 <= i < |d| ==> d[i] != 0.0
  }

  /** |D gn| */
  function ScaledNorm(mach: Machine, d: Vec, y: Vec): (q: real)
    requires mach.Valid() && |d| == |y|
    ensures q >= 0.0 && q * q == ScaledSquare(d, y)
  {
    mach.Norm(Times(d, y))
  }

  /** The distance of the Cauchy point along w. */
  function CauchyStep(mach: Machine, a: Mat, w: Vec, g: real): real
    requires mach.Valid() && IsMat(a, |w|, |w|) && mach.Norm(Mul(a, w)) != 0.0
  {
    g / mach.Norm(Mul(a, w)) / mach.Norm(Mul(a, w))
  }

  /** The weight of the gradient direction in the combination dogleg forms. */
  function GradientWeight(alpha: real, sgnorm: real, delta: real): real {
    (1.0 - alpha) * Min(sgnorm, delta)
  }

  /** What every call of dogleg leaves in x, gn being the solution of the pivoted triangular system. */
  ghost predicate DoglegStep(mach: Machine, a: Mat, d: Vec, b: Vec, delta: real, gn: Vec, x: Vec)
    requires mach.Valid() && Inputs(a, d, b, delta)
  {
    && |gn| == |x| == |b| && Mul(Pivoted(mach, a), gn) == b
    && var q := ScaledNorm(mach, d, gn);
       if q <= delta then x == gn
       else
         var g := mach.Norm(ScaledGradient(a, d, b));
         if g == 0.0 then
           x == Blend(GradientWeight(delta / q, 0.0, delta), ScaledGradient(a, d, b), delta / q, gn)
         else
           var w := UnitDirection(a, d, b, g);
           mach.Norm(Mul(a, w)) > 0.0 && mach.Norm(b) > 0.0
           && var sg := CauchyStep(mach, a, w, g);
              sg > 0.0
              && var alpha := if sg >= delta then 0.0 else Alpha(mach, mach.Norm(b), g, q, sg, delta);
                 x == Blend(GradientWeight(alpha, sg, delta), w, alpha, gn)
  }

  /** A nonzero gradient makes every divisor of dogleg positive, for any R. */
  lemma DivisorsPositive(mach: Machine, a: Mat, d: Vec, b: Vec, delta: real, g: real, w: Vec)
    requires mach.Valid() && Inputs(a, d, b, delta)
    requires g == mach.Norm(ScaledGradient(a, d, b)) != 0.0 && w == UnitDirection(a, d, b, g)
    ensures Direction(a, d, b, w, g)
    ensures mach.Norm(Mul(a, w)) > 0.0 && mach.Norm(b) > 0.0
    ensures var sg := CauchyStep(mach, a, w, g); sg > 0.0 && sg * Dot(Mul(a, w), Mul(a, w)) == g
  {
    UnitDirectionIsDirection(mach, a, d, b, g);
    DirectionMoves(a, d, b, w, g);
    var k := mach.Norm(Mul(a, w));
    SquareSign(k, Dot(Mul(a, w), Mul(a, w)));
    DivisionSign(g, k, g / k);
    DivisionSign(g / k, k, g / k / k);
    TwiceDivided(g, k, g / k / k, k * k);
    NormZero(mach, b);
    if mach.Norm(b) == 0.0 {
      SlopeAlongDirection(a, d, b, w, g);
      DotRZero(b, Mul(a, w), 0, |b|);
    }
  }

  lemma TwiceDivided(g: real, k: real, sg: real, k2: real)
    requires k != 0.0 && sg == g / k / k && k2 == k * k
    ensures sg * k2 == g
  {
    var u := g / k;
    assert u * k == g;
    assert sg * k == u;
    assert sg * (k * k) == (sg * k) * k;
  }

  method ScaleStep(n: nat, diag: Vec, x: Vec, wa1: array<real>, wa2: array<real>)
    requires |diag| == |x| == n == wa1.Length == wa2.Length && wa1 != wa2
    modifies wa1, wa2
    ensures wa1[..] == Zero(n) && wa2[..] == Times(diag, x)
  {
    for j := 0 to n
      invariant forall i :: 0 <= i < j ==> wa1[i] == 0.0
      invariant forall i :: 0 <= i < j ==> wa2[i] == Times(diag, x)[i]
    {
      wa1[j] := 0.0;
      wa2[j] := diag[j] * x[j];
    }
  }

  method NormalizeGradient(n: nat, a: Mat, diag: Vec, qtb: Vec, gnorm: real, wa1: array<real>)
    requires IsMat(a, n, n) && |diag| == |qtb| == n == wa1.Length && gnorm != 0.0
    requires forall i :: 0 <= i < n ==> diag[i] != 0.0
    requires wa1[..] == ScaledGradient(a, diag, qtb)
    modifies wa1
    ensures wa1[..] == UnitDirection(a, diag, qtb, gnorm)
  {
    for j := 0 to n
      invariant forall i :: 0 <= i < j ==> wa1[i] == UnitDirection(a, diag, qtb, gnorm)[i]
      invariant forall i :: j <= i < n ==> wa1[i] == ScaledGradient(a, diag, qtb)[i]
    {
      wa1[j] := wa1[j] / gnorm / diag[j];
    }
  }

  method Combine(n: nat, temp: real, w: Vec, alpha: real, x: array<real>)
    requires |w| == n == x.Length
    modifies x
    ensures x[..] == Blend(temp, w, alpha, old(x[..]))
  {
    for j := 0 to n
      invariant forall i :: 0 <= i < j ==> x[i] == Blend(temp, w, alpha, old(x[..]))[i]
      invariant forall i :: j <= i < n ==> x[i] == old(x[i])
    {
      x[j] := temp * w[j] + alpha * x[j];
    }
  }

  lemma WeightCases(alpha: real, sg: real, delta: real)
    requires delta > 0.0
    ensures GradientWeight(alpha, 0.0, delta) == 0.0
    ensures sg >= delta ==> GradientWeight(0.0, sg, delta) == delta
    ensures sg < delta ==> GradientWeight(alpha, sg, delta) == LegWeight(sg, alpha)
  {
  }

  method Dogleg(mach: Machine, n: nat, r: seq<real>, diag: Vec, qtb: Vec, delta: real, x: array<real>, wa1: array<real>,
                wa2: array<real>)
    returns (ghost gn: Vec)
    requires mach.Valid() && |r| >= Slots(n) && |diag| == |qtb| == n
    requires Inputs(Upper(r, n), diag, qtb, delta)
    requires x.Length == wa1.Length == wa2.Length == n && x != wa1 && x != wa2 && wa1 != wa2
    modifies x, wa1, wa2
    ensures DoglegStep(mach, Upper(r, n), diag, qtb, delta, gn, x[..])
  {
    hide Upper;
    ghost var a := Upper(r, n);
    BackSubstitute(mach, n, r, qtb, x);
    gn := x[..];
    ScaleStep(n, diag, x[..], wa1, wa2);
    var qnorm := mach.Norm(wa2[..]);
    if qnorm <= delta {
      return;
    }
    FormGradient(n, r, diag, qtb, wa1);
    var gnorm := mach.Norm(wa1[..]);
    var sgnorm := 0.0;
    var alpha := delta / qnorm;
    if gnorm != 0.0 {
      NormalizeGradient(n, Upper(r, n), diag, qtb, gnorm, wa1);
      MultiplyUpper(n, r, wa1[..], wa2);
      DivisorsPositive(mach, a, diag, qtb, delta, gnorm, wa1[..]);
      var temp := mach.Norm(wa2[..]);
      sgnorm := gnorm / temp / temp;
      alpha := 0.0;
      if sgnorm < delta {
        var bnorm := mach.Norm(qtb);
        alpha := Alpha(mach, bnorm, gnorm, qnorm, sgnorm, delta);
      }
    }
    Combine(n, GradientWeight(alpha, sgnorm, delta), wa1[..], alpha, x);
  }
}
