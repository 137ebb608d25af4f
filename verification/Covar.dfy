/** covar and covar1: the covariance matrix P inverse(transpose(R) R) transpose(P) of a pivoted factorization, formed in
    the array that held R. */
module Covar {
  import opened Reals
  import opened Vectors
  import opened Arrays
  import opened Dogleg
  import opened DoglegTheorems
  import opened Qrfac

  // ---- inverse triangles ----

  /** The leading block of order l, its strict lower triangle cleared. */
  function Block(r: Mat, l: nat): (b: Mat)
    requires IsMat(r, |r|, |r|) && l <= |r|
    ensures IsMat(b, l, l)
    ensures forall i, j :: 0 <= i < l && 0 <= j < l ==> b[i][j] == if i <= j then r[i][j] else 0.0
  {
    seq(l, i requires 0 <= i < l <= |r| && IsMat(r, |r|, |r|) =>
      seq(l, j requires 0 <= j < l <= |r| && IsMat(r, |r|, |r|) && 0 <= i < l => if i <= j then r[i][j] else 0.0))
  }

  /** t is a triangular left inverse of b. */
  ghost predicate Inverts(t: Mat, b: Mat, l: nat) {
    && IsMat(t, l, l) && IsMat(b, l, l) && UpperTriangular(t) && Nonsingular(t)
    && forall i, k :: 0 <= i < l && 0 <= k < l ==> Dot(t[i], Col(b, k)) == if i == k then 1.0 else 0.0
  }

  /** Row i of T B is row i of the identity. */
  lemma RowTimesBlock(t: Mat, b: Mat, l: nat, i: nat)
    requires Inverts(t, b, l) && i < l
    ensures Comb(t[i], b, l) == Unit(l, i)
  {
    forall k | 0 <= k < l
      ensures Comb(t[i], b, l)[k] == Unit(l, i)[k]
    {
      CombAt(t[i], b, l, k);
    }
  }

  /** T (B z) = z */
  lemma LeftInverse(t: Mat, b: Mat, l: nat, z: Vec)
    requires Inverts(t, b, l) && |z| == l
    ensures Mul(t, Mul(b, z)) == z
  {
    forall i | 0 <= i < l
      ensures Mul(t, Mul(b, z))[i] == z[i]
    {
      RowTimesBlock(t, b, l, i);
      Adjoint(t[i], b, z);
      DotUnit(z, i);
    }
  }

  /** B (T v) = v: a left inverse with a trivial kernel is a right inverse. */
  lemma RightInverse(t: Mat, b: Mat, l: nat, v: Vec)
    requires Inverts(t, b, l) && |v| == l
    ensures Mul(b, Mul(t, v)) == v
  {
    var w := Mul(b, Mul(t, v));
    var y := Axpy(-1.0, v, w);
    LeftInverse(t, b, l, Mul(t, v));
    MulAxpy(t, -1.0, v, w);
    assert Mul(t, y) == Zero(l);
    KernelTrivial(t, y, 0);
    forall i | 0 <= i < l
      ensures w[i] == v[i]
    {
      assert y[i] == 0.0;
    }
  }

  /** transpose(B) B y */
  ghost function NormalTimes(b: Mat, y: Vec): (z: Vec)
    requires IsMat(b, |y|, |y|)
    ensures |z| == |y|
  {
    Comb(Mul(b, y), b, |y|)
  }

  /** T transpose(T) is the inverse of transpose(B) B. */
  lemma CovarianceInverts(t: Mat, b: Mat, l: nat, j: nat, x: Vec)
    requires Inverts(t, b, l) && j < l == |x| && forall i :: 0 <= i < l ==> x[i] == Dot(t[i], t[j])
    ensures NormalTimes(b, x) == Unit(l, j)
  {
    assert x == Mul(t, t[j]);
    RightInverse(t, b, l, t[j]);
    RowTimesBlock(t, b, l, j);
  }

  /** The normal equations of an invertible triangle have one solution. */
  lemma NormalInjective(t: Mat, b: Mat, l: nat, x: Vec, y: Vec)
    requires Inverts(t, b, l) && |x| == |y| == l && NormalTimes(b, x) == NormalTimes(b, y)
    ensures x == y
  {
    var d, e := Axpy(-1.0, x, y), Mul(b, Axpy(-1.0, x, y));
    MulAxpy(b, -1.0, x, y);
    Adjoint(Mul(b, x), b, d);
    Adjoint(Mul(b, y), b, d);
    DotAxpy(-1.0, Mul(b, x), Mul(b, y), e);
    assert Dot(e, e) == 0.0;
    DotNonneg(e);
    LeftInverse(t, b, l, d);
    forall i | 0 <= i < l
      ensures x[i] == y[i]
    {
      DotRZero(t[i], Zero(l), 0, l);
      assert d[i] == Mul(t, e)[i] == 0.0;
    }
  }

  // ---- one more column of the inverse ----

  /** -(s times the part of row i of the block with column k that the first j entries make) */
  ghost function Gathered(t: Vec, d: Vec, s: real, j: nat): real
    requires j <= |t| && j <= |d|
  {
    -(s * DotR(t, d, 0, j))
  }

  /** What the in-place step leaves in column k: a holds the inverse of the first k columns of r, next that of k + 1. */
  ghost predicate ColumnInverted(a: Mat, next: Mat, r: Mat, k: nat, s: real) {
    && IsMat(a, |r|, |r|) && IsMat(next, |r|, |r|) && IsMat(r, |r|, |r|) && k < |r| && s * r[k][k] == 1.0
    && (forall i, c :: 0 <= i <= c < k ==> next[i][c] == a[i][c])
    && next[k][k] == s
    && (forall i :: 0 <= i < k ==> next[i][k] == Gathered(Block(a, k)[i], Col(r, k), s, k))
  }

  /** The entry of T B in row i and the new column. */
  lemma NewColumnEntry(u: Vec, d: Vec, s: real, x: real, k: nat, p: real, q: real)
    requires k == |u| < |d| && p == d[k] && s * p == 1.0 && q == DotR(u, d, 0, k) && x == -(s * q)
    ensures Dot(u + [x], d[..k + 1]) == 0.0
  {
    DotREqual(u + [x], d[..k + 1], u, d, 0, k);
    LastTerm(u + [x], d[..k + 1], k, x, p, q, s);
  }

  lemma LastTerm(v: Vec, e: Vec, k: nat, x: real, p: real, q: real, s: real)
    requires |v| == |e| == k + 1 && v[k] == x && e[k] == p && DotR(v, e, 0, k) == q && s * p == 1.0 && x == -(s * q)
    ensures Dot(v, e) == 0.0
  {
    Cancelled(s, p, q, x);
  }

  lemma OldColumnEntry(u: Vec, d: Vec, x: real)
    requires |u| == |d|
    ensures Dot(u + [x], d + [0.0]) == Dot(u, d)
  {
    DotREqual(u + [x], d + [0.0], u, d, 0, |u|);
  }

  lemma Cancelled(s: real, p: real, q: real, x: real)
    requires s * p == 1.0 && x == -(s * q)
    ensures x * p == -q
  {
    assert (s * q) * p == q * (s * p);
  }

  lemma BlockGrows(a: Mat, next: Mat, k: nat)
    requires IsMat(a, |a|, |a|) && IsMat(next, |a|, |a|) && k < |a|
    requires forall i, c :: 0 <= i <= c < k ==> next[i][c] == a[i][c]
    ensures forall i :: 0 <= i < k ==> Block(next, k + 1)[i] == Block(a, k)[i] + [next[i][k]]
    ensures Block(next, k + 1)[k] == Scale(next[k][k], Unit(k + 1, k))
  {
  }

  lemma ColumnGrows(r: Mat, k: nat, c: nat)
    requires IsMat(r, |r|, |r|) && c <= k < |r|
    ensures c < k ==> Col(Block(r, k + 1), c) == Col(Block(r, k), c) + [0.0]
    ensures c == k ==> Col(Block(r, k + 1), c) == Col(r, k)[..k + 1]
  {
  }

  /** The block inverse grows by one column. */
  lemma InverseGrows(a: Mat, next: Mat, r: Mat, k: nat, s: real)
    requires ColumnInverted(a, next, r, k, s) && Inverts(Block(a, k), Block(r, k), k)
    ensures Inverts(Block(next, k + 1), Block(r, k + 1), k + 1)
  {
    hide Block, Col, UpperTriangular, Nonsingular, DotR;
    var t, b := Block(next, k + 1), Block(r, k + 1);
    forall i, c | 0 <= i <= k && 0 <= c <= k
      ensures Dot(t[i], Col(b, c)) == if i == c then 1.0 else 0.0
    {
      if i == k {
        LastRowAt(a, next, r, k, s, c);
      } else {
        InverseGrowsAt(a, next, r, k, s, i, c);
      }
    }
    DiagonalGrows(a, next, k, s, r[k][k]);
  }

  /** The diagonal stays nonzero, the triangle a triangle. */
  lemma DiagonalGrows(a: Mat, next: Mat, k: nat, s: real, p: real)
    requires IsMat(a, |a|, |a|) && IsMat(next, |a|, |a|) && k < |a| && Nonsingular(Block(a, k))
    requires (forall i, c :: 0 <= i <= c < k ==> next[i][c] == a[i][c]) && next[k][k] == s && s * p == 1.0
    ensures Nonsingular(Block(next, k + 1)) && UpperTriangular(Block(next, k + 1))
  {
    var t := Block(next, k + 1);
    forall i | 0 <= i < k
      ensures t[i][i] != 0.0
    {
      assert Block(a, k)[i][i] != 0.0;
    }
  }

  lemma LastRowAt(a: Mat, next: Mat, r: Mat, k: nat, s: real, c: nat)
    requires ColumnInverted(a, next, r, k, s) && c <= k
    ensures Dot(Block(next, k + 1)[k], Col(Block(r, k + 1), c)) == if k == c then 1.0 else 0.0
  {
    BlockGrows(a, next, k);
    LastRow(s, r[k][k], Col(Block(r, k + 1), c), k, c);
  }

  /** The last row of the larger inverse against column c. */
  lemma LastRow(s: real, p: real, col: Vec, k: nat, c: nat)
    requires |col| == k + 1 && c <= k && s * p == 1.0 && col[k] == if c == k then p else 0.0
    ensures Dot(Scale(s, Unit(k + 1, k)), col) == if c == k then 1.0 else 0.0
  {
    DotScale(s, Unit(k + 1, k), col);
    DotUnit(col, k);
  }

  lemma InverseGrowsAt(a: Mat, next: Mat, r: Mat, k: nat, s: real, i: nat, c: nat)
    requires ColumnInverted(a, next, r, k, s) && Inverts(Block(a, k), Block(r, k), k) && i < k && c <= k
    ensures Dot(Block(next, k + 1)[i], Col(Block(r, k + 1), c)) == if i == c then 1.0 else 0.0
  {
    BlockGrows(a, next, k);
    ColumnGrows(r, k, c);
    if c < k {
      OldColumnEntry(Block(a, k)[i], Col(Block(r, k), c), next[i][k]);
    } else {
      NewColumnEntry(Block(a, k)[i], Col(r, k), s, next[i][k], k, r[k][k], DotR(Block(a, k)[i], Col(r, k), 0, k));
    }
  }

  // ---- the four phases ----

  /** Subtracts temp times column j of the inverse from the top of column k. */
  method SubtractColumn(a: array2<real>, k: nat, j: nat, temp: real)
    requires j < k < a.Length0 == a.Length1
    modifies a
    ensures forall i :: 0 <= i <= j ==> a[i, k] == old(a[i, k]) - temp * old(a[i, j])
    ensures forall i, c :: 0 <= i < a.Length0 && 0 <= c < a.Length0 && (c != k || i > j) ==> a[i, c] == old(a[i, c])
  {
    for i := 0 to j + 1
      invariant forall h :: 0 <= h < i ==> a[h, k] == old(a[h, k]) - temp * old(a[h, j])
      invariant forall h, c :: 0 <= h < a.Length0 && 0 <= c < a.Length0 && (c != k || h >= i) ==>
                a[h, c] == old(a[h, c])
    {
      a[i, k] := a[i, k] - temp * a[i, j];
    }
  }

  lemma GatheredStep(t: Vec, d: Vec, s: real, j: nat, x: real, temp: real)
    requires j < |t| && j < |d| && x == Gathered(t, d, s, j) && temp == s * d[j]
    ensures x - temp * t[j] == Gathered(t, d, s, j + 1)
  {
    var q := DotR(t, d, 0, j);
    assert s * (q + t[j] * d[j]) == s * q + s * d[j] * t[j];
  }

  lemma GatheredStart(t: Vec, d: Vec, s: real, j: nat)
    requires j <= |t| && j <= |d| && forall c :: 0 <= c < j ==> t[c] == 0.0
    ensures Gathered(t, d, s, j) == 0.0
  {
    DotRZero(t, d, 0, j);
  }

  /** Column k of the array while its first j entries are being gathered. */
  ghost predicate Gathering(a: Mat, now: Mat, r: Mat, k: nat, s: real, j: nat) {
    && IsMat(a, |r|, |r|) && IsMat(now, |r|, |r|) && IsMat(r, |r|, |r|) && j <= k < |r|
    && now[k][k] == s
    && (forall i :: 0 <= i < j ==> now[i][k] == Gathered(Block(a, k)[i], Col(r, k), s, j))
    && (forall i :: j <= i < k ==> now[i][k] == r[i][k])
    && (forall i, c :: 0 <= i < |r| && 0 <= c < |r| && (c != k || i > k) ==> now[i][c] == a[i][c])
  }

  lemma GatheringStep(a: Mat, now: Mat, next: Mat, r: Mat, k: nat, s: real, j: nat, temp: real)
    requires Gathering(a, now, r, k, s, j) && j < k && temp == s * r[j][k] && IsMat(next, |r|, |r|)
    requires forall i :: 0 <= i <= j ==> next[i][k] == (if i == j then 0.0 else now[i][k]) - temp * now[i][j]
    requires forall i, c :: 0 <= i < |r| && 0 <= c < |r| && (c != k || i > j) ==> next[i][c] == now[i][c]
    ensures Gathering(a, next, r, k, s, j + 1)
  {
    forall i | 0 <= i <= j
      ensures next[i][k] == Gathered(Block(a, k)[i], Col(r, k), s, j + 1)
    {
      if i == j {
        GatheredStart(Block(a, k)[i], Col(r, k), s, j);
      }
      GatheredStep(Block(a, k)[i], Col(r, k), s, j, if i == j then 0.0 else now[i][k], temp);
    }
  }

  method GatherStep(a: array2<real>, k: nat, j: nat, ghost a0: Mat, ghost r: Mat, ghost s: real)
    requires a.Length0 == a.Length1 == |r| && Gathering(a0, RowsOf(a), r, k, s, j) && j < k
    modifies a
    ensures Gathering(a0, RowsOf(a), r, k, s, j + 1)
  {
    hide RowsOf;
    ghost var now := RowsOf(a);
    assert now[j][k] == a[j, k] && now[k][k] == a[k, k];
    var temp := a[k, k] * a[j, k];
    a[j, k] := 0.0;
    SubtractColumn(a, k, j, temp);
    GatheringStep(a0, now, RowsOf(a), r, k, s, j, temp);
  }

  /** The columns from k on, and everything below the diagonal, are still those of r. */
  ghost predicate Untouched(a: Mat, r: Mat, k: nat) {
    && IsMat(a, |r|, |r|) && IsMat(r, |r|, |r|)
    && forall i, c :: 0 <= i < |r| && 0 <= c < |r| && (c >= k || i > c) ==> a[i][c] == r[i][c]
  }

  method InvertColumn(a: array2<real>, k: nat, ghost r: Mat) returns (s: real)
    requires a.Length0 == a.Length1 == |r| && k < |r| && Untouched(RowsOf(a), r, k) && r[k][k] != 0.0
    modifies a
    ensures ColumnInverted(old(RowsOf(a)), RowsOf(a), r, k, s) && Untouched(RowsOf(a), r, k + 1)
  {
    ghost var a0 := RowsOf(a);
    assert a0[k][k] == a[k, k];
    s := Reciprocal(a[k, k]);
    a[k, k] := s;
    for j := 0 to k
      invariant Gathering(a0, RowsOf(a), r, k, s, j)
    {
      GatherStep(a, k, j, a0, r, s);
    }
  }

  method Reciprocal(p: real) returns (s: real)
    requires p != 0.0
    ensures s * p == 1.0
  {
    s := 1.0 / p;
  }

  method InvertNext(a: array2<real>, k: nat, ghost r: Mat)
    requires a.Length0 == a.Length1 == |r| && k < |r| && Untouched(RowsOf(a), r, k) && r[k][k] != 0.0
    requires Inverts(Block(RowsOf(a), k), Block(r, k), k)
    modifies a
    ensures Untouched(RowsOf(a), r, k + 1) && Inverts(Block(RowsOf(a), k + 1), Block(r, k + 1), k + 1)
  {
    ghost var before := RowsOf(a);
    var s := InvertColumn(a, k, r);
    InverseGrows(before, RowsOf(a), r, k, s);
  }

  /** Phase one: the inverse of the leading block, up to the first diagonal entry that is too small. */
  method InvertTriangle(a: array2<real>, tolr: real) returns (l: nat)
    requires a.Length0 == a.Length1 && tolr >= 0.0
    modifies a
    ensures RankAt(old(RowsOf(a)), tolr, l)
    ensures Inverts(Block(RowsOf(a), l), Block(old(RowsOf(a)), l), l)
  {
    hide RowsOf, Block, RowOf, Col, DotR;
    ghost var r := RowsOf(a);
    l := 0;
    while l < a.Length0
      invariant l <= a.Length0 && forall k :: 0 <= k < l ==> Abs(r[k][k]) > tolr
      invariant Untouched(RowsOf(a), r, l) && Inverts(Block(RowsOf(a), l), Block(r, l), l)
    {
      assert r[l][l] == RowsOf(a)[l][l] == a[l, l];
      if Abs(a[l, l]) <= tolr {
        break;
      }
      InvertNext(a, l, r);
      l := l + 1;
    }
  }

  /** l is the number of leading diagonal entries before the first that is at most tolr. */
  ghost predicate RankAt(r: Mat, tolr: real, l: nat) {
    && IsMat(r, |r|, |r|) && l <= |r|
    && (forall k :: 0 <= k < l ==> Abs(r[k][k]) > tolr)
    && (l < |r| ==> Abs(r[l][l]) <= tolr)
  }

  /** The sums of products over the first k columns of the inverse, in the columns below k, and the columns up to j
      one further. */
  ghost predicate Summing(a: Mat, now: Mat, l: nat, k: nat, j: nat) {
    && IsMat(a, |a|, |a|) && IsMat(now, |a|, |a|) && j <= k <= l <= |a| && (k == l ==> j == 0)
    && (forall i, c :: 0 <= i <= c < k ==>
          now[i][c] == DotR(Block(a, l)[i], Block(a, l)[c], 0, if c < j then k + 1 else k))
    && (forall i, c :: 0 <= i < |a| && 0 <= c < |a| && (c >= k || i > c) ==> now[i][c] == a[i][c])
  }

  method AddColumn(a: array2<real>, k: nat, j: nat, temp: real)
    requires j < k < a.Length0 == a.Length1
    modifies a
    ensures forall i :: 0 <= i <= j ==> a[i, j] == old(a[i, j]) + temp * old(a[i, k])
    ensures forall i, c :: 0 <= i < a.Length0 && 0 <= c < a.Length0 && (c != j || i > j) ==> a[i, c] == old(a[i, c])
  {
    for i := 0 to j + 1
      invariant forall h :: 0 <= h < i ==> a[h, j] == old(a[h, j]) + temp * old(a[h, k])
      invariant forall h, c :: 0 <= h < a.Length0 && 0 <= c < a.Length0 && (c != j || h >= i) ==>
                a[h, c] == old(a[h, c])
    {
      a[i, j] := a[i, j] + temp * a[i, k];
    }
  }

  method ScaleColumn(a: array2<real>, k: nat, temp: real)
    requires k < a.Length0 == a.Length1
    modifies a
    ensures forall i :: 0 <= i <= k ==> a[i, k] == old(a[i, k]) * temp
    ensures forall i, c :: 0 <= i < a.Length0 && 0 <= c < a.Length0 && (c != k || i > k) ==> a[i, c] == old(a[i, c])
  {
    for i := 0 to k + 1
      invariant forall h :: 0 <= h < i ==> a[h, k] == old(a[h, k]) * temp
      invariant forall h, c :: 0 <= h < a.Length0 && 0 <= c < a.Length0 && (c != k || h >= i) ==>
                a[h, c] == old(a[h, c])
    {
      a[i, k] := a[i, k] * temp;
    }
  }

  lemma SummingStep(a: Mat, now: Mat, next: Mat, l: nat, k: nat, j: nat, temp: real)
    requires Summing(a, now, l, k, j) && j < k < l && temp == a[j][k] && IsMat(next, |a|, |a|)
    requires forall i :: 0 <= i <= j ==> next[i][j] == now[i][j] + temp * now[i][k]
    requires forall i, c :: 0 <= i < |a| && 0 <= c < |a| && (c != j || i > j) ==> next[i][c] == now[i][c]
    ensures Summing(a, next, l, k, j + 1)
  {
    var t := Block(a, l);
    forall i, c | 0 <= i <= c < k
      ensures next[i][c] == DotR(t[i], t[c], 0, if c < j + 1 then k + 1 else k)
    {
      if c == j {
        SumStep(t[i], t[j], k, now[i][j], temp, now[i][k]);
      }
    }
  }

  lemma SumStep(u: Vec, v: Vec, k: nat, x: real, temp: real, y: real)
    requires k < |u| == |v| && x == DotR(u, v, 0, k) && temp == v[k] && y == u[k]
    ensures x + temp * y == DotR(u, v, 0, k + 1)
  {
  }

  lemma SummingColumn(a: Mat, now: Mat, next: Mat, l: nat, k: nat, temp: real)
    requires Summing(a, now, l, k, k) && k < l && temp == a[k][k] && IsMat(next, |a|, |a|)
    requires forall i :: 0 <= i <= k ==> next[i][k] == now[i][k] * temp
    requires forall i, c :: 0 <= i < |a| && 0 <= c < |a| && (c != k || i > k) ==> next[i][c] == now[i][c]
    ensures Summing(a, next, l, k + 1, 0)
  {
    var t := Block(a, l);
    forall i, c | 0 <= i <= c < k + 1
      ensures next[i][c] == DotR(t[i], t[c], 0, k + 1)
    {
      if c == k {
        DotRZero(t[i], t[k], 0, k);
        SumStep(t[i], t[k], k, 0.0, temp, now[i][k]);
      }
    }
  }

  method SumColumn(a: array2<real>, l: nat, k: nat, ghost t: Mat)
    requires a.Length0 == a.Length1 == |t| && k < l && Summing(t, RowsOf(a), l, k, 0)
    modifies a
    ensures Summing(t, RowsOf(a), l, k + 1, 0)
  {
    for j := 0 to k
      invariant Summing(t, RowsOf(a), l, k, j)
    {
      ghost var now := RowsOf(a);
      assert now[j][k] == a[j, k];
      AddColumn(a, k, j, a[j, k]);
      SummingStep(t, now, RowsOf(a), l, k, j, now[j][k]);
    }
    ghost var now := RowsOf(a);
    assert now[k][k] == a[k, k];
    ScaleColumn(a, k, a[k, k]);
    SummingColumn(t, now, RowsOf(a), l, k, now[k][k]);
  }

  /** Phase two: the upper triangle of T transpose(T). */
  method FormProducts(a: array2<real>, l: nat)
    requires a.Length0 == a.Length1 >= l
    modifies a
    ensures Summing(old(RowsOf(a)), RowsOf(a), l, l, 0)
  {
    ghost var t := RowsOf(a);
    for k := 0 to l
      invariant Summing(t, RowsOf(a), l, k, 0)
    {
      SumColumn(a, l, k, t);
    }
  }

  function Hi(x: nat, y: nat): nat {
    if x >= y then x else y
  }

  function Lo(x: nat, y: nat): nat {
    if x >= y then y else x
  }

  /** The upper triangle to be scattered: the products on the leading block, zero beyond it. */
  ghost function Kept(a: Mat, l: nat, h: nat, c: nat): real
    requires IsMat(a, |a|, |a|) && h < |a| && c < |a|
  {
    if c < l then a[h][c] else 0.0
  }

  /** Entries of the columns before j, and of column j above row i, have been copied to their places below the
      diagonal. */
  ghost predicate Scattered(a: Mat, now: Mat, p: seq<nat>, l: nat, j: nat, i: nat) {
    && IsMat(a, |a|, |a|) && IsMat(now, |a|, |a|) && |p| == |a| && Permutation(p)
    && (forall h, c :: 0 <= h <= c < |a| ==>
         now[h][c] == if c < j || (c == j && h < i) then Kept(a, l, h, c) else a[h][c])
    && (forall h, c :: 0 <= h < c < |a| && (c < j || (c == j && h < i)) ==>
         now[Hi(p[h], p[c])][Lo(p[h], p[c])] == Kept(a, l, h, c))
  }

  method ScatterEntry(a: array2<real>, ipvt: seq<int>, l: nat, j: nat, i: nat, ghost a0: Mat)
    requires a.Length0 == a.Length1 == |a0| && Numbers(true, ipvt, |a0|) && i <= j < |a0|
    requires Scattered(a0, RowsOf(a), Order(true, ipvt, |a0|), l, j, i)
    modifies a
    ensures Scattered(a0, RowsOf(a), Order(true, ipvt, |a0|), l, j, i + 1)
  {
    ghost var now, p := RowsOf(a), Order(true, ipvt, |a0|);
    var jj := ipvt[j] - 1;
    if j >= l {
      a[i, j] := 0.0;
    }
    var ii := ipvt[i] - 1;
    if ii > jj {
      a[ii, jj] := a[i, j];
    } else if ii < jj {
      a[jj, ii] := a[i, j];
    }
    ScatterStep(a0, now, RowsOf(a), p, l, j, i);
  }

  lemma ScatterStep(a: Mat, now: Mat, next: Mat, p: seq<nat>, l: nat, j: nat, i: nat)
    requires Scattered(a, now, p, l, j, i) && i <= j < |a| && IsMat(next, |a|, |a|)
    requires next[i][j] == Kept(a, l, i, j)
    requires i < j ==> next[Hi(p[i], p[j])][Lo(p[i], p[j])] == Kept(a, l, i, j)
    requires forall x, y :: 0 <= x < |a| && 0 <= y < |a| ==>
               (x == i && y == j) || (i < j && x == Hi(p[i], p[j]) && y == Lo(p[i], p[j])) || next[x][y] == now[x][y]
    ensures Scattered(a, next, p, l, j, i + 1)
  {
  }

  /** Phase three: the triangle moves, permuted, below the diagonal and its diagonal into wa. */
  method Scatter(a: array2<real>, ipvt: seq<int>, l: nat, wa: array<real>)
    requires a.Length0 == a.Length1 == wa.Length >= l
    requires Numbers(true, ipvt, wa.Length) && Permutation(Order(true, ipvt, wa.Length))
    modifies a, wa
    ensures Scattered(old(RowsOf(a)), RowsOf(a), Order(true, ipvt, wa.Length), l, wa.Length, 0)
    ensures forall c :: 0 <= c < wa.Length ==> wa[Order(true, ipvt, wa.Length)[c]] == Kept(old(RowsOf(a)), l, c, c)
  {
    ghost var a0, p := RowsOf(a), Order(true, ipvt, wa.Length);
    for j := 0 to wa.Length
      invariant Scattered(a0, RowsOf(a), p, l, j, 0)
      invariant forall c :: 0 <= c < j ==> wa[p[c]] == Kept(a0, l, c, c)
    {
      for i := 0 to j + 1
        invariant Scattered(a0, RowsOf(a), p, l, j, i)
        invariant forall c :: 0 <= c < j ==> wa[p[c]] == Kept(a0, l, c, c)
      {
        ScatterEntry(a, ipvt, l, j, i, a0);
      }
      assert RowsOf(a)[j][j] == a[j, j];
      wa[ipvt[j] - 1] := a[j, j];
    }
  }

  /** The symmetric matrix with the lower triangle of b and the diagonal w. */
  function SymmetricOf(b: Mat, w: Vec): (g: Mat)
    requires IsMat(b, |w|, |w|)
    ensures IsMat(g, |w|, |w|)
    ensures forall x, y :: 0 <= x < |w| && 0 <= y < |w| ==> g[x][y] == if x == y then w[x] else b[Hi(x, y)][Lo(x, y)]
  {
    seq(|w|, x requires 0 <= x < |w| && IsMat(b, |w|, |w|) =>
      seq(|w|, y requires 0 <= y < |w| && 0 <= x < |w| && IsMat(b, |w|, |w|) =>
           if x == y then w[x] else b[Hi(x, y)][Lo(x, y)]))
  }

  lemma SameMatrix(a: array2<real>, g: Mat)
    requires IsMat(g, a.Length0, a.Length1)
    requires forall x, y :: 0 <= x < a.Length0 && 0 <= y < a.Length1 ==> a[x, y] == g[x][y]
    ensures RowsOf(a) == g
  {
    forall x | 0 <= x < a.Length0
      ensures RowsOf(a)[x] == g[x]
    {
      assert RowsOf(a)[x] == RowOf(a, x);
    }
  }

  /** Phase four. */
  method Symmetrize(a: array2<real>, w: Vec)
    requires a.Length0 == a.Length1 == |w|
    modifies a
    ensures RowsOf(a) == SymmetricOf(old(RowsOf(a)), w)
  {
    hide RowsOf, SymmetricOf;
    var n := |w|;
    ghost var g := SymmetricOf(RowsOf(a), w);
    for j := 0 to n
      invariant forall x, y :: 0 <= y < x < n ==> a[x, y] == g[x][y]
      invariant forall x, y :: 0 <= x <= y < j ==> a[x, y] == g[x][y]
    {
      for i := 0 to j
        invariant forall x, y :: 0 <= y < x < n ==> a[x, y] == g[x][y]
        invariant forall x, y :: 0 <= x <= y < j ==> a[x, y] == g[x][y]
        invariant forall x :: 0 <= x < i ==> a[x, j] == g[x][j]
      {
        a[i, j] := a[j, i];
      }
      a[j, j] := w[j];
    }
    SameMatrix(a, g);
  }

  /** c is the inverse of transpose(R) R on the leading block of order l of R, in the original order of the columns, and
      zero in every row and column beyond the block. */
  ghost predicate IsCovariance(c: Mat, r: Mat, p: seq<nat>, l: nat) {
    && IsMat(c, |r|, |r|) && IsMat(r, |r|, |r|) && l <= |r| == |p| && Permutation(p)
    && (forall x, y :: 0 <= x < |r| && 0 <= y < |r| ==> c[x][y] == c[y][x])
    && (forall i, j :: 0 <= i < |r| && l <= j < |r| ==> c[p[i]][p[j]] == 0.0)
    && (forall j :: 0 <= j < l ==> NormalTimes(Block(r, l), PermutedColumn(c, p, l, j)) == Unit(l, j))
  }

  /** Rows p[0], ..., p[l-1] of column p[j]. */
  ghost function PermutedColumn(c: Mat, p: seq<nat>, l: nat, j: nat): (x: Vec)
    requires IsMat(c, |c|, |c|) && Permutation(p) && |p| == |c| && l <= |c| && j < |c|
    ensures |x| == l && forall i :: 0 <= i < l ==> x[i] == c[p[i]][p[j]]
  {
    seq(l, i requires 0 <= i < l <= |c| == |p| && IsMat(c, |c|, |c|) && Permutation(p) && j < |c| => c[p[i]][p[j]])
  }

  /** Entry (i, j) of the covariance matrix in the order of the factorization. */
  ghost function CovEntry(t: Mat, l: nat, i: nat, j: nat): real
    requires IsMat(t, l, l)
  {
    if i < l && j < l then Dot(t[i], t[j]) else 0.0
  }

  /** What the symmetric matrix holds at a permuted position. */
  lemma EntryOf(t0: Mat, a0: Mat, b: Mat, w: Vec, p: seq<nat>, l: nat, i: nat, j: nat)
    requires Summing(t0, a0, l, l, 0) && Scattered(a0, b, p, l, |a0|, 0) && |w| == |a0| == |t0|
    requires forall c :: 0 <= c < |w| ==> w[p[c]] == Kept(a0, l, c, c)
    requires i < |a0| && j < |a0|
    ensures (if p[i] == p[j] then w[p[i]] else b[Hi(p[i], p[j])][Lo(p[i], p[j])]) == CovEntry(Block(t0, l), l, i, j)
  {
    if i < l && j < l {
      DotCommutes(Block(t0, l)[i], Block(t0, l)[j]);
    }
    var h, c := if i <= j then i else j, if i <= j then j else i;
    assert i != j ==> b[Hi(p[h], p[c])][Lo(p[h], p[c])] == Kept(a0, l, h, c);
  }

  /** The entries of c, at permuted positions, are those of T transpose(T) on the leading block, and zero beyond it. */
  ghost predicate HoldsProducts(c: Mat, p: seq<nat>, t: Mat, l: nat) {
    && IsMat(t, l, l) && l <= |p| == |c| && IsMat(c, |c|, |c|) && Permutation(p)
    && (forall x, y :: 0 <= x < |p| && 0 <= y < |p| ==> c[x][y] == c[y][x])
    && (forall i, j :: 0 <= i < |p| && 0 <= j < |p| ==> c[p[i]][p[j]] == CovEntry(t, l, i, j))
  }

  lemma ProductsInvert(c: Mat, r: Mat, p: seq<nat>, t: Mat, l: nat)
    requires IsMat(r, |r|, |r|) && l <= |r| == |p| && HoldsProducts(c, p, t, l) && Inverts(t, Block(r, l), l)
    ensures IsCovariance(c, r, p, l)
  {
    forall j | 0 <= j < l
      ensures NormalTimes(Block(r, l), PermutedColumn(c, p, l, j)) == Unit(l, j)
    {
      CovarianceInverts(t, Block(r, l), l, j, PermutedColumn(c, p, l, j));
    }
  }

  /** The first three phases: symmetrizing what they leave gives the covariance matrix. */
  method FormCovariance(a: array2<real>, ipvt: seq<int>, tol: real, wa: array<real>) returns (l: nat)
    requires 0 < a.Length0 == a.Length1 == wa.Length && tol >= 0.0
    requires Numbers(true, ipvt, wa.Length) && Permutation(Order(true, ipvt, wa.Length))
    modifies a, wa
    ensures RankAt(old(RowsOf(a)), tol * Abs(old(a[0, 0])), l)
    ensures IsCovariance(SymmetricOf(RowsOf(a), wa[..]), old(RowsOf(a)), Order(true, ipvt, wa.Length), l)
  {
    ghost var r, p := RowsOf(a), Order(true, ipvt, wa.Length);
    var tolr := tol * Abs(a[0, 0]);
    NonnegProduct(tol, Abs(a[0, 0]), tolr);
    l := InvertTriangle(a, tolr);
    ghost var t0 := RowsOf(a);
    FormProducts(a, l);
    ghost var a0 := RowsOf(a);
    Scatter(a, ipvt, l, wa);
    ScatteredProducts(t0, a0, RowsOf(a), wa[..], p, l);
    ProductsInvert(SymmetricOf(RowsOf(a), wa[..]), r, p, Block(t0, l), l);
  }

  lemma ScatteredProducts(t0: Mat, a0: Mat, b: Mat, w: Vec, p: seq<nat>, l: nat)
    requires Summing(t0, a0, l, l, 0) && Scattered(a0, b, p, l, |a0|, 0) && |w| == |a0| == |t0|
    requires forall c :: 0 <= c < |w| ==> w[p[c]] == Kept(a0, l, c, c)
    ensures HoldsProducts(SymmetricOf(b, w), p, Block(t0, l), l)
  {
    forall i, j | 0 <= i < |w| && 0 <= j < |w|
      ensures SymmetricOf(b, w)[p[i]][p[j]] == CovEntry(Block(t0, l), l, i, j)
    {
      EntryOf(t0, a0, b, w, p, l, i, j);
    }
  }

  /** covar: a becomes the covariance matrix of the first l columns, the rest of it zero. */
  method Covar(a: array2<real>, ipvt: seq<int>, tol: real, wa: array<real>) returns (ghost l: nat)
    requires 0 < a.Length0 == a.Length1 == wa.Length && tol >= 0.0
    requires Numbers(true, ipvt, wa.Length) && Permutation(Order(true, ipvt, wa.Length))
    modifies a, wa
    ensures RankAt(old(RowsOf(a)), tol * Abs(old(a[0, 0])), l)
    ensures IsCovariance(RowsOf(a), old(RowsOf(a)), Order(true, ipvt, wa.Length), l)
  {
    var rank := FormCovariance(a, ipvt, tol, wa);
    l := rank;
    Symmetrize(a, wa[..]);
  }

  method ScaleAndMirror(a: array2<real>, j: nat, i: nat, temp: real, ghost v: real)
    requires i < j < a.Length0 == a.Length1 && v == a[j, i] * temp
    modifies a
    ensures a[j, i] == a[i, j] == v
    ensures forall x, y :: 0 <= x < a.Length0 && 0 <= y < a.Length0 && (x != j || y != i) && (x != i || y != j) ==>
              a[x, y] == old(a[x, y])
  {
    a[j, i] := a[j, i] * temp;
    a[i, j] := a[j, i];
  }

  /** The lower triangle is that of h in the rows before j and in the first i entries of row j, otherwise that of b;
      above the diagonal, the columns before j and the first i entries of column j are those of h. */
  ghost predicate Mirrored(now: Mat, b: Mat, h: Mat, j: nat, i: nat) {
    && IsMat(now, |now|, |now|) && IsMat(b, |now|, |now|) && IsMat(h, |now|, |now|)
    && (forall x, y :: 0 <= y < x < |now| ==> now[x][y] == if x < j || (x == j && y < i) then h[x][y] else b[x][y])
    && (forall x, y :: 0 <= x < y < |now| && (y < j || (y == j && x < i)) ==> now[x][y] == h[x][y])
    && (forall x :: 0 <= x < j && x < |now| ==> now[x][x] == h[x][x])
  }

  method ScaleEntry(a: array2<real>, temp: real, j: nat, i: nat, ghost b: Mat, ghost w: Vec, ghost h: Mat)
    requires a.Length0 == a.Length1 == |w| && i < j < |w| && IsMat(b, |w|, |w|)
    requires h == ScaledRows(temp, SymmetricOf(b, w))
    requires Mirrored(RowsOf(a), b, h, j, i)
    modifies a
    ensures Mirrored(RowsOf(a), b, h, j, i + 1)
  {
    ScaledEntry(temp, SymmetricOf(b, w), j, i);
    assert RowsOf(a)[j][i] == a[j, i];
    ScaleAndMirror(a, j, i, temp, h[j][i]);
  }

  method ScaleDiagonal(a: array2<real>, w: Vec, temp: real, j: nat, ghost b: Mat, ghost h: Mat)
    requires a.Length0 == a.Length1 == |w| && j < |w| && IsMat(b, |w|, |w|) && h == ScaledRows(temp, SymmetricOf(b, w))
    requires Mirrored(RowsOf(a), b, h, j, j)
    modifies a
    ensures Mirrored(RowsOf(a), b, h, j + 1, 0)
  {
    ScaledEntry(temp, SymmetricOf(b, w), j, j);
    a[j, j] := temp * w[j];
  }

  /** Phase four of covar1, scaling by temp on the way. */
  method SymmetrizeScaled(a: array2<real>, w: Vec, temp: real)
    requires a.Length0 == a.Length1 == |w|
    modifies a
    ensures RowsOf(a) == ScaledRows(temp, SymmetricOf(old(RowsOf(a)), w))
  {
    ghost var b, g := RowsOf(a), SymmetricOf(RowsOf(a), w);
    for j := 0 to |w|
      invariant Mirrored(RowsOf(a), b, ScaledRows(temp, g), j, 0)
    {
      for i := 0 to j
        invariant Mirrored(RowsOf(a), b, ScaledRows(temp, g), j, i)
      {
        ScaleEntry(a, temp, j, i, b, w, ScaledRows(temp, g));
      }
      ScaleDiagonal(a, w, temp, j, b, ScaledRows(temp, g));
    }
    assert forall x :: 0 <= x < |w| ==> RowsOf(a)[x] == ScaledRows(temp, g)[x];
  }

  ghost function ScaledRows(c: real, g: Mat): (h: Mat)
    requires IsMat(g, |g|, |g|)
    ensures IsMat(h, |g|, |g|) && forall x :: 0 <= x < |g| ==> h[x] == Scale(c, g[x])
  {
    seq(|g|, x requires 0 <= x < |g| => Scale(c, g[x]))
  }

  lemma ScaledEntry(c: real, g: Mat, j: nat, i: nat)
    requires IsMat(g, |g|, |g|) && i < |g| && j < |g| && g[i][j] == g[j][i]
    ensures ScaledRows(c, g)[j][i] == ScaledRows(c, g)[i][j] == g[j][i] * c
  {
  }

  /** covar1: covar's matrix times fsumsq / (m - l), and the rank l, reported as 0 when it is full. The division is
      undefined exactly when m = l. */
  method Covar1(m: int, fsumsq: real, a: array2<real>, ipvt: seq<int>, tol: real, wa: array<real>)
    returns (info: nat, defined: bool, ghost l: nat, ghost c: Mat)
    requires 0 < a.Length0 == a.Length1 == wa.Length && tol >= 0.0
    requires Numbers(true, ipvt, wa.Length) && Permutation(Order(true, ipvt, wa.Length))
    modifies a, wa
    ensures RankAt(old(RowsOf(a)), tol * Abs(old(a[0, 0])), l)
    ensures info == if l == wa.Length then 0 else l
    ensures defined <==> m != l
    ensures IsCovariance(c, old(RowsOf(a)), Order(true, ipvt, wa.Length), l)
    ensures defined ==> RowsOf(a) == ScaledRows(fsumsq / (m - l) as real, c)
  {
    var rank := FormCovariance(a, ipvt, tol, wa);
    l, c := rank, SymmetricOf(RowsOf(a), wa[..]);
    info, defined := if rank == wa.Length then 0 else rank, m != rank;
    if defined {
      SymmetrizeScaled(a, wa[..], fsumsq / (m - rank) as real);
    }
  }

  /** There is one covariance matrix: the block fixes it, and the rest is zero. */
  lemma CovarianceUnique(c: Mat, d: Mat, r: Mat, p: seq<nat>, l: nat, t: Mat, i: nat, j: nat)
    requires IsCovariance(c, r, p, l) && IsCovariance(d, r, p, l) && Inverts(t, Block(r, l), l) && i < |r| && j < |r|
    ensures c[p[i]][p[j]] == d[p[i]][p[j]]
  {
    if i < l && j < l {
      NormalInjective(t, Block(r, l), l, PermutedColumn(c, p, l, j), PermutedColumn(d, p, l, j));
      assert PermutedColumn(c, p, l, j)[i] == PermutedColumn(d, p, l, j)[i];
    }
  }
}
