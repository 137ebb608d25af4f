/** Applying stored reflections in place, and qform: accumulating them into the orthogonal factor. */
module Qform {
  import opened Reals
  import opened Vectors
  import opened Arrays
  import opened Reflectors

  function MinNat(a: nat, b: nat): nat {
    if a <= b then a else b
  }

  /** The reflections stored on and below the diagonal of the first mn columns of a matrix. */
  function Factored(cols: Mat, mn: nat): (us: Mat)
    requires mn <= |cols|
    ensures |us| == mn
    ensures forall k :: 0 <= k < mn ==> us[k] == Below(cols[k], k)
  {
    seq(mn, k requires 0 <= k < mn <= |cols| => Below(cols[k], k))
  }

  /** <u, x> for column c, over the rows from k on. */
  method ColumnDot(a: array2<real>, c: nat, k: nat, u: Vec) returns (sum: real)
    requires c < a.Length1 && k <= a.Length0 == |u|
    ensures sum == Dot(Below(u, k), ColOf(a, c))
  {
    ghost var x := ColOf(a, c);
    ghost var v := Below(u, k);
    sum := 0.0;
    for i := k to a.Length0
      invariant sum == DotR(v, x, k, i)
    {
      sum := sum + a[i, c] * u[i];
    }
    DotSuffix(v, x, k);
  }

  /** Adds t u to column c, over the rows from k on. */
  method ColumnAxpy(a: array2<real>, c: nat, k: nat, t: real, u: Vec)
    requires c < a.Length1 && k <= a.Length0 == |u|
    modifies a
    ensures ColsOf(a) == old(ColsOf(a))[c := Axpy(t, Below(u, k), old(ColOf(a, c)))]
  {
    ghost var m := a.Length0;
    ghost var y := Axpy(t, Below(u, k), ColOf(a, c));
    for i := k to a.Length0
      invariant forall l :: 0 <= l < i ==> a[l, c] == y[l]
      invariant forall l :: i <= l < m ==> a[l, c] == old(a[l, c])
      invariant forall l, j :: 0 <= l < m && 0 <= j < a.Length1 && j != c ==> a[l, j] == old(a[l, j])
    {
      a[i, c] := a[i, c] + t * u[i];
    }
    assert ColOf(a, c) == y;
    forall j | 0 <= j < a.Length1 && j != c
      ensures ColOf(a, j) == old(ColOf(a, j))
    {
    }
  }

  /** Applies the reflection stored in components k, k + 1, ... of u to column c of a. */
  method ReflectColumn(a: array2<real>, c: nat, k: nat, u: Vec)
    requires c < a.Length1 && k < a.Length0 == |u| && u[k] != 0.0
    modifies a
    ensures ColsOf(a) == old(ColsOf(a))[c := Reflect(Below(u, k), k, old(ColOf(a, c)))]
  {
    var sum := ColumnDot(a, c, k, u);
    var temp := sum / u[k];
    NegatedQuotient(sum, u[k]);
    ColumnAxpy(a, c, k, -temp, u);
  }

  method VectorDot(x: array<real>, k: nat, u: Vec) returns (sum: real)
    requires k <= x.Length == |u|
    ensures sum == Dot(Below(u, k), x[..])
  {
    sum := 0.0;
    for i := k to x.Length
      invariant sum == DotR(Below(u, k), x[..], k, i)
    {
      sum := sum + u[i] * x[i];
    }
    DotSuffix(Below(u, k), x[..], k);
  }

  method VectorAxpy(x: array<real>, k: nat, t: real, u: Vec)
    requires k <= x.Length == |u|
    modifies x
    ensures x[..] == Axpy(t, Below(u, k), old(x[..]))
  {
    ghost var y := Axpy(t, Below(u, k), x[..]);
    for i := k to x.Length
      invariant forall l :: 0 <= l < i ==> x[l] == y[l]
      invariant forall l :: i <= l < x.Length ==> x[l] == old(x[l])
    {
      x[i] := x[i] + u[i] * t;
    }
  }

  method ReflectVector(x: array<real>, k: nat, u: Vec)
    requires k < x.Length == |u|
    modifies x
    ensures x[..] == Reflect(Below(u, k), k, old(x[..]))
  {
    if u[k] != 0.0 {
      var sum := VectorDot(x, k, u);
      VectorAxpy(x, k, -sum / u[k], u);
    }
  }

  /** Applies the n reflections stored in a to x, first to last: transpose(Q) x. */
  method ApplyForward(a: array2<real>, n: nat, x: array<real>)
    requires n <= a.Length1 && n <= a.Length0 == x.Length
    modifies x
    ensures x[..] == Forward(Factored(ColsOf(a), n), n, old(x[..]))
  {
    ghost var us := Factored(ColsOf(a), n);
    for j := 0 to n
      invariant x[..] == Forward(us, j, old(x[..]))
    {
      ReflectVector(x, j, ColOf(a, j));
    }
  }

  /** Overwrites q, which holds min(m, n) stored reflections, by the m by m product H_1 H_2 ... H_min(m,n). */
  method Qform(m: nat, n: nat, q: array2<real>, wa: array<real>)
    requires q.Length0 == q.Length1 == m == wa.Length
    modifies q, wa
    ensures forall j :: 0 <= j < m ==> ColsOf(q)[j] == Backward(old(Factored(ColsOf(q), MinNat(m, n))), 0, Unit(m, j))
  {
    var minmn := MinNat(m, n);
    ghost var us := Factored(ColsOf(q), minmn);
    ClearUpper(m, n, q);
    for k := minmn downto 0
      invariant Accumulated(ColsOf(q), us, m, k)
    {
      AccumulateReflector(m, q, k, wa, us);
    }
  }

  method AccumulateReflector(m: nat, q: array2<real>, k: nat, wa: array<real>, ghost us: Mat)
    requires q.Length0 == q.Length1 == m == wa.Length && Accumulated(ColsOf(q), us, m, k + 1)
    modifies q, wa
    ensures Accumulated(ColsOf(q), us, m, k)
  {
    TakeReflector(m, q, k, wa);
    BackwardFixes(us, m, k + 1, k);
    if wa[k] != 0.0 {
      ReflectFrom(m, q, k, wa[..], us);
    } else {
      PivotZero(ColsOf(q), us, m, k);
    }
  }

  lemma PivotZero(cols: Mat, us: Mat, m: nat, k: nat)
    requires IsMat(cols, m, m) && Stored(us, m) && k < |us| && us[k][k] == 0.0
    requires forall j :: 0 <= j < k ==> cols[j] == us[j]
    requires forall j :: k <= j < m ==> cols[j] == Backward(us, k + 1, Unit(m, j))
    ensures Accumulated(cols, us, m, k)
  {
  }

  /** Columns k, k + 1, ... hold the product of reflections k, k + 1, ...; the columns before still hold reflections. */
  ghost predicate Accumulated(cols: Mat, us: Mat, m: nat, k: nat) {
    && IsMat(cols, m, m) && Stored(us, m) && k <= |us|
    && (forall j :: 0 <= j < k ==> cols[j] == us[j])
    && (forall j :: k <= j < m ==> cols[j] == Backward(us, k, Unit(m, j)))
  }

  method ReflectFrom(m: nat, q: array2<real>, k: nat, u: Vec, ghost us: Mat)
    requires q.Length0 == q.Length1 == m == |u| && Stored(us, m) && k < |us| && Below(u, k) == us[k] && u[k] != 0.0
    requires forall j :: 0 <= j < k ==> ColsOf(q)[j] == us[j]
    requires forall j :: k <= j < m ==> ColsOf(q)[j] == Backward(us, k + 1, Unit(m, j))
    modifies q
    ensures Accumulated(ColsOf(q), us, m, k)
  {
    for j := k to m
      invariant forall c :: 0 <= c < k ==> ColsOf(q)[c] == us[c]
      invariant forall c :: k <= c < j ==> ColsOf(q)[c] == Backward(us, k, Unit(m, c))
      invariant forall c :: j <= c < m ==> ColsOf(q)[c] == Backward(us, k + 1, Unit(m, c))
    {
      ReflectColumn(q, j, k, u);
    }
  }

  /** Clears the strict upper triangle of the first min(m, n) columns and makes the others unit vectors. */
  method ClearUpper(m: nat, n: nat, q: array2<real>)
    requires q.Length0 == q.Length1 == m
    modifies q
    ensures forall j :: 0 <= j < MinNat(m, n) ==> ColsOf(q)[j] == Below(old(ColsOf(q))[j], j)
    ensures forall j :: n <= j < m ==> ColsOf(q)[j] == Unit(m, j)
  {
    var minmn := MinNat(m, n);
    ghost var cols := ColsOf(q);
    assert m > 0 ==> Below(cols[0], 0) == cols[0];
    if minmn >= 2 {
      for j := 1 to minmn
        invariant forall c :: 0 <= c < j ==> ColsOf(q)[c] == Below(cols[c], c)
        invariant forall c :: j <= c < m ==> ColsOf(q)[c] == cols[c]
      {
        FillTop(q, j, j);
      }
    }
    if m >= n + 1 {
      for j := n to m
        invariant forall c :: 0 <= c < minmn ==> ColsOf(q)[c] == Below(cols[c], c)
        invariant forall c :: n <= c < j ==> ColsOf(q)[c] == Unit(m, c)
      {
        FillTop(q, j, m);
        SetEntry(q, j, j, 1.0);
        assert ColsOf(q)[j] == Unit(m, j);
      }
    }
  }

  /** Clears the first k entries of column j. */
  method FillTop(q: array2<real>, j: nat, k: nat)
    requires j < q.Length1 && k <= q.Length0
    modifies q
    ensures ColsOf(q) == old(ColsOf(q))[j := Below(old(ColOf(q, j)), k)]
  {
    for i := 0 to k
      invariant forall l :: 0 <= l < i ==> q[l, j] == 0.0
      invariant forall l :: i <= l < q.Length0 ==> q[l, j] == old(q[l, j])
      invariant forall l, c :: 0 <= l < q.Length0 && 0 <= c < q.Length1 && c != j ==> q[l, c] == old(q[l, c])
    {
      q[i, j] := 0.0;
    }
    assert ColOf(q, j) == Below(old(ColOf(q, j)), k);
    forall c | 0 <= c < q.Length1 && c != j
      ensures ColOf(q, c) == old(ColOf(q, c))
    {
    }
  }

  method SetEntry(q: array2<real>, i: nat, j: nat, t: real)
    requires i < q.Length0 && j < q.Length1
    modifies q
    ensures ColsOf(q) == old(ColsOf(q))[j := old(ColOf(q, j))[i := t]]
  {
    q[i, j] := t;
    assert ColOf(q, j) == old(ColOf(q, j))[i := t];
    forall c | 0 <= c < q.Length1 && c != j
      ensures ColOf(q, c) == old(ColOf(q, c))
    {
    }
  }

  /** Moves the reflection stored in column k to wa and makes the column a unit vector. */
  method TakeReflector(m: nat, q: array2<real>, k: nat, wa: array<real>)
    requires q.Length0 == q.Length1 == m == wa.Length && k < m
    requires Below(ColOf(q, k), k) == ColOf(q, k)
    modifies q, wa
    ensures ColsOf(q) == old(ColsOf(q))[k := Unit(m, k)]
    ensures Below(wa[..], k) == old(ColOf(q, k))
  {
    for i := k to m
      invariant forall l :: 0 <= l < k ==> q[l, k] == 0.0
      invariant forall l :: k <= l < i ==> q[l, k] == 0.0 && wa[l] == old(q[l, k])
      invariant forall l :: i <= l < m ==> q[l, k] == old(q[l, k])
      invariant forall l, j :: 0 <= l < m && 0 <= j < m && j != k ==> q[l, j] == old(q[l, j])
    {
      wa[i] := q[i, k];
      q[i, k] := 0.0;
    }
    q[k, k] := 1.0;
    assert ColOf(q, k) == Unit(m, k);
    forall j | 0 <= j < m && j != k
      ensures ColOf(q, j) == old(ColOf(q, j))
    {
    }
  }
}
