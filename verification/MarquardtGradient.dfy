/** The Jacobian factored in place, transpose(Q) f, and the norm of the scaled gradient. */
module MarquardtGradient {
  import opened Reals
  import opened Vectors
  import opened Machines
  import opened Arrays
  import opened Reflectors
  import opened Householder
  import opened Qform
  import opened Qrfac
  import opened Qrsolv
  import opened Permutations
  import opened Lmpar
  import opened LeastSquares
  import opened MarquardtStep
  import opened Marquardt

  // ---- the factor in the array ----

  /** The array after qrfac with the diagonal of the factor stored in the first j columns. */
  ghost predicate DiagonalStored(cols: Mat, now: Mat, d: Vec, j: nat) {
    && |now| == |cols| == |d| && j <= |d|
    && forall c :: 0 <= c < |cols| ==> |cols[c]| > c && now[c] == if c < j then cols[c][c := d[c]] else cols[c]
  }

  /** The reduced columns are the triangular factor. */
  lemma FactorStored(cols: Mat, now: Mat, d: Vec, j0: Mat, p: seq<nat>, n: nat, m: nat)
    requires n <= m && |j0| == n && Factorization(cols, d, j0, p, m) && DiagonalStored(cols, now, d, n)
    ensures PivotedFactor(j0, Stack(cols, n), Factor(now, n), p, n, m)
  {
    hide Factor, TriColumn, Forward, IsColumn;
    var us := Stack(cols, n);
    forall c | 0 <= c < n
      ensures IsColumn(Forward(us, n, j0[p[c]]), Factor(now, n), c, n)
    {
      ReducedColumn(cols, us, j0, p, d, m, c);
      FactorColumn(cols, now, d, n, m, c);
    }
  }

  lemma ReducedColumn(cols: Mat, us: Mat, j0: Mat, p: seq<nat>, d: Vec, m: nat, c: nat)
    requires Reduced(cols, us, j0, p, d, m) && c < |us|
    ensures Forward(us, |us|, j0[p[c]]) == TriColumn(cols[c], c, d[c])
  {
  }

  /** With pivoting the rank of the factor shows on its diagonal. */
  lemma RankShows(cols: Mat, now: Mat, d: Vec, n: nat, m: nat)
    requires DiagonalStored(cols, now, d, n) && n == |cols| <= m && IsMat(cols, n, m)
    requires DiagonalFalls(d, n) && RowsBounded(cols, d, n)
    ensures ZeroRest(Factor(now, n))
  {
    var r := Factor(now, n);
    forall i, h, c | 0 <= i <= h < n && 0 <= c < n && r[i][i] == 0.0
      ensures r[h][c] == 0.0
    {
      assert d[i] == 0.0;
      assert d[h] == 0.0;
      if h < c {
        assert EntryBounded(cols[c], d, h);
      }
    }
  }

  lemma FactorColumn(cols: Mat, now: Mat, d: Vec, n: nat, m: nat, c: nat)
    requires DiagonalStored(cols, now, d, n) && n == |cols| <= m && IsMat(cols, n, m) && c < n
    ensures IsColumn(TriColumn(cols[c], c, d[c]), Factor(now, n), c, n)
  {
  }

  /** The reflections qrfac stored. */
  ghost function Stack(cols: Mat, n: nat): (us: Mat)
    requires n <= |cols|
  {
    Qform.Factored(cols, n)
  }

  /** Later reflections leave the first components alone. */
  lemma {:induction false} TopFixed(us: Mat, x: Vec, i: nat, k: nat)
    requires i < k <= |us| <= |x| && Stored(us, |x|)
    ensures Forward(us, k, x)[i] == Forward(us, i + 1, x)[i]
    decreases k
  {
    if k > i + 1 {
      TopFixed(us, x, i, k - 1);
      TopKept(us[k - 1], k - 1, Forward(us, k - 1, x));
    }
  }

  /** One column: reflect wa4, store the diagonal entry of the factor and a component of transpose(Q) f. */
  method ApplyColumn(k: Work, j: nat, ghost cols: Mat, ghost f: Vec) returns (j': nat)
    requires k.Shapes() && j < k.n && |cols| == k.n && IsMat(cols, k.n, k.m) && |f| == k.m
    requires DiagonalStored(cols, ColsOf(k.fjac), k.wa1[..], j) && k.wa4[..] == Forward(Stack(cols, k.n), j, f)
    requires forall i :: 0 <= i < j ==> k.qtf[i] == Forward(Stack(cols, k.n), i + 1, f)[i]
    modifies k.fjac, k.qtf, k.wa4
    ensures j' == j + 1 && DiagonalStored(cols, ColsOf(k.fjac), k.wa1[..], j')
    ensures k.wa4[..] == Forward(Stack(cols, k.n), j', f)
    ensures forall i :: 0 <= i < j' ==> k.qtf[i] == Forward(Stack(cols, k.n), i + 1, f)[i]
  {
    ghost var now := ColsOf(k.fjac);
    NextReflection(cols, k.n, j, f);
    DiagonalStep(cols, now, k.wa1[..], j);
    ReflectVector(k.wa4, j, ColOf(k.fjac, j));
    StoreDiagonal(k.fjac, j, k.wa1[j]);
    k.qtf[j] := k.wa4[j];
    j' := j + 1;
  }

  lemma NextReflection(cols: Mat, n: nat, j: nat, f: Vec)
    requires n == |cols| <= |f| && IsMat(cols, n, |f|) && j < n
    ensures Forward(Stack(cols, n), j + 1, f) == Reflect(Below(cols[j], j), j, Forward(Stack(cols, n), j, f))
  {
  }

  lemma DiagonalStep(cols: Mat, now: Mat, d: Vec, j: nat)
    requires DiagonalStored(cols, now, d, j) && j < |d|
    ensures now[j] == cols[j] && DiagonalStored(cols, now[j := now[j][j := d[j]]], d, j + 1)
  {
  }

  method StoreDiagonal(a: array2<real>, j: nat, t: real)
    requires j < a.Length1 && j < a.Length0
    modifies a
    ensures ColsOf(a) == old(ColsOf(a))[j := old(ColsOf(a))[j][j := t]]
  {
    ghost var cols := ColsOf(a);
    a[j, j] := t;
    assert ColOf(a, j) == cols[j][j := t];
    forall c | 0 <= c < a.Length1 && c != j
      ensures ColOf(a, c) == cols[c]
    {
    }
  }

  /** All columns: transpose(Q) f in wa4. */
  method ApplyColumns(k: Work, ghost cols: Mat, ghost f: Vec)
    requires k.Shapes() && |cols| == k.n && IsMat(cols, k.n, k.m) && |f| == k.m
    requires ColsOf(k.fjac) == cols && k.wa4[..] == f
    modifies k.fjac, k.qtf, k.wa4
    ensures DiagonalStored(cols, ColsOf(k.fjac), k.wa1[..], k.n)
    ensures forall i :: 0 <= i < k.n ==> k.qtf[i] == Forward(Stack(cols, k.n), i + 1, f)[i]
  {
    var j := 0;
    while j < k.n
      invariant j <= k.n && DiagonalStored(cols, ColsOf(k.fjac), k.wa1[..], j)
      invariant k.wa4[..] == Forward(Stack(cols, k.n), j, f)
      invariant forall i :: 0 <= i < j ==> k.qtf[i] == Forward(Stack(cols, k.n), i + 1, f)[i]
    {
      j := ApplyColumn(k, j, cols, f);
    }
  }

  /** transpose(Q) f in wa4, its first n components in qtf; the factor complete in fjac. */
  method FormQtf(k: Work, ghost j0: Mat)
    requires k.Shapes() && |j0| == k.n && Numbers(true, k.ipvt[..], k.n)
    requires Factorization(ColsOf(k.fjac), k.wa1[..], j0, Order(true, k.ipvt[..], k.n), k.m)
    requires DiagonalFalls(k.wa1[..], k.n) && RowsBounded(ColsOf(k.fjac), k.wa1[..], k.n)
    modifies k.fjac, k.qtf, k.wa4
    ensures Marquardt.Factored(k, j0, k.fvec[..])
    ensures GradientHeld(k, j0, k.fvec[..])
  {
    ghost var cols, d, f := ColsOf(k.fjac), k.wa1[..], k.fvec[..];
    CopyVector(k.fvec[..], k.wa4);
    ApplyColumns(k, cols, f);
    QtfFormed(cols, ColsOf(k.fjac), d, j0, Order(true, k.ipvt[..], k.n), f, k.qtf[..], k.n, k.m);
    RankShows(cols, ColsOf(k.fjac), d, k.n, k.m);
  }

  lemma QtfFormed(cols: Mat, now: Mat, d: Vec, j0: Mat, p: seq<nat>, f: Vec, qtf: Vec, n: nat, m: nat)
    requires n <= m && |j0| == n && Factorization(cols, d, j0, p, m) && DiagonalStored(cols, now, d, n) && |f| == m
    requires |qtf| == n
    requires forall i :: 0 <= i < n ==> qtf[i] == Forward(Stack(cols, n), i + 1, f)[i]
    ensures Represents(j0, f, Factor(now, n), qtf, p, n, m) && GradientIn(j0, f, qtf, now, p, n)
  {
    FactorStored(cols, now, d, j0, p, n, m);
    QtfIsTop(Stack(cols, n), f, qtf, n);
    FactorRepresents(j0, Stack(cols, n), Factor(now, n), p, n, m, f, qtf);
    HoldGradient(j0, Stack(cols, n), now, p, n, m, f, qtf);
  }

  lemma QtfIsTop(us: Mat, f: Vec, qtf: Vec, n: nat)
    requires |us| == |qtf| == n <= |f| && Stored(us, |f|)
    requires forall i :: 0 <= i < n ==> qtf[i] == Forward(us, i + 1, f)[i]
    ensures qtf == Top(Forward(us, n, f), n)
  {
    forall i | 0 <= i < n
      ensures qtf[i] == Forward(us, n, f)[i]
    {
      TopFixed(us, f, i, n);
    }
  }

  /** The products of the columns with f are those of the factor's columns with qtf. */
  ghost predicate GradientIn(j0: Mat, f: Vec, qtf: Vec, cols: Mat, ord: seq<nat>, n: nat) {
    && IsMat(j0, n, |f|) && |ord| == |qtf| == |cols| == n && Permutation(ord)
    && (forall c :: 0 <= c < n ==> |cols[c]| >= n)
    && forall c :: 0 <= c < n ==> Dot(j0[ord[c]], f) == DotR(qtf, cols[c], 0, c + 1)
  }

  ghost predicate GradientHeld(k: Work, j0: Mat, f: Vec)
    requires k.Shapes() && Numbers(true, k.ipvt[..], k.n)
    reads k.qtf, k.fjac, k.ipvt
  {
    |f| == k.m && GradientIn(j0, f, k.qtf[..], ColsOf(k.fjac), Order(true, k.ipvt[..], k.n), k.n)
  }

  lemma HoldGradient(j0: Mat, us: Mat, cols: Mat, ord: seq<nat>, n: nat, m: nat, f: Vec, qtf: Vec)
    requires |cols| == n && (forall c :: 0 <= c < n ==> |cols[c]| >= n) && |f| == m
    requires PivotedFactor(j0, us, Factor(cols, n), ord, n, m) && qtf == Top(Forward(us, n, f), n)
    ensures GradientIn(j0, f, qtf, cols, ord, n)
  {
    var r := Factor(cols, n);
    forall c | 0 <= c < n
      ensures Dot(j0[ord[c]], f) == DotR(qtf, cols[c], 0, c + 1)
    {
      GradientEntry(j0, us, r, ord, n, m, f, c);
      DotRSplit(qtf, Col(r, c), 0, c + 1, n);
      DotRZero(qtf, Col(r, c), c + 1, n);
      DotREqual(qtf, Col(r, c), qtf, cols[c], 0, c + 1);
    }
  }

  // ---- the norm of the scaled gradient ----

  /** The cosine of the angle between a column a and f, up to sign, from the factor's column. */
  method ColumnCosine(mach: Machine, r: array2<real>, j: nat, qtf: Vec, fnorm: real, anorm: real, ghost a: Vec,
                      ghost f: Vec)
    returns (t: real)
    requires mach.Valid() && j < r.Length1 && j < r.Length0 && j < |qtf| && |a| == |f|
    requires fnorm == mach.Norm(f) > 0.0 && anorm == mach.Norm(a) > 0.0 && Dot(a, f) == DotR(qtf, ColOf(r, j), 0, j + 1)
    ensures t >= 0.0 && CosineIs(mach, a, f, t)
  {
    var sum := 0.0;
    for i := 0 to j + 1
      invariant sum * fnorm == DotR(qtf, ColOf(r, j), 0, i)
    {
      sum := AddScaled(sum, r[i, j], qtf[i], fnorm, DotR(qtf, ColOf(r, j), 0, i));
    }
    t := Abs(sum / anorm);
    CosineScaled(sum, anorm, fnorm, t, Dot(a, f), mach.Norm(a) * mach.Norm(f));
  }

  method AddScaled(sum: real, a: real, b: real, fnorm: real, ghost q: real) returns (s: real)
    requires fnorm > 0.0 && sum * fnorm == q
    ensures s * fnorm == q + b * a
  {
    var t := b / fnorm;
    s := sum + a * t;
    assert t * fnorm == b;
    AddedProduct(sum, a, t, fnorm, q, b, s);
  }

  lemma AddedProduct(sum: real, a: real, t: real, k: real, q: real, b: real, s: real)
    requires sum * k == q && t * k == b && s == sum + a * t
    ensures s * k == q + b * a
  {
    assert (a * t) * k == (t * k) * a;
  }

  lemma CosineScaled(sum: real, anorm: real, fnorm: real, t: real, v: real, k: real)
    requires anorm > 0.0 && fnorm > 0.0 && sum * fnorm == v && t == Abs(sum / anorm) && k == anorm * fnorm
    ensures k > 0.0 && Abs(v) == t * k && t >= 0.0
  {
    PositiveProduct(anorm, fnorm, k);
    var q := sum / anorm;
    assert q * anorm == sum;
    CosineProduct(q, anorm, fnorm, sum, v, k);
    if q >= 0.0 {
      NonnegProduct(q, k, v);
    } else {
      PositiveProduct(-q, k, -v);
    }
  }

  lemma CosineProduct(q: real, anorm: real, fnorm: real, sum: real, v: real, k: real)
    requires q * anorm == sum && sum * fnorm == v && k == anorm * fnorm
    ensures v == q * k
  {
    assert q * (anorm * fnorm) == (q * anorm) * fnorm;
  }

  /** A column of norm zero has no product with f. */
  lemma ZeroColumnCosine(mach: Machine, a: Vec, f: Vec, g: real)
    requires mach.Valid() && |a| == |f| && mach.Norm(a) == 0.0
    ensures CosineAtMost(mach, a, f, g)
  {
    NormZero(mach, a);
    DotRZero(a, f, 0, |f|);
  }

  lemma LargerBound(mach: Machine, a: Vec, f: Vec, g: real, g': real)
    requires mach.Valid() && |a| == |f| && g <= g' && (CosineAtMost(mach, a, f, g) || CosineIs(mach, a, f, g))
    ensures CosineAtMost(mach, a, f, g')
  {
    var k := mach.Norm(a) * mach.Norm(f);
    NonnegProduct(mach.Norm(a), mach.Norm(f), k);
    NonnegProduct(g' - g, k, (g' - g) * k);
  }

  /** The first j columns in the order of the factorization have cosines of at most g, and one of them attains it. */
  ghost predicate CosinesTo(mach: Machine, j0: Mat, f: Vec, ord: seq<nat>, j: nat, g: real)
    requires mach.Valid() && IsMat(j0, |j0|, |f|) && Permutation(ord) && |ord| == |j0| && j <= |j0|
  {
    && g >= 0.0 && (forall c :: 0 <= c < j ==> CosineAtMost(mach, j0[ord[c]], f, g))
    && (g == 0.0 || exists c :: 0 <= c < |j0| && CosineIs(mach, j0[c], f, g))
  }

  method NextCosine(mach: Machine, k: Work, fnorm: real, j: nat, g0: real, ghost j0: Mat, ghost f: Vec)
    returns (j': nat, g: real)
    requires mach.Valid() && k.Shapes() && Numbers(true, k.ipvt[..], k.n) && GradientHeld(k, j0, f)
    requires fnorm == mach.Norm(f) > 0.0
    requires (forall c :: 0 <= c < k.n ==> k.wa2[c] == mach.Norm(j0[c])) && j < k.n
    requires CosinesTo(mach, j0, f, Order(true, k.ipvt[..], k.n), j, g0)
    ensures j' == j + 1 && CosinesTo(mach, j0, f, Order(true, k.ipvt[..], k.n), j', g)
  {
    ghost var ord := Order(true, k.ipvt[..], k.n);
    var l := k.ipvt[j] - 1;
    g, j' := g0, j + 1;
    if k.wa2[l] != 0.0 {
      assert ColsOf(k.fjac)[j] == ColOf(k.fjac, j);
      var t := ColumnCosine(mach, k.fjac, j, k.qtf[..], fnorm, k.wa2[l], j0[ord[j]], f);
      g := Max(g0, t);
      LargerBound(mach, j0[ord[j]], f, t, g);
      forall c | 0 <= c < j
        ensures CosineAtMost(mach, j0[ord[c]], f, g)
      {
        LargerBound(mach, j0[ord[c]], f, g0, g);
      }
    } else {
      ZeroColumnCosine(mach, j0[ord[j]], f, g);
    }
  }

  method GradientNorm(mach: Machine, k: Work, fnorm: real, ghost j0: Mat, ghost f: Vec) returns (gnorm: real)
    requires mach.Valid() && k.Shapes() && Numbers(true, k.ipvt[..], k.n) && GradientHeld(k, j0, f)
    requires fnorm == mach.Norm(f)
    requires forall c :: 0 <= c < k.n ==> k.wa2[c] == mach.Norm(j0[c])
    ensures LargestCosine(mach, j0, f, gnorm)
  {
    gnorm := 0.0;
    if fnorm != 0.0 {
      var j := 0;
      while j < k.n
        invariant j <= k.n && CosinesTo(mach, j0, f, Order(true, k.ipvt[..], k.n), j, gnorm)
      {
        j, gnorm := NextCosine(mach, k, fnorm, j, gnorm, j0, f);
      }
      AllColumns(mach, j0, f, Order(true, k.ipvt[..], k.n), gnorm);
    }
  }

  lemma AllColumns(mach: Machine, j0: Mat, f: Vec, ord: seq<nat>, g: real)
    requires mach.Valid() && IsMat(j0, |j0|, |f|) && Permutation(ord) && |ord| == |j0|
    requires CosinesTo(mach, j0, f, ord, |j0|, g)
    requires mach.Norm(f) > 0.0
    ensures LargestCosine(mach, j0, f, g)
  {
    forall c | 0 <= c < |j0|
      ensures CosineAtMost(mach, j0[c], f, g)
    {
      var j := Onto(ord, c);
      assert CosineAtMost(mach, j0[ord[j]], f, g);
    }
  }
}
