/** qrsolv: completes the factorization of R with the rows of a diagonal matrix D below it, and solves the augmented
    least-squares problem. */
module Qrsolv {
  import opened Reals
  import opened Vectors
  import opened Machines
  import opened Arrays
  import opened Rotations
  import opened Reflectors
  import opened Dogleg
  import opened Qrfac

  // ---- the normal equations of rows under rotation ----

  /** Rows s with right sides w, and one more row d with right side q. */
  datatype Rows = Rows(s: Mat, w: Vec, d: Vec, q: real) {
    ghost predicate Valid(n: nat) {
      IsMat(s, n, n) && |w| == n && |d| == n
    }

    /** The matrix of the normal equations. */
    ghost function Gram(n: nat): (g: Mat)
      requires Valid(n)
      ensures IsMat(g, n, n)
      ensures forall i, j :: 0 <= i < n && 0 <= j < n ==> g[i][j] == Dot(Col(s, i), Col(s, j)) + d[i] * d[j]
    {
      seq(n, i requires 0 <= i < n && Valid(n) =>
        seq(n, j requires 0 <= j < n && 0 <= i < n && Valid(n) => Dot(Col(s, i), Col(s, j)) + d[i] * d[j]))
    }

    /** Their right side. */
    ghost function Rhs(n: nat): (b: Vec)
      requires Valid(n)
      ensures |b| == n && forall i :: 0 <= i < n ==> b[i] == Dot(Col(s, i), w) + d[i] * q
    {
      seq(n, i requires 0 <= i < n && Valid(n) => Dot(Col(s, i), w) + d[i] * q)
    }
  }

  /** a and b have the same normal equations. */
  ghost predicate SameNormal(a: Rows, b: Rows, n: nat) {
    a.Valid(n) && b.Valid(n) && a.Gram(n) == b.Gram(n) && a.Rhs(n) == b.Rhs(n)
  }

  /** The first and the second row after a rotation. */
  function Turned(c: real, s: real, u: real, v: real): real {
    c * u + s * v
  }

  /** Row k of s and the extra row turned by the rotation with these sides. */
  function TurnRows(a: Rows, k: nat, c: real, s: real): (b: Rows)
    requires k < |a.s| == |a.w| && |a.s[k]| == |a.d|
  {
    Rows(a.s[k := Axpy(s, a.d, Scale(c, a.s[k]))], a.w[k := Turned(c, s, a.w[k], a.q)],
         Axpy(c, a.d, Scale(-s, a.s[k])), Turned(-s, c, a.w[k], a.q))
  }

  /** A rotation keeps u u' + v v'. */
  lemma TurnedProducts(c: real, s: real, u: real, v: real, u': real, v': real)
    requires c * c + s * s == 1.0
    ensures Turned(c, s, u, v) * Turned(c, s, u', v') + Turned(-s, c, u, v) * Turned(-s, c, u', v') == u * u' + v * v'
  {
    var a, b, d, e := u * u', u * v', v * u', v * v';
    var cc, cs, ss := c * c, c * s, s * s;
    assert Turned(c, s, u, v) * Turned(c, s, u', v') == cc * a + cs * b + cs * d + ss * e by {
      ProductOfTurned(c, s, u, v, u', v', a, b, d, e, cc, cs, ss);
    }
    assert Turned(-s, c, u, v) * Turned(-s, c, u', v') == ss * a - cs * b - cs * d + cc * e by {
      ProductOfTurned(-s, c, u, v, u', v', a, b, d, e, ss, -cs, cc);
    }
    OneSplit(cc, ss, a);
    OneSplit(cc, ss, e);
  }

  lemma ProductOfTurned(c: real, s: real, u: real, v: real, u': real, v': real, a: real, b: real, d: real, e: real,
                        cc: real, cs: real, ss: real)
    requires a == u * u' && b == u * v' && d == v * u' && e == v * v' && cc == c * c && cs == c * s && ss == s * s
    ensures Turned(c, s, u, v) * Turned(c, s, u', v') == cc * a + cs * b + cs * d + ss * e
  {
    var p, q, p', q' := c * u, s * v, c * u', s * v';
    Regroup(c, u, c, u', p, p', cc, a);
    Regroup(c, u, s, v', p, q', cs, b);
    Regroup(s, v, c, u', q, p', cs, d);
    Regroup(s, v, s, v', q, q', ss, e);
    Distribute(p, q, p', q', Turned(c, s, u, v), Turned(c, s, u', v'));
  }

  lemma Regroup(x: real, y: real, z: real, t: real, p: real, r: real, xz: real, yt: real)
    requires p == x * y && r == z * t && xz == x * z && yt == y * t
    ensures p * r == xz * yt
  {
  }

  lemma Distribute(p: real, q: real, p': real, q': real, t: real, t': real)
    requires t == p + q && t' == p' + q'
    ensures t * t' == p * p' + p * q' + q * p' + q * q'
  {
  }

  lemma OneSplit(p: real, q: real, t: real)
    requires p + q == 1.0
    ensures p * t + q * t == t
  {
  }

  lemma TurnKeeps(a: Rows, n: nat, k: nat, c: real, s: real)
    requires a.Valid(n) && k < n && c * c + s * s == 1.0
    ensures SameNormal(a, TurnRows(a, k, c, s), n)
  {
    var b := TurnRows(a, k, c, s);
    forall i | 0 <= i < n
      ensures a.Gram(n)[i] == b.Gram(n)[i]
    {
      forall j | 0 <= j < n
        ensures a.Gram(n)[i][j] == b.Gram(n)[i][j]
      {
        TurnKeepsGram(a, n, k, c, s, i, j);
      }
    }
    forall i | 0 <= i < n
      ensures a.Rhs(n)[i] == b.Rhs(n)[i]
    {
      TurnKeepsRhs(a, n, k, c, s, i);
    }
  }

  lemma TurnKeepsGram(a: Rows, n: nat, k: nat, c: real, s: real, i: nat, j: nat)
    requires a.Valid(n) && k < n && i < n && j < n && c * c + s * s == 1.0
    ensures a.Gram(n)[i][j] == TurnRows(a, k, c, s).Gram(n)[i][j]
  {
    hide Turned, TurnRows;
    TurnedColumn(a, n, k, c, s, i);
    TurnedColumn(a, n, k, c, s, j);
    TurnKeepsProduct(Col(a.s, i), Col(a.s, j), k, c, s, a.d[i], a.d[j]);
  }

  lemma TurnKeepsRhs(a: Rows, n: nat, k: nat, c: real, s: real, i: nat)
    requires a.Valid(n) && k < n && i < n && c * c + s * s == 1.0
    ensures a.Rhs(n)[i] == TurnRows(a, k, c, s).Rhs(n)[i]
  {
    TurnedColumn(a, n, k, c, s, i);
    TurnKeepsProduct(Col(a.s, i), a.w, k, c, s, a.d[i], a.q);
  }

  lemma TurnedColumn(a: Rows, n: nat, k: nat, c: real, s: real, i: nat)
    requires a.Valid(n) && k < n && i < n
    ensures Col(TurnRows(a, k, c, s).s, i) == Col(a.s, i)[k := Turned(c, s, a.s[k][i], a.d[i])]
    ensures TurnRows(a, k, c, s).d[i] == Turned(-s, c, a.s[k][i], a.d[i])
  {
    var b := TurnRows(a, k, c, s);
    forall h | 0 <= h < n
      ensures Col(b.s, i)[h] == Col(a.s, i)[k := Turned(c, s, a.s[k][i], a.d[i])][h]
    {
      if h == k {
        assert b.s[k][i] == Turned(c, s, a.s[k][i], a.d[i]);
      }
    }
  }

  lemma TurnKeepsProduct(x: Vec, y: Vec, k: nat, c: real, s: real, v: real, v': real)
    requires k < |x| == |y| && c * c + s * s == 1.0
    ensures Dot(x[k := Turned(c, s, x[k], v)], y[k := Turned(c, s, y[k], v')]) + Turned(-s, c, x[k], v) * Turned(-s, c,
        y[k], v')
            == Dot(x, y) + v * v'
  {
    TurnedProducts(c, s, x[k], v, y[k], v');
    DotUpdate(x, y, k, Turned(c, s, x[k], v), Turned(c, s, y[k], v'));
  }

  // ---- the rows in the arrays ----

  /** Row h of the triangle S: column h of the array from the diagonal down, its diagonal entry in sd once row h is
      final. */
  ghost function TriangleRow(col: Vec, sd: Vec, n: nat, j: nat, h: nat): (v: Vec)
    requires |col| >= n == |sd|
    ensures |v| == n
    ensures forall i :: 0 <= i < n ==> v[i] == if i < h then 0.0 else if i == h < j then sd[i] else col[i]
  {
    seq(n, i requires 0 <= i < n == |sd| && |col| >= n => if i < h then 0.0 else if i == h < j then sd[i] else col[i])
  }

  /** The triangle while row j of D is being eliminated. */
  ghost function Triangle(cols: Mat, sd: Vec, n: nat, j: nat): (s: Mat)
    requires n == |cols| == |sd| && forall h :: 0 <= h < n ==> |cols[h]| >= n
    ensures IsMat(s, n, n) && forall h :: 0 <= h < n ==> s[h] == TriangleRow(cols[h], sd, n, j, h)
  {
    seq(n, h requires 0 <= h < n == |cols| == |sd| && |cols[h]| >= n => TriangleRow(cols[h], sd, n, j, h))
  }

  /** Everything: the triangle with its right side, and what is left of row j of D from component k on. */
  ghost function RowsAt(cols: Mat, sd: Vec, w: Vec, q: real, n: nat, j: nat, k: nat): (a: Rows)
    requires n == |cols| == |sd| == |w| && forall h :: 0 <= h < n ==> |cols[h]| >= n
    ensures a.Valid(n)
  {
    Rows(Triangle(cols, sd, n, j), w, Below(sd, k), q)
  }

  /** Column k of the array after a rotation with the row in sd. */
  ghost function TurnedBelow(col: Vec, sd: Vec, n: nat, k: nat, c: real, s: real): (v: Vec)
    requires |col| >= n == |sd|
    ensures |v| == |col|
    ensures forall i :: 0 <= i < |col| ==> v[i] == if k <= i < n then Turned(c, s, col[i], sd[i]) else col[i]
  {
    seq(|col|, i requires 0 <= i < |col| && |col| >= n == |sd| =>
         if k <= i < n then Turned(c, s, col[i], sd[i]) else col[i])
  }

  /** What a rotation leaves in the row in sd, past the component it eliminates. */
  ghost function TurnedRest(col: Vec, sd: Vec, n: nat, k: nat, c: real, s: real): (v: Vec)
    requires |col| >= n == |sd|
    ensures |v| == n
    ensures forall i :: 0 <= i < n ==> v[i] == if k < i then Turned(-s, c, col[i], sd[i]) else sd[i]
  {
    seq(n, i requires 0 <= i < n == |sd| && |col| >= n => if k < i then Turned(-s, c, col[i], sd[i]) else sd[i])
  }

  /** Rotates column k of r, from the diagonal down, with the row in sdiag. */
  method TurnBelow(n: nat, r: array2<real>, sdiag: array<real>, k: nat, c: real, s: real)
    requires k < n == r.Length1 == sdiag.Length <= r.Length0
    modifies r, sdiag
    ensures ColsOf(r) == old(ColsOf(r))[k := TurnedBelow(old(ColOf(r, k)), old(sdiag[..]), n, k, c, s)]
    ensures sdiag[..] == TurnedRest(old(ColOf(r, k)), old(sdiag[..]), n, k, c, s)
  {
    hide TurnedBelow, ColOf, TurnedRest, Turned, IsMat;
    ghost var col, sd := ColOf(r, k), sdiag[..];
    ghost var v, e := TurnedBelow(col, sd, n, k, c, s), TurnedRest(col, sd, n, k, c, s);
    r[k, k] := Turned(c, s, r[k, k], sdiag[k]);
    for i := k + 1 to n
      invariant forall h :: 0 <= h < r.Length0 ==> r[h, k] == if h < i then v[h] else col[h]
      invariant forall h :: 0 <= h < n ==> sdiag[h] == if h < i then e[h] else sd[h]
      invariant forall h, l :: 0 <= h < r.Length0 && 0 <= l < n && l != k ==> r[h, l] == old(r[h, l])
    {
      var temp := Turned(c, s, r[i, k], sdiag[i]);
      sdiag[i] := Turned(-s, c, r[i, k], sdiag[i]);
      r[i, k] := temp;
    }
    assert ColOf(r, k) == v;
    assert sdiag[..] == e;
    forall l | 0 <= l < n && l != k
      ensures ColOf(r, l) == old(ColOf(r, l))
    {
    }
  }

  /** The rotation with sides c and s turns the second of the pair (f, g) away. */
  ghost predicate TurnsAway(c: real, s: real, f: real, g: real) {
    c * c + s * s == 1.0 && c * g == s * f
  }

  lemma SidesTurnAway(m: Made, f: real, g: real)
    requires Rotates(m, f, g)
    ensures TurnsAway(m.cos, m.sin, f, g)
  {
  }

  method MakeRotation(mach: Machine, f: real, g: real) returns (m: Made)
    requires mach.Valid() && g != 0.0
    ensures Rotates(m, f, g)
  {
    m := Eliminator(mach, f, g);
    EliminatorEliminates(mach, f, g);
  }

  /** One rotation turns component k of the row of D away. */
  method Eliminate(mach: Machine, n: nat, r: array2<real>, sdiag: array<real>, wa: array<real>, k: nat, q: real)
    returns (q': real, c: real, s: real)
    requires mach.Valid() && k < n == r.Length1 == sdiag.Length == wa.Length <= r.Length0 && sdiag != wa
    requires sdiag[k] != 0.0
    modifies r, sdiag, wa
    ensures TurnsAway(c, s, old(r[k, k]), old(sdiag[k]))
    ensures ColsOf(r) == old(ColsOf(r))[k := TurnedBelow(old(ColOf(r, k)), old(sdiag[..]), n, k, c, s)]
    ensures sdiag[..] == TurnedRest(old(ColOf(r, k)), old(sdiag[..]), n, k, c, s)
    ensures wa[..] == old(wa[..])[k := Turned(c, s, old(wa[k]), q)] && q' == Turned(-s, c, old(wa[k]), q)
  {
    var m := MakeRotation(mach, r[k, k], sdiag[k]);
    SidesTurnAway(m, r[k, k], sdiag[k]);
    c, s := m.cos, m.sin;
    var temp := Turned(c, s, wa[k], q);
    q' := Turned(-s, c, wa[k], q);
    wa[k] := temp;
    TurnBelow(n, r, sdiag, k, c, s);
  }

  // ---- eliminating one row of D ----

  lemma StepTurnsRows(cols: Mat, sd: Vec, w: Vec, q: real, n: nat, j: nat, k: nat, c: real, s: real, cols': Mat,
                      sd': Vec, w': Vec, q': real)
    requires n == |cols| == |sd| == |w| && (forall h :: 0 <= h < n ==> |cols[h]| >= n) && j <= k < n
    requires TurnsAway(c, s, cols[k][k], sd[k])
    requires cols' == cols[k := TurnedBelow(cols[k], sd, n, k, c, s)] && sd' == TurnedRest(cols[k], sd, n, k, c, s)
    requires w' == w[k := Turned(c, s, w[k], q)] && q' == Turned(-s, c, w[k], q)
    ensures SameNormal(RowsAt(cols, sd, w, q, n, j, k), RowsAt(cols', sd', w', q', n, j, k + 1), n)
  {
    var a, b := RowsAt(cols, sd, w, q, n, j, k), RowsAt(cols', sd', w', q', n, j, k + 1);
    TriangleTurned(cols, sd, n, j, k, c, s, cols', sd');
    RestTurned(cols[k], sd, n, k, c, s, TriangleRow(cols[k], sd, n, j, k));
    assert b == TurnRows(a, k, c, s);
    TurnKeeps(a, n, k, c, s);
  }

  lemma TriangleTurned(cols: Mat, sd: Vec, n: nat, j: nat, k: nat, c: real, s: real, cols': Mat, sd': Vec)
    requires n == |cols| == |sd| && (forall h :: 0 <= h < n ==> |cols[h]| >= n) && j <= k < n
    requires cols' == cols[k := TurnedBelow(cols[k], sd, n, k, c, s)] && sd' == TurnedRest(cols[k], sd, n, k, c, s)
    ensures Triangle(cols', sd', n, j)
            == Triangle(cols, sd, n, j)[k := Axpy(s, Below(sd, k), Scale(c, TriangleRow(cols[k], sd, n, j, k)))]
  {
    forall h | 0 <= h < n
      ensures TriangleRow(cols'[h], sd', n, j, h)
              == if h == k then Axpy(s, Below(sd, k),
                                     Scale(c, TriangleRow(cols[k], sd, n, j, k))) else TriangleRow(cols[h], sd, n, j, h)
    {
      if h == k {
        var u, v := TriangleRow(cols'[k], sd', n, j, k), Axpy(s, Below(sd, k),
                                                              Scale(c, TriangleRow(cols[k], sd, n, j, k)));
        forall i | 0 <= i < n
          ensures u[i] == v[i]
        {
        }
        assert u == v;
      } else {
        assert TriangleRow(cols'[h], sd', n, j, h) == TriangleRow(cols[h], sd, n, j, h);
      }
    }
  }

  lemma RestTurned(col: Vec, sd: Vec, n: nat, k: nat, c: real, s: real, row: Vec)
    requires k < n == |sd| == |row| <= |col| && TurnsAway(c, s, col[k], sd[k])
    requires forall i :: 0 <= i < n ==> row[i] == if i < k then 0.0 else col[i]
    ensures Below(TurnedRest(col, sd, n, k, c, s), k + 1) == Axpy(c, Below(sd, k), Scale(-s, row))
  {
    var u, v := Below(TurnedRest(col, sd, n, k, c, s), k + 1), Axpy(c, Below(sd, k), Scale(-s, row));
    forall i | 0 <= i < n
      ensures u[i] == v[i]
    {
      if i == k {
        assert v[k] == -s * col[k] + c * sd[k];
      }
    }
  }

  /** The first rotation leaves a nonzero diagonal entry where the row of D had a nonzero one. */
  lemma DiagonalSurvives(c: real, s: real, f: real, g: real)
    requires TurnsAway(c, s, f, g) && g != 0.0
    ensures Turned(c, s, f, g) != 0.0
  {
    TurnedProducts(c, s, f, g, f, g);
    assert Turned(-s, c, f, g) == 0.0;
    SquareSign(f, f * f);
    SquareSign(g, g * g);
  }

  // ---- the loops ----

  /** The arrays while row j of D is being eliminated and its components before k are gone: the same normal equations as
      a0, and the strict upper triangle of r untouched. */
  ghost predicate Eliminating(a0: Rows, cols0: Mat, cols: Mat, sd: Vec, w: Vec, q: real, n: nat, j: nat, k: nat,
                              dj: real) {
    && n == |cols| == |cols0| == |sd| == |w| && (forall h :: 0 <= h < n ==> |cols[h]| == |cols0[h]| >= n) && j <= k <= n
    && j < n
    && SameNormal(a0, RowsAt(cols, sd, w, q, n, j, k), n)
    && (forall h, i :: 0 <= h < n && 0 <= i < |cols[h]| && (i < h || i >= n || h < j) ==> cols[h][i] == cols0[h][i])
    && (forall i :: 0 <= i < j ==> sd[i] == a0.s[i][i])
    && (k == j ==> sd[j] == dj) && (k > j && dj != 0.0 ==> cols[j][j] != 0.0)
  }

  lemma EliminatingStep(a0: Rows, cols0: Mat, cols: Mat, sd: Vec, w: Vec, q: real, n: nat, j: nat, k: nat, dj: real,
                        c: real, s: real, cols': Mat, sd': Vec, w': Vec, q': real)
    requires Eliminating(a0, cols0, cols, sd, w, q, n, j, k, dj) && k < n && TurnsAway(c, s, cols[k][k], sd[k])
    requires sd[k] != 0.0
    requires cols' == cols[k := TurnedBelow(cols[k], sd, n, k, c, s)] && sd' == TurnedRest(cols[k], sd, n, k, c, s)
    requires w' == w[k := Turned(c, s, w[k], q)] && q' == Turned(-s, c, w[k], q)
    ensures Eliminating(a0, cols0, cols', sd', w', q', n, j, k + 1, dj)
  {
    StepTurnsRows(cols, sd, w, q, n, j, k, c, s, cols', sd', w', q');
    if k == j {
      DiagonalSurvives(c, s, cols[k][k], sd[k]);
    }
  }

  lemma EliminatingSkip(a0: Rows, cols0: Mat, cols: Mat, sd: Vec, w: Vec, q: real, n: nat, j: nat, k: nat, dj: real)
    requires Eliminating(a0, cols0, cols, sd, w, q, n, j, k, dj) && k < n && sd[k] == 0.0
    ensures Eliminating(a0, cols0, cols, sd, w, q, n, j, k + 1, dj)
  {
    assert Below(sd, k) == Below(sd, k + 1);
  }

  method EliminateComponent(mach: Machine, n: nat, r: array2<real>, sdiag: array<real>, wa: array<real>, j: nat, k: nat,
                            q: real, ghost a0: Rows, ghost cols0: Mat, ghost dj: real)
    returns (q': real, k': nat)
    requires mach.Valid() && n == r.Length1 == sdiag.Length == wa.Length <= r.Length0 && sdiag != wa && k < n
    requires Eliminating(a0, cols0, ColsOf(r), sdiag[..], wa[..], q, n, j, k, dj)
    modifies r, sdiag, wa
    ensures k' == k + 1 && Eliminating(a0, cols0, ColsOf(r), sdiag[..], wa[..], q', n, j, k', dj)
  {
    hide Eliminating, ColOf, SameNormal, RowsAt, TurnsAway, TurnedBelow, TurnedRest;
    ghost var cols, sd, w := ColsOf(r), sdiag[..], wa[..];
    q', k' := q, k + 1;
    if sdiag[k] != 0.0 {
      ghost var f := r[k, k];
      var c, s;
      q', c, s := Eliminate(mach, n, r, sdiag, wa, k, q);
      assert cols[k] == old(ColOf(r, k)) && cols[k][k] == f;
      EliminatingStep(a0, cols0, cols, sd, w, q, n, j, k, dj, c, s, ColsOf(r), sdiag[..], wa[..], q');
    } else {
      EliminatingSkip(a0, cols0, cols, sd, w, q, n, j, k, dj);
    }
  }

  /** Row j of D, and nothing else: the row that elimination step j starts with. */
  ghost function WithRow(s: Mat, w: Vec, dj: real, n: nat, j: nat): Rows {
    Rows(s, w, Scale(dj, Unit(n, j)), 0.0)
  }

  /** The effect of elimination step j on the arrays. */
  ghost predicate RowEliminated(cols0: Mat, sd0: Vec, w0: Vec, cols: Mat, sd: Vec, w: Vec, n: nat, j: nat, dj: real,
                                xj: real) {
    && n == |cols| == |cols0| == |sd| == |sd0| == |w| == |w0| && j < n
    && (forall h :: 0 <= h < n ==> |cols[h]| == |cols0[h]| >= n)
    && SameNormal(WithRow(Triangle(cols0, sd0, n, j), w0, dj, n, j),
                  WithRow(Triangle(cols, sd, n, j + 1), w, 0.0, n, j), n)
    && (forall h, i :: 0 <= h < n && 0 <= i < |cols[h]| && (i < h || i >= n || h < j) ==> cols[h][i] == cols0[h][i])
    && cols[j][j] == xj && (forall i :: 0 <= i < j ==> sd[i] == sd0[i]) && (dj != 0.0 ==> sd[j] != 0.0)
  }

  method StartRow(sdiag: array<real>, j: nat, dj: real)
    requires j < sdiag.Length
    modifies sdiag
    ensures forall i :: 0 <= i < sdiag.Length ==>
              sdiag[i] == if i < j then old(sdiag[i]) else if i == j then dj else 0.0
  {
    for k := j to sdiag.Length
      invariant forall i :: 0 <= i < sdiag.Length ==> sdiag[i] == if j <= i < k then 0.0 else old(sdiag[i])
    {
      sdiag[k] := 0.0;
    }
    sdiag[j] := dj;
  }

  lemma RowStarted(cols: Mat, sd0: Vec, sd: Vec, w: Vec, n: nat, j: nat, dj: real)
    requires n == |cols| == |sd0| == |sd| == |w| && j < n && forall h :: 0 <= h < n ==> |cols[h]| >= n
    requires forall i :: 0 <= i < n ==> sd[i] == if i < j then sd0[i] else if i == j then dj else 0.0
    ensures Eliminating(WithRow(Triangle(cols, sd0, n, j), w, dj, n, j), cols, cols, sd, w, 0.0, n, j, j, dj)
  {
    assert Below(sd, j) == Scale(dj, Unit(n, j));
    SameTriangle(cols, cols, sd0, sd, n, j, j);
  }

  /** Where entry (h, i) of the triangle is kept. */
  ghost function Lower(cols: Mat, sd: Vec, j: nat, h: nat, i: nat): real
    requires h < |cols| && i < |cols[h]| && i < |sd|
  {
    if i == h < j then sd[i] else cols[h][i]
  }

  /** The triangle depends on the diagonal in sd of the finished rows, and on the array below the other diagonal
      entries. */
  lemma SameTriangle(cols: Mat, cols': Mat, sd: Vec, sd': Vec, n: nat, j: nat, j': nat)
    requires n == |cols| == |cols'| == |sd| == |sd'| && forall h :: 0 <= h < n ==> |cols[h]| >= n && |cols'[h]| >= n
    requires forall h, i :: 0 <= h < n && h <= i < n ==> Lower(cols, sd, j, h, i) == Lower(cols', sd', j', h, i)
    ensures Triangle(cols, sd, n, j) == Triangle(cols', sd', n, j')
  {
    forall h | 0 <= h < n
      ensures TriangleRow(cols[h], sd, n, j, h) == TriangleRow(cols'[h], sd', n, j', h)
    {
      forall i | 0 <= i < n
        ensures TriangleRow(cols[h], sd, n, j, h)[i] == TriangleRow(cols'[h], sd', n, j', h)[i]
      {
        if h <= i {
          assert Lower(cols, sd, j, h, i) == Lower(cols', sd', j', h, i);
        }
      }
    }
  }

  /** Storing the diagonal entry of S and restoring that of R ends step j. */
  lemma RowFinished(a0: Rows, cols0: Mat, sd0: Vec, w0: Vec, cols: Mat, sd: Vec, w: Vec, q: real, n: nat, j: nat,
                    dj: real, xj: real)
    requires n == |sd0| == |w0| == |cols0| && j < n && forall h :: 0 <= h < n ==> |cols0[h]| >= n
    requires a0 == WithRow(Triangle(cols0, sd0, n, j), w0, dj, n, j)
    requires Eliminating(a0, cols0, cols, sd, w, q, n, j, n, dj)
    ensures RowEliminated(cols0, sd0, w0, cols[j := cols[j][j := xj]], sd[j := cols[j][j]], w, n, j, dj, xj)
  {
    var cols', sd' := cols[j := cols[j][j := xj]], sd[j := cols[j][j]];
    SameTriangle(cols, cols', sd, sd', n, j, j + 1);
    var a, b := RowsAt(cols, sd, w, q, n, j, n), WithRow(Triangle(cols', sd', n, j + 1), w, 0.0, n, j);
    NoRowLeft(a0, a, b, n);
  }

  /** The right side of a zero row does not matter. */
  lemma NoRowLeft(a0: Rows, a: Rows, b: Rows, n: nat)
    requires SameNormal(a0, a, n) && b.Valid(n) && a.s == b.s && a.w == b.w
    requires forall i :: 0 <= i < n ==> a.d[i] == b.d[i] == 0.0
    ensures SameNormal(a0, b, n)
  {
    forall i | 0 <= i < n
      ensures a.Gram(n)[i] == b.Gram(n)[i] && a.Rhs(n)[i] == b.Rhs(n)[i]
    {
      forall j | 0 <= j < n
        ensures a.Gram(n)[i][j] == b.Gram(n)[i][j]
      {
      }
    }
  }

  /** A zero row of D needs no rotations. */
  lemma RowSkipped(cols: Mat, sd: Vec, w: Vec, n: nat, j: nat, xj: real)
    requires n == |sd| == |w| == |cols| && j < n && forall h :: 0 <= h < n ==> |cols[h]| >= n
    ensures RowEliminated(cols, sd, w, cols[j := cols[j][j := xj]], sd[j := cols[j][j]], w, n, j, 0.0, xj)
  {
    SameTriangle(cols, cols[j := cols[j][j := xj]], sd, sd[j := cols[j][j]], n, j, j + 1);
  }

  method FinishRow(r: array2<real>, sdiag: array<real>, j: nat, xj: real)
    requires j < sdiag.Length == r.Length1 <= r.Length0
    modifies r, sdiag
    ensures ColsOf(r) == old(ColsOf(r))[j := old(ColsOf(r))[j][j := xj]]
    ensures sdiag[..] == old(sdiag[..])[j := old(ColsOf(r))[j][j]]
  {
    ghost var cols := ColsOf(r);
    assert cols[j][j] == r[j, j];
    sdiag[j] := r[j, j];
    r[j, j] := xj;
    assert ColOf(r, j) == cols[j][j := xj];
    forall h | 0 <= h < r.Length1 && h != j
      ensures ColOf(r, h) == cols[h]
    {
    }
  }

  method RotateRow(mach: Machine, n: nat, r: array2<real>, sdiag: array<real>, wa: array<real>, j: nat, dj: real)
    returns (ghost a0: Rows, ghost q: real)
    requires mach.Valid() && j < n == r.Length1 == sdiag.Length == wa.Length <= r.Length0 && sdiag != wa
    modifies r, sdiag, wa
    ensures a0 == WithRow(Triangle(old(ColsOf(r)), old(sdiag[..]), n, j), old(wa[..]), dj, n, j)
    ensures Eliminating(a0, old(ColsOf(r)), ColsOf(r), sdiag[..], wa[..], q, n, j, n, dj)
  {
    ghost var cols0, sd0 := ColsOf(r), sdiag[..];
    a0 := WithRow(Triangle(cols0, sd0, n, j), wa[..], dj, n, j);
    StartRow(sdiag, j, dj);
    RowStarted(cols0, sd0, sdiag[..], wa[..], n, j, dj);
    var qtbpj := 0.0;
    var k := j;
    while k < n
      invariant Eliminating(a0, cols0, ColsOf(r), sdiag[..], wa[..], qtbpj, n, j, k, dj)
    {
      qtbpj, k := EliminateComponent(mach, n, r, sdiag, wa, j, k, qtbpj, a0, cols0, dj);
    }
    q := qtbpj;
  }

  method EliminateRow(mach: Machine, n: nat, r: array2<real>, sdiag: array<real>, wa: array<real>, j: nat, dj: real,
                      xj: real)
    requires mach.Valid() && j < n == r.Length1 == sdiag.Length == wa.Length <= r.Length0 && sdiag != wa
    modifies r, sdiag, wa
    ensures RowEliminated(old(ColsOf(r)), old(sdiag[..]), old(wa[..]), ColsOf(r), sdiag[..], wa[..], n, j, dj, xj)
  {
    ghost var cols0, sd0, w0 := ColsOf(r), sdiag[..], wa[..];
    if dj != 0.0 {
      ghost var a0, q := RotateRow(mach, n, r, sdiag, wa, j, dj);
      RowFinished(a0, cols0, sd0, w0, ColsOf(r), sdiag[..], wa[..], q, n, j, dj, xj);
    } else {
      RowSkipped(cols0, sd0, w0, n, j, xj);
    }
    FinishRow(r, sdiag, j, xj);
  }

  // ---- all rows of D ----

  /** The triangle that qrfac left on and above the diagonal. */
  ghost function Factor(cols: Mat, n: nat): (r: Mat)
    requires |cols| == n && forall h :: 0 <= h < n ==> |cols[h]| >= n
    ensures IsMat(r, n, n)
    ensures forall i, h :: 0 <= i < n && 0 <= h < n ==> r[i][h] == if i <= h then cols[h][i] else 0.0
  {
    seq(n, i requires 0 <= i < n == |cols| && (forall h :: 0 <= h < n ==> |cols[h]| >= n) =>
      seq(n, h requires 0 <= h < n == |cols| && (forall h :: 0 <= h < n ==> |cols[h]| >= n) && 0 <= i < n =>
        if i <= h then cols[h][i] else 0.0))
  }

  /** transpose(S) S */
  ghost function Cross(s: Mat, n: nat): (g: Mat)
    requires IsMat(s, n, n)
    ensures IsMat(g, n, n) && forall i :: 0 <= i < n ==> g[i] == Comb(Col(s, i), s, n)
  {
    seq(n, i requires 0 <= i < n && IsMat(s, n, n) => Comb(Col(s, i), s, n))
  }

  /** g with the first j components of e added to its diagonal. */
  ghost function PlusDiagonal(g: Mat, e: Vec, n: nat, j: nat): (f: Mat)
    requires IsMat(g, n, n) && |e| == n
    ensures IsMat(f, n, n) && forall i :: 0 <= i < n ==> f[i] == if i < j then g[i][i := g[i][i] + e[i]] else g[i]
  {
    seq(n, i requires 0 <= i < n && IsMat(g, n, n) && |e| == n => if i < j then g[i][i := g[i][i] + e[i]] else g[i])
  }

  /** transpose(S) S is transpose(R) R with the first j components of e on its diagonal, and transpose(S) w is
      transpose(R) b. */
  ghost predicate Completes(s: Mat, w: Vec, r: Mat, b: Vec, e: Vec, n: nat, j: nat) {
    && IsMat(s, n, n) && IsMat(r, n, n) && |w| == |b| == |e| == n
    && Cross(s, n) == PlusDiagonal(Cross(r, n), e, n, j)
    && Comb(w, s, n) == Comb(b, r, n)
  }

  /** One more row of D. */
  lemma CompletesStep(s: Mat, w: Vec, s': Mat, w': Vec, r: Mat, b: Vec, e: Vec, n: nat, j: nat, dj: real)
    requires Completes(s, w, r, b, e, n, j) && j < n && e[j] == dj * dj
    requires SameNormal(WithRow(s, w, dj, n, j), WithRow(s', w', 0.0, n, j), n)
    ensures Completes(s', w', r, b, e, n, j + 1)
  {
    forall i | 0 <= i < n
      ensures Cross(s', n)[i] == PlusDiagonal(Cross(r, n), e, n, j + 1)[i]
    {
      CrossRow(s, w, s', w', n, j, dj, e[j], i);
      assert Cross(s, n)[i] == PlusDiagonal(Cross(r, n), e, n, j)[i];
    }
    forall i | 0 <= i < n
      ensures Comb(w', s', n)[i] == Comb(w, s, n)[i]
    {
      RhsEntry(s, w, s', w', n, j, dj, i);
    }
  }

  lemma CrossRow(s: Mat, w: Vec, s': Mat, w': Vec, n: nat, j: nat, dj: real, ej: real, i: nat)
    requires i < n && j < n && SameNormal(WithRow(s, w, dj, n, j), WithRow(s', w', 0.0, n, j), n) && ej == dj * dj
    ensures Cross(s', n)[i] == if i == j then Cross(s, n)[i][j := Cross(s, n)[i][j] + ej] else Cross(s, n)[i]
  {
    forall h | 0 <= h < n
      ensures Cross(s', n)[i][h] == Cross(s, n)[i][h] + if i == h == j then ej else 0.0
    {
      GramEntry(s, w, s', w', n, j, dj, ej, i, h);
    }
  }

  lemma GramEntry(s: Mat, w: Vec, s': Mat, w': Vec, n: nat, j: nat, dj: real, ej: real, i: nat, h: nat)
    requires i < n && h < n && j < n && SameNormal(WithRow(s, w, dj, n, j), WithRow(s', w', 0.0, n, j), n)
    requires ej == dj * dj
    ensures Cross(s', n)[i][h] == Cross(s, n)[i][h] + if i == h == j then ej else 0.0
  {
    SpikeGram(s, w, n, j, dj, ej, i, h);
    SpikeGram(s', w', n, j, 0.0, 0.0, i, h);
  }

  lemma SpikeGram(s: Mat, w: Vec, n: nat, j: nat, dj: real, ej: real, i: nat, h: nat)
    requires i < n && h < n && j < n && WithRow(s, w, dj, n, j).Valid(n) && ej == dj * dj
    ensures WithRow(s, w, dj, n, j).Gram(n)[i][h] == Cross(s, n)[i][h] + if i == h == j then ej else 0.0
  {
    CombAt(Col(s, i), s, n, h);
    var d := WithRow(s, w, dj, n, j).d;
    SpikeProduct(dj, ej, i, h, j, d[i], d[h]);
  }

  lemma SpikeProduct(dj: real, ej: real, i: nat, h: nat, j: nat, u: real, v: real)
    requires ej == dj * dj && u == (if i == j then dj else 0.0) && v == (if h == j then dj else 0.0)
    ensures u * v == if i == h == j then ej else 0.0
  {
  }

  lemma RhsEntry(s: Mat, w: Vec, s': Mat, w': Vec, n: nat, j: nat, dj: real, i: nat)
    requires i < n && j < n && SameNormal(WithRow(s, w, dj, n, j), WithRow(s', w', 0.0, n, j), n)
    ensures Comb(w', s', n)[i] == Comb(w, s, n)[i]
  {
    CombAt(w, s, n, i);
    CombAt(w', s', n, i);
    DotCommutes(w, Col(s, i));
    DotCommutes(w', Col(s', i));
    var x, y := WithRow(s, w, dj, n, j), WithRow(s', w', 0.0, n, j);
    assert x.Rhs(n)[i] == y.Rhs(n)[i];
  }

  /** The arrays at the head of elimination step j. */
  ghost predicate Completing(cols0: Mat, cols: Mat, sd: Vec, w: Vec, b: Vec, pd: Vec, n: nat, j: nat) {
    && n == |cols| == |cols0| == |sd| == |w| == |b| == |pd| && j <= n
    && (forall h :: 0 <= h < n ==> |cols[h]| == |cols0[h]| >= n)
    && (forall h, i :: 0 <= h < n && 0 <= i < |cols[h]| && (i < h || i >= n || i == h < j) ==>
         cols[h][i] == cols0[h][i])
    && Completes(Triangle(cols, sd, n, j), w, Factor(cols0, n), b, Times(pd, pd), n, j)
    && (forall i :: 0 <= i < j && pd[i] != 0.0 ==> sd[i] != 0.0)
  }

  lemma CompletingStep(cols0: Mat, cols: Mat, sd: Vec, w: Vec, b: Vec, pd: Vec, n: nat, j: nat, cols': Mat, sd': Vec,
                       w': Vec)
    requires Completing(cols0, cols, sd, w, b, pd, n, j) && j < n
    requires RowEliminated(cols, sd, w, cols', sd', w', n, j, pd[j], cols0[j][j])
    ensures Completing(cols0, cols', sd', w', b, pd, n, j + 1)
  {
    hide Factor, Completes, SameNormal, WithRow, IsMat;
    CompletesStep(Triangle(cols, sd, n, j), w, Triangle(cols', sd', n, j + 1), w', Factor(cols0, n), b, Times(pd, pd),
                  n, j, pd[j]);
  }

  /** Below the diagonal cols holds the mirror image of what is above it. */
  ghost predicate Copied(cols0: Mat, cols: Mat, n: nat) {
    && n == |cols| == |cols0| && (forall h :: 0 <= h < n ==> |cols[h]| == |cols0[h]| >= n)
    && (forall h, i :: 0 <= h < i < n ==> cols[h][i] == cols0[i][h])
    && (forall h, i :: 0 <= h < n && 0 <= i < |cols[h]| && (i <= h || i >= n) ==> cols[h][i] == cols0[h][i])
  }

  /** Copies the upper triangle below the diagonal, the diagonal into x and b into wa. */
  method CopyTriangle(n: nat, r: array2<real>, b: Vec, x: array<real>, wa: array<real>)
    requires n == r.Length1 == x.Length == wa.Length == |b| <= r.Length0 && x != wa
    modifies r, x, wa
    ensures Copied(old(ColsOf(r)), ColsOf(r), n)
    ensures wa[..] == b && forall h :: 0 <= h < n ==> x[h] == old(ColsOf(r))[h][h]
  {
    for j := 0 to n
      invariant forall h, i :: 0 <= h < n && 0 <= i < r.Length0 ==>
                r[i, h] == if h < i < n && h < j then old(r[h, i]) else old(r[i, h])
      invariant forall h :: 0 <= h < j ==> x[h] == old(r[h, h]) && wa[h] == b[h]
    {
      for i := j to n
        invariant forall h :: 0 <= h < j ==> x[h] == old(r[h, h]) && wa[h] == b[h]
        invariant forall h, l :: 0 <= h < n && 0 <= l < r.Length0 ==>
                    r[l, h] == if h < l < n && (h < j || (h == j && l < i)) then old(r[h, l]) else old(r[l, h])
      {
        r[i, j] := r[j, i];
      }
      x[j] := r[j, j];
      wa[j] := b[j];
    }
  }

  /** Before the first elimination the triangle is R itself. */
  lemma CopyCompletes(cols0: Mat, cols: Mat, sd: Vec, b: Vec, pd: Vec, n: nat)
    requires n == |sd| == |b| == |pd| && Copied(cols0, cols, n)
    ensures Completing(cols0, cols, sd, b, b, pd, n, 0)
  {
    forall h | 0 <= h < n
      ensures Triangle(cols, sd, n, 0)[h] == Factor(cols0, n)[h]
    {
    }
    assert Triangle(cols, sd, n, 0) == Factor(cols0, n);
  }

  /** The scale in the order of the factorization. */
  ghost function Permuted(d: Vec, p: seq<nat>): (e: Vec)
    requires |d| == |p| && Permutation(p)
    ensures |e| == |d| && forall j :: 0 <= j < |d| ==> e[j] == d[p[j]]
  {
    seq(|d|, j requires 0 <= j < |d| == |p| && Permutation(p) => d[p[j]])
  }

  /** Eliminates all rows of D: S is below and on the diagonal, R above and on it, the diagonal of S in sdiag. */
  method EliminateDiagonal(mach: Machine, n: nat, r: array2<real>, ipvt: seq<int>, diag: Vec, b: Vec, x: array<real>,
                           sdiag: array<real>, wa: array<real>)
    requires mach.Valid() && n == r.Length1 == sdiag.Length == wa.Length == x.Length == |diag| == |b| <= r.Length0
    requires sdiag != wa && sdiag != x && x != wa
    requires Numbers(true, ipvt, n) && Permutation(Order(true, ipvt, n))
    modifies r, sdiag, wa, x
    ensures Completing(old(ColsOf(r)), ColsOf(r), sdiag[..], wa[..], b, Permuted(diag, Order(true, ipvt, n)), n, n)
  {
    ghost var cols0, pd := ColsOf(r), Permuted(diag, Order(true, ipvt, n));
    CopyTriangle(n, r, b, x, wa);
    CopyCompletes(cols0, ColsOf(r), sdiag[..], b, pd, n);
    var j := 0;
    while j < n
      invariant forall h :: 0 <= h < n ==> x[h] == cols0[h][h]
      invariant Completing(cols0, ColsOf(r), sdiag[..], wa[..], b, pd, n, j)
    {
      j := EliminateNext(mach, n, r, sdiag, wa, j, diag[ipvt[j] - 1], x[j], cols0, b, pd);
    }
  }

  method EliminateNext(mach: Machine, n: nat, r: array2<real>, sdiag: array<real>, wa: array<real>, j: nat, dj: real,
                       xj: real, ghost cols0: Mat, ghost b: Vec, ghost pd: Vec)
    returns (j': nat)
    requires mach.Valid() && n == r.Length1 == sdiag.Length == wa.Length <= r.Length0 && sdiag != wa && j < n
    requires Completing(cols0, ColsOf(r), sdiag[..], wa[..], b, pd, n, j) && dj == pd[j] && xj == cols0[j][j]
    modifies r, sdiag, wa
    ensures j' == j + 1 && Completing(cols0, ColsOf(r), sdiag[..], wa[..], b, pd, n, j')
  {
    ghost var cols, sd, w := ColsOf(r), sdiag[..], wa[..];
    EliminateRow(mach, n, r, sdiag, wa, j, dj, xj);
    CompletingStep(cols0, cols, sd, w, b, pd, n, j, ColsOf(r), sdiag[..], wa[..]);
    j' := j + 1;
  }

  // ---- solving ----

  /** The order of the leading block without a zero on its diagonal; wa is cleared beyond it. */
  method LeadingOrder(sd: Vec, wa: array<real>) returns (nsing: nat)
    requires |sd| == wa.Length
    modifies wa
    ensures nsing <= |sd| && (forall i :: 0 <= i < nsing ==> sd[i] != 0.0) && (nsing < |sd| ==> sd[nsing] == 0.0)
    ensures forall i :: 0 <= i < |sd| ==> wa[i] == if i < nsing then old(wa[i]) else 0.0
  {
    var n := |sd|;
    nsing := n;
    for j := 0 to n
      invariant nsing < j || nsing == n
      invariant forall i :: 0 <= i < j && i < nsing ==> sd[i] != 0.0
      invariant nsing < n ==> sd[nsing] == 0.0
      invariant forall i :: 0 <= i < n ==> wa[i] == if nsing <= i < j then 0.0 else old(wa[i])
    {
      if sd[j] == 0.0 && nsing == n {
        nsing := j;
      }
      if nsing < n {
        wa[j] := 0.0;
      }
    }
  }

  /** The product of row j of S with wa, past the diagonal. */
  method RowSum(n: nat, r: array2<real>, j: nat, wa: Vec, nsing: nat, ghost s: Mat) returns (sum: real)
    requires j < nsing <= n == r.Length1 == |wa| <= r.Length0 && IsMat(s, n, n)
    requires forall i :: j < i < n ==> s[j][i] == r[i, j]
    requires forall i :: nsing <= i < n ==> wa[i] == 0.0
    ensures sum == DotR(s[j], wa, j + 1, n)
  {
    sum := 0.0;
    for i := j + 1 to nsing
      invariant sum == DotR(s[j], wa, j + 1, i)
    {
      sum := sum + r[i, j] * wa[i];
    }
    DotRSplit(s[j], wa, j + 1, nsing, n);
    DotRZero(s[j], wa, nsing, n);
  }

  /** z solves the leading block of R z = b that has no zero on its diagonal, and vanishes beyond it. */
  ghost predicate LeadingSolve(r: Mat, b: Vec, z: Vec, nsing: nat) {
    && IsMat(r, |z|, |z|) && |b| == |z| && nsing <= |z|
    && (forall i :: 0 <= i < nsing ==> r[i][i] != 0.0) && (nsing < |z| ==> r[nsing][nsing] == 0.0)
    && (forall i :: nsing <= i < |z| ==> z[i] == 0.0)
    && (forall i :: 0 <= i < nsing ==> Dot(r[i], z) == b[i])
  }

  /** R z is b on the leading block and zero beyond it. */
  lemma LeadingResidual(r: Mat, b: Vec, z: Vec, nsing: nat)
    requires LeadingSolve(r, b, z, nsing) && UpperTriangular(r)
    ensures forall i :: 0 <= i < |z| ==> Mul(r, z)[i] == if i < nsing then b[i] else 0.0
    ensures Dot(b, Mul(r, z)) == Dot(Mul(r, z), Mul(r, z))
  {
    var y := Mul(r, z);
    forall i | 0 <= i < |z|
      ensures y[i] == if i < nsing then b[i] else 0.0
    {
      if i >= nsing {
        DotRZero(r[i], z, 0, |z|);
      }
    }
    forall i | 0 <= i < |z|
      ensures b[i] * y[i] == y[i] * y[i]
    {
      if i >= nsing {
        assert y[i] == 0.0;
      }
    }
    DotRCong(b, y, y, y, 0, |z|);
  }

  /** Solves the leading block of S z = w from its last row to its first, in place in wa. */
  method SolveTriangle(n: nat, r: array2<real>, sd: Vec, wa: array<real>) returns (nsing: nat)
    requires n == r.Length1 == |sd| == wa.Length <= r.Length0
    modifies wa
    ensures LeadingSolve(Triangle(ColsOf(r), sd, n, n), old(wa[..]), wa[..], nsing)
  {
    ghost var s, w := Triangle(ColsOf(r), sd, n, n), wa[..];
    nsing := LeadingOrder(sd, wa);
    for k := 1 to nsing + 1
      invariant forall h :: 0 <= h < n ==> h >= nsing - k + 1 || wa[h] == w[h]
      invariant forall i :: nsing <= i < n ==> wa[i] == 0.0
      invariant forall h :: nsing - k + 1 <= h < nsing ==> RowSolved(s, wa[..], w, h)
    {
      var j := nsing - k;
      SolveRow(n, r, sd, j, wa, nsing, s, w);
    }
    TriangleIsUpper(ColsOf(r), sd, n);
    RowsSolvedLead(s, w, wa[..], nsing);
  }

  lemma RowsSolvedLead(s: Mat, w: Vec, z: Vec, nsing: nat)
    requires IsMat(s, |z|, |z|) && |w| == |z| && nsing <= |z| && UpperTriangular(s)
    requires (forall i :: 0 <= i < nsing ==> s[i][i] != 0.0) && (nsing < |z| ==> s[nsing][nsing] == 0.0)
    requires forall i :: nsing <= i < |z| ==> z[i] == 0.0
    requires forall h :: 0 <= h < nsing ==> RowSolved(s, z, w, h)
    ensures LeadingSolve(s, w, z, nsing)
  {
    forall i | 0 <= i < nsing
      ensures Dot(s[i], z) == w[i]
    {
      assert RowSolved(s, z, w, i);
      DotSuffix(s[i], z, i);
    }
  }

  method SolveRow(n: nat, r: array2<real>, sd: Vec, j: nat, wa: array<real>, nsing: nat, ghost s: Mat, ghost w: Vec)
    requires n == r.Length1 == |sd| == wa.Length == |w| <= r.Length0 && j < nsing <= n && sd[j] != 0.0
    requires s == Triangle(ColsOf(r), sd, n, n) && wa[j] == w[j]
    requires forall i :: nsing <= i < n ==> wa[i] == 0.0
    requires forall h :: j < h < nsing ==> RowSolved(s, wa[..], w, h)
    modifies wa
    ensures forall h :: 0 <= h < n && h != j ==> wa[h] == old(wa[h])
    ensures forall h :: j <= h < nsing ==> RowSolved(s, wa[..], w, h)
  {
    ghost var before := wa[..];
    assert forall i :: j < i < n ==> s[j][i] == ColsOf(r)[j][i] == r[i, j];
    var sum := RowSum(n, r, j, wa[..], nsing, s);
    wa[j] := (wa[j] - sum) / sd[j];
    assert s[j] == s[j][j := sd[j]];
    PivotRowSolved(s[j], s[j], j, sd[j], before, wa[..], sum, w[j]);
    LaterRowsKept(s, before, wa[..], w, j, nsing);
  }

  /** z solves the normal equations of R z = b with the rows of the diagonal matrix pd below R. */
  ghost predicate Augmented(r: Mat, pd: Vec, b: Vec, z: Vec) {
    && IsMat(r, |z|, |z|) && |pd| == |b| == |z|
    && Axpy(1.0, Times(Times(pd, pd), z), Comb(Mul(r, z), r, |z|)) == Comb(b, r, |z|)
  }

  /** The damped matrix times z is transpose(S) S z. */
  lemma SolutionOf(s: Mat, r: Mat, pd: Vec, z: Vec, n: nat)
    requires IsMat(s, n, n) && IsMat(r, n, n) && |pd| == |z| == n
    requires Cross(s, n) == PlusDiagonal(Cross(r, n), Times(pd, pd), n, n)
    ensures Axpy(1.0, Times(Times(pd, pd), z), Comb(Mul(r, z), r, n)) == Comb(Mul(s, z), s, n)
  {
    DampedProduct(s, r, Times(pd, pd), z, n, Times(Times(pd, pd), z), Comb(Mul(r, z), r, n));
  }

  lemma DampedProduct(s: Mat, r: Mat, e: Vec, z: Vec, n: nat, t: Vec, c: Vec)
    requires IsMat(s, n, n) && IsMat(r, n, n) && |e| == |z| == n && t == Times(e, z) && c == Comb(Mul(r, z), r, n)
    requires Cross(s, n) == PlusDiagonal(Cross(r, n), e, n, n)
    ensures Axpy(1.0, t, c) == Comb(Mul(s, z), s, n)
  {
    hide Cross, PlusDiagonal, Mul, Comb;
    forall i | 0 <= i < n
      ensures Axpy(1.0, t, c)[i] == Comb(Mul(s, z), s, n)[i]
    {
      SolutionEntry(s, r, e, z, n, i, t[i]);
    }
  }

  lemma SolutionEntry(s: Mat, r: Mat, e: Vec, z: Vec, n: nat, i: nat, t: real)
    requires IsMat(s, n, n) && IsMat(r, n, n) && |e| == |z| == n && i < n && t == e[i] * z[i]
    requires Cross(s, n) == PlusDiagonal(Cross(r, n), e, n, n)
    ensures Comb(Mul(r, z), r, n)[i] + t == Comb(Mul(s, z), s, n)[i]
  {
    CrossTimes(s, z, n, i);
    CrossTimes(r, z, n, i);
    RaisedRow(s, r, e, n, i);
    RaisedProduct(Cross(r, n)[i], z, i, e[i], t);
  }

  lemma RaisedRow(s: Mat, r: Mat, e: Vec, n: nat, i: nat)
    requires IsMat(s, n, n) && IsMat(r, n, n) && |e| == n && i < n
    requires Cross(s, n) == PlusDiagonal(Cross(r, n), e, n, n)
    ensures Cross(s, n)[i] == Cross(r, n)[i][i := Cross(r, n)[i][i] + e[i]]
  {
    assert Cross(s, n)[i] == PlusDiagonal(Cross(r, n), e, n, n)[i];
  }

  /** Row i of transpose(S) S times z. */
  lemma CrossTimes(s: Mat, z: Vec, n: nat, i: nat)
    requires IsMat(s, n, n) && |z| == n && i < n
    ensures Comb(Mul(s, z), s, n)[i] == Dot(Cross(s, n)[i], z)
  {
    CombAt(Mul(s, z), s, n, i);
    Adjoint(Col(s, i), s, z);
    DotCommutes(Mul(s, z), Col(s, i));
  }

  lemma RaisedProduct(g: Vec, z: Vec, i: nat, e: real, q: real)
    requires i < |g| == |z| && q == e * z[i]
    ensures Dot(g[i := g[i] + e], z) == Dot(g, z) + q
  {
    DotUpdate(g, z, i, g[i] + e, z[i]);
    assert z[i := z[i]] == z;
  }

  lemma TriangleIsUpper(cols: Mat, sd: Vec, n: nat)
    requires n == |cols| == |sd| && forall h :: 0 <= h < n ==> |cols[h]| >= n
    ensures UpperTriangular(Triangle(cols, sd, n, n))
  {
    forall i, j | 0 <= j < i < n
      ensures Triangle(cols, sd, n, n)[i][j] == 0.0
    {
      assert Triangle(cols, sd, n, n)[i] == TriangleRow(cols[i], sd, n, n, i);
    }
  }

  /** What qrsolv does: the triangle S with transpose(S) S = transpose(R) R + D^2, a right side w with
      transpose(S) w = transpose(R) b, and the solution z of the leading block of S z = w. S has no zero on the diagonal
      where D has none. */
  ghost predicate Solved(cols0: Mat, cols: Mat, sd: Vec, b: Vec, pd: Vec, z: Vec, n: nat, w: Vec, nsing: nat) {
    && n == |cols| == |cols0| == |sd| == |b| == |pd| == |z|
    && (forall h :: 0 <= h < n ==> |cols[h]| == |cols0[h]| >= n)
    && (forall h, i :: 0 <= h < n && 0 <= i < |cols[h]| && (i <= h || i >= n) ==> cols[h][i] == cols0[h][i])
    && (forall i :: 0 <= i < n && pd[i] != 0.0 ==> sd[i] != 0.0)
    && Completed(Triangle(cols, sd, n, n), w, Factor(cols0, n), b, pd, n)
    && LeadingSolve(Triangle(cols, sd, n, n), w, z, nsing)
  }

  /** S and w have the normal equations of R and b with the rows of D below R. */
  ghost predicate Completed(s: Mat, w: Vec, r: Mat, b: Vec, pd: Vec, n: nat) {
    && IsMat(s, n, n) && IsMat(r, n, n) && |w| == |b| == |pd| == n && UpperTriangular(s)
    && Cross(s, n) == PlusDiagonal(Cross(r, n), Times(pd, pd), n, n) && Comb(w, s, n) == Comb(b, r, n)
  }

  lemma FinishSolve(cols0: Mat, cols: Mat, sd: Vec, w: Vec, b: Vec, pd: Vec, z: Vec, n: nat, nsing: nat)
    requires Completing(cols0, cols, sd, w, b, pd, n, n) && |z| == n
    requires LeadingSolve(Triangle(cols, sd, n, n), w, z, nsing)
    ensures Solved(cols0, cols, sd, b, pd, z, n, w, nsing)
  {
    hide Cross, PlusDiagonal, LeadingSolve;
    TriangleIsUpper(cols, sd, n);
  }

  /** The part of w from component k on. */
  ghost function From(w: Vec, k: nat): (v: Vec)
    ensures |v| == |w| && forall i :: 0 <= i < |w| ==> v[i] == if i < k then 0.0 else w[i]
  {
    seq(|w|, i requires 0 <= i < |w| => if i < k then 0.0 else w[i])
  }

  /** The solution of the leading block solves the least-squares problem if and only if the rows of S beyond the block
      take nothing from the right side there. */
  lemma SolvesExactly(s: Mat, w: Vec, r: Mat, b: Vec, pd: Vec, z: Vec, n: nat, nsing: nat)
    requires Completed(s, w, r, b, pd, n) && LeadingSolve(s, w, z, nsing) && |z| == n
    ensures Augmented(r, pd, b, z) <==> Comb(From(w, nsing), s, n) == Zero(n)
  {
    var v, y := From(w, nsing), Mul(s, z);
    LeadingResidual(s, w, z, nsing);
    assert Axpy(1.0, v, y) == w by {
      PartsAdd(w, v, y, nsing);
    }
    hide Cross, PlusDiagonal, Mul, Comb, From, Axpy, Times;
    SolutionOf(s, r, pd, z, n);
    CombAxpy(1.0, v, y, s, n);
    SumsToZero(Comb(w, s, n), Comb(y, s, n), Comb(v, s, n));
  }

  lemma PartsAdd(w: Vec, v: Vec, y: Vec, k: nat)
    requires |y| == |w| && v == From(w, k) && forall i :: 0 <= i < |w| ==> y[i] == if i < k then w[i] else 0.0
    ensures Axpy(1.0, v, y) == w
  {
  }

  lemma SumsToZero(a: Vec, b: Vec, c: Vec)
    requires |b| == |c| && a == Axpy(1.0, c, b)
    ensures b == a <==> c == Zero(|a|)
  {
    if b == a {
      forall i | 0 <= i < |a|
        ensures c[i] == 0.0
      {
        assert a[i] == b[i];
      }
    }
    if c == Zero(|a|) {
      forall i | 0 <= i < |a|
        ensures a[i] == b[i]
      {
        assert c[i] == 0.0;
      }
    }
  }

  /** A nonsingular S solves it. */
  lemma NonsingularSolves(s: Mat, w: Vec, r: Mat, b: Vec, pd: Vec, z: Vec, n: nat, nsing: nat)
    requires Completed(s, w, r, b, pd, n) && LeadingSolve(s, w, z, nsing) && |z| == n && Nonsingular(s)
    ensures Augmented(r, pd, b, z)
  {
    SolvesExactly(s, w, r, b, pd, z, n, nsing);
    assert From(w, n) == Zero(n);
    CombZero(s, n);
  }

  lemma CombZero(s: Mat, n: nat)
    requires IsMat(s, n, n)
    ensures Comb(Zero(n), s, n) == Zero(n)
  {
    forall i | 0 <= i < n
      ensures Comb(Zero(n), s, n)[i] == 0.0
    {
      CombAt(Zero(n), s, n, i);
      DotRZero(Zero(n), Col(s, i), 0, n);
    }
  }

  /** x[p[j]] = z[j] */
  method PermuteBack(ipvt: seq<int>, z: Vec, x: array<real>)
    requires |z| == x.Length && Numbers(true, ipvt, |z|) && Permutation(Order(true, ipvt, |z|))
    modifies x
    ensures Permuted(x[..], Order(true, ipvt, |z|)) == z
  {
    ghost var p := Order(true, ipvt, |z|);
    for j := 0 to |z|
      invariant forall h :: 0 <= h < j ==> x[p[h]] == z[h]
    {
      x[ipvt[j] - 1] := z[j];
    }
  }

  method Qrsolv(mach: Machine, n: nat, r: array2<real>, ipvt: seq<int>, diag: Vec, qtb: Vec, x: array<real>,
                sdiag: array<real>, wa: array<real>)
    returns (ghost w: Vec, ghost nsing: nat)
    requires mach.Valid() && n == r.Length1 == sdiag.Length == wa.Length == x.Length == |diag| == |qtb| <= r.Length0
    requires sdiag != wa && sdiag != x && x != wa
    requires Numbers(true, ipvt, n) && Permutation(Order(true, ipvt, n))
    modifies r, sdiag, wa, x
    ensures var p := Order(true, ipvt, n);
            Solved(old(ColsOf(r)), ColsOf(r), sdiag[..], qtb, Permuted(diag, p), Permuted(x[..], p), n, w, nsing)
  {
    ghost var cols0, p := ColsOf(r), Order(true, ipvt, n);
    EliminateDiagonal(mach, n, r, ipvt, diag, qtb, x, sdiag, wa);
    w := wa[..];
    var order := SolveTriangle(n, r, sdiag[..], wa);
    nsing := order;
    FinishSolve(cols0, ColsOf(r), sdiag[..], w, qtb, Permuted(diag, p), wa[..], n, nsing);
    PermuteBack(ipvt, wa[..], x);
  }
}
