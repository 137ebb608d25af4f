/** The factored Jacobian approximation Q R that the hybrid solvers keep, and what one rank-one update does to it. */
module Broyden {
  import opened Reals
  import opened Vectors
  import opened Packed
  import opened Machines
  import opened DoglegPath
  import opened Rotations
  import opened R1updt
  import opened Reflectors
  import opened Householder
  import opened OrthogonalFactor
  import opened Qform
  import opened Qrfac

  /** Q R, row by row. */
  ghost function Product(q: Mat, r: Mat, n: nat): (b: Mat)
    requires IsMat(q, n, n) && IsMat(r, n, n)
    ensures IsMat(b, n, n)
    ensures forall a :: 0 <= a < n ==> b[a] == Comb(q[a], r, n)
  {
    seq(n, a requires 0 <= a < n && IsMat(q, n, n) && IsMat(r, n, n) => Comb(q[a], r, n))
  }

  /** B + y transpose(u) */
  ghost function RankOne(b: Mat, y: Vec, u: Vec): (c: Mat)
    requires IsMat(b, |y|, |u|)
    ensures IsMat(c, |y|, |u|)
    ensures forall a :: 0 <= a < |y| ==> c[a] == Axpy(y[a], u, b[a])
  {
    seq(|y|, a requires 0 <= a < |y| && IsMat(b, |y|, |u|) => Axpy(y[a], u, b[a]))
  }

  lemma ProductAt(q: Mat, r: Mat, n: nat, a: nat, i: nat)
    requires IsMat(q, n, n) && IsMat(r, n, n) && a < n && i < n
    ensures Product(q, r, n)[a][i] == Dot(q[a], Col(r, i))
  {
    CombAt(q[a], r, n, i);
  }

  /** (Q R) p = Q (R p) */
  lemma ProductTimes(q: Mat, r: Mat, n: nat, p: Vec)
    requires IsMat(q, n, n) && IsMat(r, n, n) && |p| == n
    ensures Mul(Product(q, r, n), p) == Mul(q, Mul(r, p))
  {
    forall a | 0 <= a < n
      ensures Mul(Product(q, r, n), p)[a] == Mul(q, Mul(r, p))[a]
    {
      Adjoint(q[a], r, p);
    }
  }

  lemma RankOneTimes(b: Mat, y: Vec, u: Vec, p: Vec)
    requires IsMat(b, |y|, |u|) && |p| == |u|
    ensures Mul(RankOne(b, y, u), p) == Axpy(Dot(u, p), y, Mul(b, p))
  {
    forall a | 0 <= a < |y|
      ensures Mul(RankOne(b, y, u), p)[a] == Axpy(Dot(u, p), y, Mul(b, p))[a]
    {
      DotAxpy(y[a], u, b[a], p);
    }
  }

  /** A packed triangle read by rows as R is transpose(R) read by columns. */
  lemma LowerIsUpperColumn(s: seq<real>, n: nat, i: nat)
    requires 1 <= n && |s| >= Slots(n) && i < n
    ensures LowerRow(s, n, n, i) == Col(Upper(s, n), i)
  {
    forall j | 0 <= j < n
      ensures LowerRow(s, n, n, i)[j] == Col(Upper(s, n), i)[j]
    {
      assert Upper(s, n)[j] == UpperRow(s, n, j);
    }
  }

  /** Rotating the rows of Q and the columns of R + v transpose(u) alike turns Q R into Q R + (Q v) transpose(u). */
  lemma UpdatedProduct(q: Mat, q': Mat, r: Mat, r': Mat, u: Vec, v: Vec, n: nat, gs: seq<Givens>)
    requires IsMat(q, n, n) && IsMat(q', n, n) && IsMat(r, n, n) && IsMat(r', n, n) && |u| == |v| == n
    requires AreRotations(gs, n)
    requires forall a :: 0 <= a < n ==> q'[a] == RotAll(gs, q[a])
    requires forall i :: 0 <= i < n ==> Col(r', i) == RotAll(gs, Axpy(u[i], v, Col(r, i)))
    ensures Product(q', r', n) == RankOne(Product(q, r, n), Mul(q, v), u)
  {
    forall a | 0 <= a < n
      ensures Product(q', r', n)[a] == RankOne(Product(q, r, n), Mul(q, v), u)[a]
    {
      forall i | 0 <= i < n
        ensures Product(q', r', n)[a][i] == RankOne(Product(q, r, n), Mul(q, v), u)[a][i]
      {
        UpdatedEntry(q, q', r, r', u, v, n, gs, a, i);
      }
    }
  }

  lemma UpdatedEntry(q: Mat, q': Mat, r: Mat, r': Mat, u: Vec, v: Vec, n: nat, gs: seq<Givens>, a: nat, i: nat)
    requires IsMat(q, n, n) && IsMat(q', n, n) && IsMat(r, n, n) && IsMat(r', n, n) && |u| == |v| == n
    requires AreRotations(gs, n)
    requires a < n && i < n && q'[a] == RotAll(gs, q[a]) && Col(r', i) == RotAll(gs, Axpy(u[i], v, Col(r, i)))
    ensures Product(q', r', n)[a][i] == Product(q, r, n)[a][i] + Mul(q, v)[a] * u[i]
  {
    hide AreRotations, Col, Product, Mul, IsRotation, RotTo, Dot, CombTo;
    ProductAt(q', r', n, a, i);
    ProductAt(q, r, n, a, i);
    RotToIsometry(gs, |gs|, q[a], Axpy(u[i], v, Col(r, i)));
    DotAxpy(u[i], v, Col(r, i), q[a]);
  }

  /** Rotations keep the rows orthonormal. */
  lemma RotatedOrthonormal(q: Mat, q': Mat, n: nat, gs: seq<Givens>)
    requires OrthonormalRows(q, n) && IsMat(q', |q|, n) && AreRotations(gs, n)
    requires forall a :: 0 <= a < |q| ==> q'[a] == RotAll(gs, q[a])
    ensures OrthonormalRows(q', n)
  {
    forall a, b | 0 <= a < |q| && 0 <= b < |q|
      ensures Dot(q'[a], q'[b]) == if a == b then 1.0 else 0.0
    {
      RotToIsometry(gs, |gs|, q[a], q[b]);
    }
  }

  /** transpose(Q) f follows Q when both are rotated. */
  lemma RotatedTransposeTimes(q: Mat, q': Mat, n: nat, gs: seq<Givens>, f: Vec)
    requires IsMat(q, |f|, n) && IsMat(q', |f|, n) && AreRotations(gs, n)
    requires forall a :: 0 <= a < |f| ==> q'[a] == RotAll(gs, q[a])
    ensures Comb(f, q', n) == RotAll(gs, Comb(f, q, n))
  {
    RotComb(gs, f, q, q', n, |f|);
  }

  // ---- the secant condition ----

  function UAt(d: real, p: real, pnorm: real): real
    requires pnorm != 0.0
  {
    d * (d * p / pnorm)
  }

  function VAt(g: real, w: real, pnorm: real): real
    requires pnorm != 0.0
  {
    (g - w) / pnorm
  }

  /** D^2 p / pnorm */
  function UVector(d: Vec, p: Vec, pnorm: real): (u: Vec)
    requires |d| == |p| && pnorm != 0.0
    ensures |u| == |d| && forall j :: 0 <= j < |d| ==> u[j] == UAt(d[j], p[j], pnorm)
  {
    seq(|d|, j requires 0 <= j < |d| && |d| == |p| && pnorm != 0.0 => UAt(d[j], p[j], pnorm))
  }

  /** (g - w) / pnorm */
  function VVector(g: Vec, w: Vec, pnorm: real): (v: Vec)
    requires |g| == |w| && pnorm != 0.0
    ensures |v| == |g| && forall j :: 0 <= j < |g| ==> v[j] == VAt(g[j], w[j], pnorm)
  {
    seq(|g|, j requires 0 <= j < |g| && |g| == |w| && pnorm != 0.0 => VAt(g[j], w[j], pnorm))
  }

  lemma UVectorScaled(d: Vec, p: Vec, pnorm: real)
    requires |d| == |p| && pnorm != 0.0
    ensures Scale(pnorm, UVector(d, p, pnorm)) == Times(d, Times(d, p))
  {
    hide Scale, UVector;
    var u, dp := UVector(d, p, pnorm), Times(d, p);
    forall j | 0 <= j < |d|
      ensures Scale(pnorm, u)[j] == Times(d, dp)[j]
    {
      ScaledComponent(d[j], p[j], pnorm, u[j], dp[j]);
      ScaledEntries(d, dp, u, pnorm, j);
    }
  }

  lemma ScaledEntries(d: Vec, dp: Vec, u: Vec, k: real, j: nat)
    requires |d| == |dp| == |u| && j < |d| && k * u[j] == d[j] * dp[j]
    ensures Scale(k, u)[j] == Times(d, dp)[j]
  {
  }

  lemma ScaledComponent(d: real, p: real, pnorm: real, u: real, dp: real)
    requires pnorm != 0.0 && u == d * (d * p / pnorm) && dp == d * p
    ensures pnorm * u == d * dp
  {
    var q := d * p / pnorm;
    assert q * pnorm == dp;
    MovedFactor(d, q, pnorm, dp, u);
  }

  lemma MovedFactor(d: real, q: real, k: real, e: real, u: real)
    requires q * k == e && u == d * q
    ensures k * u == d * e
  {
    assert k * (d * q) == d * (q * k);
  }

  lemma VVectorScaled(g: Vec, w: Vec, pnorm: real)
    requires |g| == |w| && pnorm != 0.0
    ensures Scale(pnorm, VVector(g, w, pnorm)) == Axpy(-1.0, w, g)
  {
    forall j | 0 <= j < |g|
      ensures Scale(pnorm, VVector(g, w, pnorm))[j] == Axpy(-1.0, w, g)[j]
    {
      QuotientTimes(g[j] - w[j], pnorm, VVector(g, w, pnorm)[j]);
    }
  }

  lemma QuotientTimes(a: real, b: real, v: real)
    requires b != 0.0 && v == a / b
    ensures b * v == a
  {
  }

  /** pnorm is a nonzero number of magnitude |D p|. */
  ghost predicate ScaledLength(d: Vec, p: Vec, pnorm: real) {
    |d| == |p| && pnorm != 0.0 && pnorm * pnorm == Dot(Times(d, p), Times(d, p))
  }

  /** <u, p> = pnorm */
  lemma StepAlongU(d: Vec, p: Vec, pnorm: real, u: Vec)
    requires ScaledLength(d, p, pnorm) && |u| == |d| && Scale(pnorm, u) == Times(d, Times(d, p))
    ensures Dot(u, p) == pnorm
  {
    var dp := Times(d, p);
    forall j | 0 <= j < |u|
      ensures Times(d, dp)[j] * p[j] == dp[j] * dp[j]
    {
      SquareOfScaled(d[j], p[j], dp[j], Times(d, dp)[j]);
    }
    DotRCong(Times(d, dp), p, dp, dp, 0, |u|);
    DotScale(pnorm, u, p);
    CancelFactor(pnorm, Dot(u, p), Dot(dp, dp));
  }

  lemma SquareOfScaled(d: real, p: real, dp: real, s: real)
    requires dp == d * p && s == d * dp
    ensures s * p == dp * dp
  {
    assert d * (d * p) * p == (d * p) * (d * p);
  }

  lemma CancelFactor(k: real, t: real, s: real)
    requires k != 0.0 && k * t == s && k * k == s
    ensures t == k
  {
    assert k * (t - k) == 0.0;
    ZeroProduct(k, t - k);
  }

  /** The residual qtf + R p of the model, and the vector v of the update scaled back. */
  ghost predicate VBehind(q: Mat, r: Mat, qtf: Vec, f': Vec, p: Vec, pnorm: real, v: Vec, n: nat) {
    && IsMat(q, n, n) && IsMat(r, n, n) && |qtf| == |f'| == |p| == |v| == n
    && Scale(pnorm, v) == Axpy(-1.0, Axpy(1.0, Mul(r, p), qtf), Comb(f', q, n))
  }

  /** pnorm Q v = f' - f - B p when Q transpose(Q) = I and qtf = transpose(Q) f. */
  lemma ResidualBehindV(q: Mat, r: Mat, qtf: Vec, f: Vec, f': Vec, p: Vec, pnorm: real, v: Vec, n: nat)
    requires VBehind(q, r, qtf, f', p, pnorm, v, n) && OrthonormalRows(q, n) && |f| == n && qtf == Comb(f, q, n)
    ensures Scale(pnorm, Mul(q, v)) == Axpy(-1.0, Axpy(1.0, Mul(Product(q, r, n), p), f), f')
  {
    var g, h := Comb(f', q, n), Mul(r, p);
    MulScale(q, pnorm, v);
    MulAxpy(q, -1.0, Axpy(1.0, h, qtf), g);
    MulAxpy(q, 1.0, h, qtf);
    OrthonormalRecovers(q, n, f);
    OrthonormalRecovers(q, n, f');
    ProductTimes(q, r, n, p);
  }

  /** The new approximation b' maps the step p to the observed change df, and agrees with b on every direction
      orthogonal to D^2 p. */
  ghost predicate SecantUpdate(b: Mat, b': Mat, d: Vec, p: Vec, df: Vec, n: nat) {
    && IsMat(b, n, n) && IsMat(b', n, n) && |d| == |p| == |df| == n
    && Mul(b', p) == df
    && forall z: Vec {:trigger Mul(b', z)} {:trigger Mul(b, z)} :: |z| == n && Dot(Times(d, Times(d, p)), z) == 0.0 ==>
         Mul(b', z) == Mul(b, z)
  }

  lemma Secant(q: Mat, r: Mat, d: Vec, qtf: Vec, f: Vec, f': Vec, p: Vec, pnorm: real, u: Vec, v: Vec, n: nat)
    requires VBehind(q, r, qtf, f', p, pnorm, v, n) && OrthonormalRows(q, n) && |f| == n && qtf == Comb(f, q, n)
    requires |d| == |u| == n && ScaledLength(d, p, pnorm) && Scale(pnorm, u) == Times(d, Times(d, p))
    ensures SecantUpdate(Product(q, r, n), RankOne(Product(q, r, n), Mul(q, v), u), d, p, Axpy(-1.0, f, f'), n)
  {
    var b, y := Product(q, r, n), Mul(q, v);
    RankOneTimes(b, y, u, p);
    StepAlongU(d, p, pnorm, u);
    ResidualBehindV(q, r, qtf, f, f', p, pnorm, v, n);
    SecantOnStep(b, y, f, f', p, pnorm, n);
    forall z: Vec | |z| == n && Dot(Times(d, Times(d, p)), z) == 0.0
      ensures Mul(RankOne(b, y, u), z) == Mul(b, z)
    {
      DotScale(pnorm, u, z);
      ZeroProduct(pnorm, Dot(u, z));
      RankOneTimes(b, y, u, z);
      assert Axpy(0.0, y, Mul(b, z)) == Mul(b, z);
    }
  }

  lemma SecantOnStep(b: Mat, y: Vec, f: Vec, f': Vec, p: Vec, pnorm: real, n: nat)
    requires IsMat(b, n, n) && |y| == |f| == |f'| == |p| == n
    requires Scale(pnorm, y) == Axpy(-1.0, Axpy(1.0, Mul(b, p), f), f')
    ensures Axpy(pnorm, y, Mul(b, p)) == Axpy(-1.0, f, f')
  {
    forall a | 0 <= a < n
      ensures Axpy(pnorm, y, Mul(b, p))[a] == Axpy(-1.0, f, f')[a]
    {
      assert Scale(pnorm, y)[a] == f'[a] + -1.0 * (f[a] + 1.0 * Mul(b, p)[a]);
    }
  }

  // ---- the factors after an update ----

  /** The rows of q' are those of q, turned by gs. */
  ghost predicate RotatedRows(q: Mat, q': Mat, n: nat, gs: seq<Givens>) {
    && IsMat(q, n, n) && IsMat(q', n, n) && AreRotations(gs, n)
    && forall a :: 0 <= a < n ==> q'[a] == RotAll(gs, q[a])
  }

  /** The packed triangle s' is that of s with v transpose(u) added, its columns turned by gs. */
  ghost predicate RotatedTriangle(s: seq<real>, s': seq<real>, u: Vec, v: Vec, n: nat, gs: seq<Givens>) {
    && 1 <= n == |u| == |v| && |s| == |s'| >= Slots(n) && AreRotations(gs, n)
    && forall i :: 0 <= i < n ==> LowerRow(s', n, n, i) == RotAll(gs, Axpy(u[i], v, LowerRow(s, n, n, i)))
  }

  /** How the factors were updated: R by v transpose(u) and then by the rotations gs. */
  datatype Updating = Updating(u: Vec, v: Vec, gs: seq<Givens>)

  /** Q (R + v transpose(u)) */
  ghost function Formed(q: Mat, s: seq<real>, up: Updating, n: nat): (b: Mat)
    requires IsMat(q, n, n) && |s| >= Slots(n) && |up.u| == |up.v| == n
    ensures IsMat(b, n, n)
  {
    RankOne(Product(q, Upper(s, n), n), Mul(q, up.v), up.u)
  }

  /** The step p with observed change df turns q and the packed s into q' and s': the matrix formed satisfies the secant
      condition, its triangle is turned by the rotations of r1updt's two sweeps, and q by what is replayed of them. */
  ghost predicate FactorsUpdated(mach: Machine, q: Mat, s: seq<real>, d: Vec, p: Vec, df: Vec, q': Mat, s': seq<real>,
                                 n: nat, up: Updating) {
    && Planes(up.gs, n) && RotatedTriangle(s, s', up.u, up.v, n, up.gs)
    && RotatedRows(q, q', n, Replayed(mach, up.gs, n))
    && SecantUpdate(Product(q, Upper(s, n), n), Formed(q, s, up, n), d, p, df, n)
  }

  /** Rotations that are replayed as they were made leave the factors of the matrix formed. */
  lemma FormedProduct(q: Mat, q': Mat, s: seq<real>, s': seq<real>, n: nat, up: Updating)
    requires RotatedRows(q, q', n, up.gs) && RotatedTriangle(s, s', up.u, up.v, n, up.gs)
    ensures Product(q', Upper(s', n), n) == Formed(q, s, up, n)
  {
    ColumnsRotated(s, s', up.u, up.v, n, up.gs);
    UpdatedProduct(q, q', Upper(s, n), Upper(s', n), up.u, up.v, n, up.gs);
  }

  // ---- the approximation that the secant condition fixes ----

  /** Broyden's update: B + (df - B p) transpose(D^2 p) / |D p|^2. */
  ghost function BroydenUpdate(b: Mat, d: Vec, p: Vec, df: Vec): (c: Mat)
    requires IsMat(b, |p|, |p|) && |d| == |df| == |p| && ScaledSquare(d, p) != 0.0
    ensures IsMat(c, |p|, |p|)
  {
    RankOne(b, Axpy(-1.0, Mul(b, p), df), Scale(1.0 / ScaledSquare(d, p), Times(d, Times(d, p))))
  }

  /** The secant condition and the agreement with b on the directions orthogonal to D^2 p leave one matrix. */
  lemma SecantUpdateUnique(b: Mat, b': Mat, d: Vec, p: Vec, df: Vec, n: nat)
    requires SecantUpdate(b, b', d, p, df, n) && ScaledSquare(d, p) != 0.0
    ensures b' == BroydenUpdate(b, d, p, df)
  {
    var c := BroydenUpdate(b, d, p, df);
    forall a, i | 0 <= a < n && 0 <= i < n
      ensures b'[a][i] == c[a][i]
    {
      SecantEntry(b, b', d, p, df, n, a, i);
    }
    forall a | 0 <= a < n
      ensures b'[a] == c[a]
    {
    }
  }

  /** Broyden's update does satisfy it. */
  lemma BroydenMeetsSecant(b: Mat, d: Vec, p: Vec, df: Vec)
    requires IsMat(b, |p|, |p|) && |d| == |df| == |p| && ScaledSquare(d, p) != 0.0
    ensures SecantUpdate(b, BroydenUpdate(b, d, p, df), d, p, df, |p|)
  {
    var w, k := Times(d, Times(d, p)), 1.0 / ScaledSquare(d, p);
    var y, u := Axpy(-1.0, Mul(b, p), df), Scale(k, w);
    LengthAlong(d, p);
    DotScale(k, w, p);
    assert Dot(u, p) == 1.0 by {
      assert k * ScaledSquare(d, p) == 1.0;
    }
    RankOneTimes(b, y, u, p);
    assert BroydenUpdate(b, d, p, df) == RankOne(b, y, u);
    assert Axpy(1.0, y, Mul(b, p)) == df;
    forall z: Vec | |z| == |p| && Dot(w, z) == 0.0
      ensures Mul(RankOne(b, y, u), z) == Mul(b, z)
    {
      DotScale(k, w, z);
      RankOneTimes(b, y, u, z);
      assert Axpy(0.0, y, Mul(b, z)) == Mul(b, z);
    }
  }

  lemma SecantEntry(b: Mat, b': Mat, d: Vec, p: Vec, df: Vec, n: nat, a: nat, i: nat)
    requires SecantUpdate(b, b', d, p, df, n) && ScaledSquare(d, p) != 0.0 && a < n && i < n
    ensures b'[a][i] == BroydenUpdate(b, d, p, df)[a][i]
  {
    hide Mul, Times, BroydenUpdate, RankOne, ScaledSquare;
    var w, s := Times(d, Times(d, p)), ScaledSquare(d, p);
    var t, k := w[i] / s, 1.0 / s;
    Quotients(w[i], s, t, k);
    var z := Axpy(-t, p, Unit(n, i));
    LengthAlong(d, p);
    ComplementDirection(w, p, n, i, t, s, z);
    assert Mul(b', z) == Mul(b, z);
    ImageOfUnit(b', p, n, i, t, z, a);
    ImageOfUnit(b, p, n, i, t, z, a);
    BroydenEntry(b, d, p, df, a, i, k);
    EntryOfUpdate(b'[a][i], b[a][i], t, k, w[i], s, df[a], Mul(b, p)[a], df[a] - Mul(b, p)[a],
                  BroydenUpdate(b, d, p, df)[a][i]);
  }

  lemma Quotients(w: real, s: real, t: real, k: real)
    requires s != 0.0 && t == w / s && k == 1.0 / s
    ensures t * s == w && k * s == 1.0
  {
  }

  lemma BroydenEntry(b: Mat, d: Vec, p: Vec, df: Vec, a: nat, i: nat, k: real)
    requires IsMat(b, |p|, |p|) && |d| == |df| == |p| && ScaledSquare(d, p) != 0.0 && a < |p| && i < |p|
    requires k == 1.0 / ScaledSquare(d, p)
    ensures var w := Times(d, Times(d, p));
      BroydenUpdate(b, d, p, df)[a][i] == (df[a] - Mul(b, p)[a]) * (k * w[i]) + b[a][i]
  {
    hide Mul, ScaledSquare;
    var w, y := Times(d, Times(d, p)), Axpy(-1.0, Mul(b, p), df);
    assert BroydenUpdate(b, d, p, df) == RankOne(b, y, Scale(k, w));
    assert RankOne(b, y, Scale(k, w))[a] == Axpy(y[a], Scale(k, w), b[a]);
    assert y[a] == df[a] - Mul(b, p)[a];
  }

  /** <D^2 p, p> = |D p|^2 */
  lemma LengthAlong(d: Vec, p: Vec)
    requires |d| == |p|
    ensures Dot(Times(d, Times(d, p)), p) == ScaledSquare(d, p)
  {
    var dp := Times(d, p);
    forall j | 0 <= j < |d|
      ensures Times(d, dp)[j] * p[j] == dp[j] * dp[j]
    {
      SquareOfScaled(d[j], p[j], dp[j], Times(d, dp)[j]);
    }
    DotRCong(Times(d, dp), p, dp, dp, 0, |d|);
  }

  lemma ComplementDirection(w: Vec, p: Vec, n: nat, i: nat, t: real, s: real, z: Vec)
    requires |w| == |p| == n && i < n && Dot(w, p) == s && t * s == w[i] && z == Axpy(-t, p, Unit(n, i))
    ensures Dot(w, z) == 0.0
  {
    DotCommutes(w, z);
    DotAxpy(-t, p, Unit(n, i), w);
    DotCommutes(w, p);
    DotUnit(w, i);
    DotCommutes(w, Unit(n, i));
    assert -t * s == -(t * s);
  }

  /** M e = M z + t M p for e = z + t p. */
  lemma ImageOfUnit(m: Mat, p: Vec, n: nat, i: nat, t: real, z: Vec, a: nat)
    requires IsMat(m, n, n) && |p| == n && i < n && a < n && z == Axpy(-t, p, Unit(n, i))
    ensures Mul(m, z)[a] == m[a][i] - t * Mul(m, p)[a]
  {
    MulAxpy(m, -t, p, Unit(n, i));
    DotUnit(m[a], i);
    assert Mul(m, z)[a] == -t * Mul(m, p)[a] + Mul(m, Unit(n, i))[a];
  }

  lemma EntryOfUpdate(b': real, b: real, t: real, k: real, w: real, s: real, df: real, bp: real, y: real, c: real)
    requires b' - t * df == b - t * bp && t * s == w && k * s == 1.0 && y == df - bp && c == y * (k * w) + b
    ensures b' == c
  {
    assert k * w == t by {
      assert k * (t * s) == t * (k * s);
    }
    assert t * y == t * df - t * bp;
  }

  /** When every rotation could be recorded, the new factors are those of Broyden's update of the old product, which
      maps the step to the observed change. */
  lemma FactorsHoldUpdate(mach: Machine, q: Mat, s: seq<real>, d: Vec, p: Vec, df: Vec, q': Mat, s': seq<real>, n: nat,
                          up: Updating)
    requires FactorsUpdated(mach, q, s, d, p, df, q', s', n, up) && NoneFlushed(mach, up.gs)
    requires ScaledSquare(d, p) != 0.0
    ensures Product(q', Upper(s', n), n) == BroydenUpdate(Product(q, Upper(s, n), n), d, p, df)
    ensures Mul(Product(q', Upper(s', n), n), p) == df
  {
    ReplayedFaithfully(mach, up.gs, n);
    FormedProduct(q, q', s, s', n, up);
    SecantUpdateUnique(Product(q, Upper(s, n), n), Formed(q, s, up, n), d, p, df, n);
  }

  lemma ColumnsRotated(s: seq<real>, s': seq<real>, u: Vec, v: Vec, n: nat, gs: seq<Givens>)
    requires RotatedTriangle(s, s', u, v, n, gs)
    ensures forall i :: 0 <= i < n ==> Col(Upper(s', n), i) == RotAll(gs, Axpy(u[i], v, Col(Upper(s, n), i)))
  {
    forall i | 0 <= i < n
      ensures Col(Upper(s', n), i) == RotAll(gs, Axpy(u[i], v, Col(Upper(s, n), i)))
    {
      LowerIsUpperColumn(s, n, i);
      LowerIsUpperColumn(s', n, i);
    }
  }

  // ---- a fresh factorization ----

  /** r is the triangular factor of a factorization held in cols and d. */
  ghost predicate TriangleOf(r: Mat, cols: Mat, d: Vec, n: nat) {
    && IsMat(r, n, n) && IsMat(cols, n, n) && |d| == n
    && forall j :: 0 <= j < n ==> Col(r, j) == TriColumn(cols[j], j, d[j])
  }

  /** Q R is the matrix that was factored, and Q is orthogonal. */
  lemma FreshProduct(j0: Mat, cols: Mat, d: Vec, q: Mat, r: Mat, ipvt: seq<int>, n: nat)
    requires IsMat(j0, n, n) && |d| == n && Factorization(cols, d, j0, Order(false, ipvt, n), n)
    requires ProductOf(q, Factored(cols, n), n) && TriangleOf(r, cols, d, n)
    ensures OrthonormalRows(q, n)
    ensures forall a, j :: 0 <= a < n && 0 <= j < n ==> Product(q, r, n)[a][j] == j0[j][a]
  {
    var us := Factored(cols, n);
    ProductOrthogonal(q, us, n);
    forall a, j | 0 <= a < n && 0 <= j < n
      ensures Product(q, r, n)[a][j] == j0[j][a]
    {
      FreshEntry(j0, cols, d, q, r, ipvt, n, a, j);
    }
  }

  lemma FreshEntry(j0: Mat, cols: Mat, d: Vec, q: Mat, r: Mat, ipvt: seq<int>, n: nat, a: nat, j: nat)
    requires IsMat(j0, n, n) && |d| == n && Factorization(cols, d, j0, Order(false, ipvt, n), n)
    requires ProductOf(q, Factored(cols, n), n) && TriangleOf(r, cols, d, n) && a < n && j < n
    ensures Product(q, r, n)[a][j] == j0[j][a]
  {
    var us := Factored(cols, n);
    ProductAt(q, r, n, a, j);
    ProductActs(q, us, n, Col(r, j));
    assert Mul(q, Col(r, j))[a] == Dot(q[a], Col(r, j));
    assert Col(r, j) == TriColumn(cols[j], j, d[j]) == Forward(us, n, j0[j]);
    BackwardUndoesForward(us, j0[j]);
  }
}
