/** The working storage and the single steps shared by hybrd and hybrj. */
module Hybrid {
  import opened Reals
  import opened Vectors
  import opened Machines
  import opened Packed
  import opened Arrays
  import opened Users
  import opened Rotations
  import opened R1mpyq
  import opened R1updt
  import opened Dogleg
  import opened Reflectors
  import opened Householder
  import opened OrthogonalFactor
  import opened Qform
  import opened Qrfac
  import opened Broyden
  import opened Scaling
  import opened HybridStep

  /** The arrays a run works in. fjac holds the Jacobian, then its reflections, then Q; r the packed triangle R. */
  class Work {
    const n: nat
    const x: array<real>
    const fvec: array<real>
    const diag: array<real>
    const qtf: array<real>
    const r: array<real>
    const fjac: array2<real>
    const wa1: array<real>
    const wa2: array<real>
    const wa3: array<real>
    const wa4: array<real>

    constructor (n: nat, x: array<real>, fvec: array<real>, diag: array<real>, qtf: array<real>, r: array<real>,
                 fjac: array2<real>, wa1: array<real>, wa2: array<real>, wa3: array<real>, wa4: array<real>)
      ensures this.n == n && this.x == x && this.fvec == fvec && this.diag == diag && this.qtf == qtf && this.r == r
      ensures this.fjac == fjac && this.wa1 == wa1 && this.wa2 == wa2 && this.wa3 == wa3 && this.wa4 == wa4
    {
      this.n := n;
      this.x, this.fvec, this.diag, this.qtf, this.r, this.fjac := x, fvec, diag, qtf, r, fjac;
      this.wa1, this.wa2, this.wa3, this.wa4 := wa1, wa2, wa3, wa4;
    }

    /** A solvable problem with room for the packed triangle. */
    ghost predicate Shapes() {
      Apart() && 1 <= n && r.Length >= Slots(n)
    }

    /** Lengths and the absence of aliasing. */
    ghost predicate Apart() {
      && x.Length == fvec.Length == diag.Length == qtf.Length == n
      && fjac.Length0 == fjac.Length1 == n
      && wa1.Length == wa2.Length == wa3.Length == wa4.Length == n
      && x != fvec && x != diag && x != qtf && x != r && x != wa1 && x != wa2 && x != wa3 && x != wa4
      && fvec != diag && fvec != qtf && fvec != r && fvec != wa1 && fvec != wa2 && fvec != wa3 && fvec != wa4
      && diag != qtf && diag != r && diag != wa1 && diag != wa2 && diag != wa3 && diag != wa4
      && qtf != r && qtf != wa1 && qtf != wa2 && qtf != wa3 && qtf != wa4
      && r != wa1 && r != wa2 && r != wa3 && r != wa4
      && wa1 != wa2 && wa1 != wa3 && wa1 != wa4 && wa2 != wa3 && wa2 != wa4 && wa3 != wa4
    }
  }

  // ---- factoring a fresh Jacobian ----

  /** The walk down column j of the packed triangle: row i of the column is followed n - i slots later by row i + 1. */
  method PackColumn(n: nat, fjac: array2<real>, rdiag: Vec, r: array<real>, j: nat)
    requires fjac.Length0 == fjac.Length1 == n == |rdiag| && r.Length >= Slots(n) && j < n
    modifies r
    ensures forall i :: 0 <= i <= j ==> r[Slot(n, j, i)] == TriColumn(ColOf(fjac, j), j, rdiag[j])[i]
    ensures forall c, i :: 0 <= i <= c < n && c != j ==> r[Slot(n, c, i)] == old(r[Slot(n, c, i)])
  {
    var l := j;
    for i := 0 to j
      invariant l == Slot(n, j, i)
      invariant forall k :: 0 <= k < i ==> r[Slot(n, j, k)] == fjac[k, j]
      invariant forall c, k :: 0 <= k <= c < n && c != j ==> r[Slot(n, c, k)] == old(r[Slot(n, c, k)])
    {
      SlotsDiffer(n, j, i);
      r[l] := fjac[i, j];
      l := l + n - (i + 1);
    }
    SlotsDiffer(n, j, j);
    r[l] := rdiag[j];
  }

  lemma SlotsDiffer(n: nat, j: nat, i: nat)
    requires i <= j < n
    ensures forall c, k :: 0 <= k <= c < n && (c != j || k != i) ==> Slot(n, c, k) != Slot(n, j, i)
  {
    forall c, k | 0 <= k <= c < n && (c != j || k != i)
      ensures Slot(n, c, k) != Slot(n, j, i)
    {
      SlotInjective(n, c, k, j, i);
    }
  }

  /** Copies the triangular factor out of fjac and rdiag: every slot is written once. sing records a zero on the
      diagonal. */
  method PackTriangle(n: nat, fjac: array2<real>, rdiag: Vec, r: array<real>) returns (sing: bool)
    requires fjac.Length0 == fjac.Length1 == n == |rdiag| && r.Length >= Slots(n)
    modifies r
    ensures TriangleOf(Upper(r[..], n), ColsOf(fjac), rdiag, n)
    ensures sing <==> exists j :: 0 <= j < n && rdiag[j] == 0.0
  {
    sing := false;
    for j := 0 to n
      invariant sing <==> exists c :: 0 <= c < j && rdiag[c] == 0.0
      invariant forall c, i :: 0 <= i <= c < j ==> r[Slot(n, c, i)] == TriColumn(ColOf(fjac, c), c, rdiag[c])[i]
    {
      PackColumn(n, fjac, rdiag, r, j);
      if rdiag[j] == 0.0 {
        sing := true;
      }
    }
    forall j | 0 <= j < n
      ensures Col(Upper(r[..], n), j) == TriColumn(ColsOf(fjac)[j], j, rdiag[j])
    {
      forall i | 0 <= i < n
        ensures Col(Upper(r[..], n), j)[i] == TriColumn(ColsOf(fjac)[j], j, rdiag[j])[i]
      {
        assert Upper(r[..], n)[i] == UpperRow(r[..], n, i);
      }
    }
  }

  /** Replaces the reflections in fjac by the orthogonal matrix they make. */
  method FormOrthogonal(k: Work, ghost us: Mat)
    requires k.Shapes() && us == Factored(ColsOf(k.fjac), k.n)
    modifies k.fjac, k.wa1
    ensures Stored(us, k.n) && ProductOf(RowsOf(k.fjac), us, k.n)
  {
    hide ProductOf, Backward;
    Qform.Qform(k.n, k.n, k.fjac, k.wa1);
    RowsFromColumns(k.fjac, us, k.n);
  }

  /** Turns the factored Jacobian in fjac and wa1 into Q, R and transpose(Q) f. */
  method SplitFactors(mach: Machine, k: Work, ghost j0: Mat) returns (sing: bool)
    requires mach.Valid() && k.Shapes() && IsMat(j0, k.n, k.n)
    requires Factorization(ColsOf(k.fjac), k.wa1[..], j0, Order(false, [], k.n), k.n)
    modifies k.fjac, k.qtf, k.r, k.wa1
    ensures FactorOk(RowsOf(k.fjac), k.qtf[..], k.fvec[..], k.n)
    ensures forall a, j :: 0 <= a < k.n && 0 <= j < k.n ==>
              Product(RowsOf(k.fjac), Upper(k.r[..], k.n), k.n)[a][j] == j0[j][a]
  {
    hide Factorization, ProductOf, Product, Upper, TriangleOf, Factored, ColsOf, Forward;
    ghost var cols, d := ColsOf(k.fjac), k.wa1[..];
    ghost var us := Factored(cols, k.n);
    CopyVector(k.fvec[..], k.qtf);
    ApplyForward(k.fjac, k.n, k.qtf);
    sing := PackTriangle(k.n, k.fjac, k.wa1[..], k.r);
    FormOrthogonal(k, us);
    FreshProduct(j0, cols, d, RowsOf(k.fjac), Upper(k.r[..], k.n), [], k.n);
    ForwardIsTransposeTimes(RowsOf(k.fjac), us, k.n, k.fvec[..]);
  }

  lemma RowsFromColumns(a: array2<real>, us: Mat, n: nat)
    requires a.Length0 == a.Length1 == n && Stored(us, n)
    requires forall j :: 0 <= j < n ==> ColsOf(a)[j] == Backward(us, 0, Unit(n, j))
    ensures ProductOf(RowsOf(a), us, n)
  {
    forall j | 0 <= j < n
      ensures Col(RowsOf(a), j) == Backward(us, 0, Unit(n, j))
    {
      assert Col(RowsOf(a), j) == ColsOf(a)[j] by {
        forall i | 0 <= i < n
          ensures Col(RowsOf(a), j)[i] == ColsOf(a)[j][i]
        {
          assert RowsOf(a)[i] == RowOf(a, i);
        }
      }
    }
  }

  // ---- one trial step ----

  /** wa3 = qtf + R p */
  method FormModel(k: Work)
    requires k.Shapes()
    modifies k.wa3
    ensures k.wa3[..] == Axpy(1.0, Mul(Upper(k.r[..], k.n), k.wa1[..]), k.qtf[..])
  {
    MultiplyUpper(k.n, k.r[..], k.wa1[..], k.wa3);
    for i := 0 to k.n
      invariant forall l :: 0 <= l < i ==> k.wa3[l] == k.qtf[l] + Mul(Upper(k.r[..], k.n), k.wa1[..])[l]
      invariant forall l :: i <= l < k.n ==> k.wa3[l] == Mul(Upper(k.r[..], k.n), k.wa1[..])[l]
    {
      k.wa3[i] := k.qtf[i] + k.wa3[i];
    }
  }

  /** The arrays and the counters as a state. */
  ghost function StateOf(k: Work, c: Control): (a: State)
    reads k.x, k.diag, k.qtf, k.r, k.fjac
  {
    State(k.x[..], k.diag[..], RowsOf(k.fjac), k.r[..], k.qtf[..], c)
  }

  /** fvec and fnorm belong to x. */
  ghost predicate Evaluated(mach: Machine, fcn: Fcn, k: Work, fnorm: real)
    reads k.x, k.fvec
  {
    && mach.Valid() && fcn.Valid() && k.Shapes() && fcn.n == fcn.m == k.n
    && k.fvec[..] == fcn.f(k.x[..]) && fnorm == mach.Norm(k.fvec[..])
  }

  /** The arrays at the head of every inner iteration. */
  ghost predicate Head(mach: Machine, fcn: Fcn, k: Work, c: Control)
    reads k.x, k.fvec, k.diag, k.qtf, k.r, k.fjac
  {
    Evaluated(mach, fcn, k, c.fnorm) && StateOk(mach, fcn, StateOf(k, c))
  }

  /** Determines the step and evaluates the function there: wa1 = p, wa2 = x + p, wa4 = F(x + p), wa3 = qtf + R p. On
      the first iteration the bound is cut to the step. */
  method TryStep(mach: Machine, fcn: Fcn, k: Work, c: Control, calls: nat)
    returns (iflag: int, t: Trial, bound: real, ghost gn: Vec)
    requires Head(mach, fcn, k, c)
    modifies k.wa1, k.wa2, k.wa3, k.wa4
    ensures Aimed(mach, fcn, StateOf(k, c), gn, k.wa1[..])
    ensures iflag == fcn.flag(calls, k.wa2[..]) && k.wa2[..] == Axpy(1.0, k.wa1[..], k.x[..])
    ensures iflag >= 0 ==> bound == Bound(c, t.pnorm) && t == TrialAt(mach, fcn, StateOf(k, c), k.wa1[..])
    ensures iflag >= 0 ==> k.wa3[..] == Axpy(1.0, Mul(Upper(k.r[..], k.n), k.wa1[..]), k.qtf[..])
    ensures iflag >= 0 ==> k.wa4[..] == fcn.f(k.wa2[..])
  {
    hide DoglegStep, FactorOk, TrialOf, Mul, Upper, StateOk, Aimed, Inputs, TrialAt;
    ghost var a := StateOf(k, c);
    DirectionInputs(mach, fcn, a);
    gn := Dogleg.Dogleg(mach, k.n, k.r[..], k.diag[..], k.qtf[..], c.delta, k.wa1, k.wa2, k.wa3);
    ghost var s := k.wa1[..];
    FormStep(k.x[..], k.diag[..], k.wa1, k.wa2, k.wa3);
    AimedAlong(mach, fcn, a, Upper(k.r[..], k.n), gn, s, k.wa1[..]);
    var pnorm := mach.Norm(k.wa3[..]);
    bound := c.delta;
    if c.iter == 1 {
      bound := Min(c.delta, pnorm);
    }
    iflag := Call(fcn, k.wa2[..], k.wa4, calls);
    t := Trial(pnorm, 0.0, 0.0, 0.0, 0.0);
    if iflag >= 0 {
      var fnorm1 := mach.Norm(k.wa4[..]);
      FormModel(k);
      TrialFrom(mach, fcn, a, k.wa1[..], k.wa4[..], k.wa3[..]);
      t := TrialOf(c.fnorm, pnorm, fnorm1, mach.Norm(k.wa3[..]));
    }
  }

  /** Takes the trial point. */
  method Accept(mach: Machine, k: Work) returns (xnorm: real)
    requires mach.Valid() && k.Shapes()
    modifies k.x, k.wa2, k.fvec
    ensures k.x[..] == old(k.wa2[..]) && k.fvec[..] == k.wa4[..]
    ensures xnorm == ScaledNorm(mach, k.diag[..], k.x[..])
  {
    hide Times, Slots, DotR;
    ghost var y, z := k.wa2[..], Times(k.diag[..], k.wa2[..]);
    for j := 0 to k.n
      invariant forall i :: 0 <= i < j ==> k.x[i] == y[i]
      invariant forall i :: 0 <= i < j ==> k.fvec[i] == k.wa4[i]
      invariant forall i :: 0 <= i < j ==> k.wa2[i] == z[i]
      invariant forall i :: j <= i < k.n ==> k.wa2[i] == y[i]
    {
      k.x[j] := k.wa2[j];
      k.wa2[j] := k.diag[j] * k.x[j];
      k.fvec[j] := k.wa4[j];
    }
    assert k.x[..] == y && k.wa2[..] == z;
    xnorm := mach.Norm(k.wa2[..]);
  }

  // ---- the rank-one update ----

  /** Component j of transpose(Q) f. */
  method TransposeTimesAt(a: array2<real>, f: Vec, j: nat) returns (sum: real)
    requires j < a.Length1 && |f| == a.Length0
    ensures sum == Comb(f, RowsOf(a), a.Length1)[j]
  {
    sum := 0.0;
    ghost var c := Col(RowsOf(a), j);
    for i := 0 to a.Length0
      invariant sum == DotR(f, c, 0, i)
    {
      assert c[i] == RowsOf(a)[i][j] == a[i, j];
      sum := sum + a[i, j] * f[i];
    }
    CombAt(f, RowsOf(a), a.Length1, j);
  }

  /** One component of the update's vectors; the new transpose(Q) f when the step was taken. */
  method FormUpdateAt(k: Work, pnorm: real, accept: bool, j: nat)
    requires k.Shapes() && pnorm != 0.0 && j < k.n
    modifies k.wa1, k.wa2, k.qtf
    ensures k.wa1[..] == old(k.wa1[..])[j := UVector(k.diag[..], old(k.wa1[..]), pnorm)[j]]
    ensures k.wa2[..] == old(k.wa2[..])[j := VVector(Comb(k.wa4[..], RowsOf(k.fjac), k.n), k.wa3[..], pnorm)[j]]
    ensures k.qtf[..] == if accept then old(k.qtf[..])[j := Comb(k.wa4[..], RowsOf(k.fjac), k.n)[j]] else old(k.qtf[..])
  {
    var sum := TransposeTimesAt(k.fjac, k.wa4[..], j);
    k.wa2[j] := VAt(sum, k.wa3[j], pnorm);
    k.wa1[j] := UAt(k.diag[j], k.wa1[j], pnorm);
    if accept {
      k.qtf[j] := sum;
    }
  }

  /** The first j components have been replaced: u over p, v, and g over qtf when the step was taken. */
  ghost predicate Replaced(w1: Vec, w2: Vec, w3: Vec, u: Vec, p: Vec, v: Vec, g: Vec, qtf: Vec, accept: bool, j: nat) {
    && j <= |u| == |p| == |v| == |g| == |qtf| == |w2|
    && w1 == u[..j] + p[j..] && w2[..j] == v[..j] && w3 == if accept then g[..j] + qtf[j..] else qtf
  }

  lemma ReplacedStep(w1: Vec, w2: Vec, w3: Vec, u: Vec, p: Vec, v: Vec, g: Vec, qtf: Vec, accept: bool, j: nat)
    requires Replaced(w1, w2, w3, u, p, v, g, qtf, accept, j) && j < |u|
    ensures Replaced(w1[j := u[j]], w2[j := v[j]], if accept then w3[j := g[j]] else w3, u, p, v, g, qtf, accept, j + 1)
  {
    SliceAdvance(w1, u, p, j);
    PrefixAdvance(w2, v, j);
    if accept {
      SliceAdvance(w3, g, qtf, j);
    }
  }

  method FormUpdateStep(k: Work, pnorm: real, accept: bool, j: nat, ghost u: Vec, ghost p: Vec, ghost v: Vec,
                        ghost g: Vec, ghost qtf: Vec)
    requires k.Shapes() && pnorm != 0.0 && j < k.n == |p| && g == Comb(k.wa4[..], RowsOf(k.fjac), k.n)
    requires u == UVector(k.diag[..], p, pnorm) && v == VVector(g, k.wa3[..], pnorm)
    requires Replaced(k.wa1[..], k.wa2[..], k.qtf[..], u, p, v, g, qtf, accept, j)
    modifies k.wa1, k.wa2, k.qtf
    ensures Replaced(k.wa1[..], k.wa2[..], k.qtf[..], u, p, v, g, qtf, accept, j + 1)
  {
    UVectorLocal(k.diag[..], p, k.wa1[..], pnorm, j);
    ReplacedStep(k.wa1[..], k.wa2[..], k.qtf[..], u, p, v, g, qtf, accept, j);
    FormUpdateAt(k, pnorm, accept, j);
  }

  method FormUpdate(k: Work, pnorm: real, accept: bool)
    requires k.Shapes() && pnorm != 0.0
    modifies k.wa1, k.wa2, k.qtf
    ensures k.wa1[..] == UVector(k.diag[..], old(k.wa1[..]), pnorm)
    ensures k.wa2[..] == VVector(Comb(k.wa4[..], RowsOf(k.fjac), k.n), k.wa3[..], pnorm)
    ensures k.qtf[..] == if accept then Comb(k.wa4[..], RowsOf(k.fjac), k.n) else old(k.qtf[..])
  {
    ghost var p, qtf := k.wa1[..], k.qtf[..];
    ghost var g := Comb(k.wa4[..], RowsOf(k.fjac), k.n);
    ghost var u, v := UVector(k.diag[..], p, pnorm), VVector(g, k.wa3[..], pnorm);
    for j := 0 to k.n
      invariant Replaced(k.wa1[..], k.wa2[..], k.qtf[..], u, p, v, g, qtf, accept, j)
    {
      FormUpdateStep(k, pnorm, accept, j, u, p, v, g, qtf);
    }
    assert u[..k.n] == u && v[..k.n] == v && g[..k.n] == g;
  }

  lemma SliceAdvance(w: Vec, u: Vec, p: Vec, j: nat)
    requires j < |u| == |p| && w == u[..j] + p[j..]
    ensures w[j := u[j]] == u[..j + 1] + p[j + 1..]
  {
  }

  lemma PrefixAdvance(w: Vec, v: Vec, j: nat)
    requires j < |v| == |w| && w[..j] == v[..j]
    ensures w[j := v[j]][..j + 1] == v[..j + 1]
  {
  }

  /** A component of u depends on that component of p alone. */
  lemma UVectorLocal(d: Vec, p: Vec, p': Vec, pnorm: real, j: nat)
    requires |d| == |p| == |p'| && pnorm != 0.0 && j < |d| && p[j] == p'[j]
    ensures UVector(d, p, pnorm)[j] == UVector(d, p', pnorm)[j]
  {
  }

  /** Updates R by a rank-one term, and Q and transpose(Q) f by the rotations that brought R back to triangular form. Q
      stays orthogonal whether or not they could all be recorded. */
  method RankOneUpdate(mach: Machine, k: Work, pnorm: real, accept: bool, ghost f0: Vec)
    returns (sing: bool, ghost up: Updating)
    requires mach.Valid() && k.Shapes() && pnorm == ScaledNorm(mach, k.diag[..], k.wa1[..]) && pnorm != 0.0
    requires FactorOk(RowsOf(k.fjac), k.qtf[..], f0, k.n)
    requires k.wa3[..] == Axpy(1.0, Mul(Upper(k.r[..], k.n), k.wa1[..]), k.qtf[..])
    requires k.fvec[..] == if accept then k.wa4[..] else f0
    modifies k.wa1, k.wa2, k.wa3, k.qtf, k.r, k.fjac
    ensures FactorOk(RowsOf(k.fjac), k.qtf[..], k.fvec[..], k.n)
    ensures FactorsUpdated(mach, old(RowsOf(k.fjac)), old(k.r[..]), k.diag[..], old(k.wa1[..]),
                           Axpy(-1.0, f0, k.wa4[..]),
                           RowsOf(k.fjac), k.r[..], k.n, up)
  {
    hide Replayed, Times, OrthonormalRows, Comb, IsMat, Dot, UpperRow, Off, Planes, RotatedTriangle, RotatedRows;
    hide SecantUpdate, Product;
    ghost var n, q, s0, p, qtf0 := k.n, RowsOf(k.fjac), k.r[..], k.wa1[..], k.qtf[..];
    LengthOfStep(mach, k.diag[..], p, pnorm);
    FormUpdate(k, pnorm, accept);
    ghost var u, v, qtf1 := k.wa1[..], k.wa2[..], k.qtf[..];
    VectorsFormed(q, Upper(s0, n), k.diag[..], qtf0, k.wa4[..], p, pnorm, n);
    ghost var gs;
    sing, gs := Retriangulate(mach, k);
    up := Updating(u, v, gs);
    RotatedFactors(q, RowsOf(k.fjac), n, Replayed(mach, gs, n), qtf1, k.qtf[..], k.fvec[..]);
    Secant(q, Upper(s0, n), k.diag[..], qtf0, f0, k.wa4[..], p, pnorm, u, v, n);
  }

  lemma LengthOfStep(mach: Machine, d: Vec, p: Vec, pnorm: real)
    requires mach.Valid() && |d| == |p| && pnorm == ScaledNorm(mach, d, p) && pnorm != 0.0
    ensures ScaledLength(d, p, pnorm)
  {
  }

  lemma VectorsFormed(q: Mat, r: Mat, d: Vec, qtf: Vec, f': Vec, p: Vec, pnorm: real, n: nat)
    requires IsMat(q, n, n) && IsMat(r, n, n) && |d| == |qtf| == |f'| == |p| == n && pnorm != 0.0
    ensures Scale(pnorm, UVector(d, p, pnorm)) == Times(d, Times(d, p))
    ensures VBehind(q, r, qtf, f', p, pnorm, VVector(Comb(f', q, n), Axpy(1.0, Mul(r, p), qtf), pnorm), n)
  {
    UVectorScaled(d, p, pnorm);
    VVectorScaled(Comb(f', q, n), Axpy(1.0, Mul(r, p), qtf), pnorm);
  }

  /** r1updt on R, then r1mpyq on Q and on transpose(Q) f. */
  method Retriangulate(mach: Machine, k: Work) returns (sing: bool, ghost gs: seq<Givens>)
    requires mach.Valid() && k.Shapes()
    modifies k.wa2, k.wa3, k.qtf, k.r, k.fjac
    ensures Planes(gs, k.n) && AreRotations(Replayed(mach, gs, k.n), k.n)
    ensures RotatedRows(old(RowsOf(k.fjac)), RowsOf(k.fjac), k.n, Replayed(mach, gs, k.n))
    ensures k.qtf[..] == RotAll(Replayed(mach, gs, k.n), old(k.qtf[..]))
    ensures RotatedTriangle(old(k.r[..]), k.r[..], k.wa1[..], old(k.wa2[..]), k.n, gs)
  {
    sing, gs := R1updt.R1updt(mach, k.n, k.n, k.r, k.wa1[..], k.wa2, k.wa3);
    RecordedAreRotations(mach, k.n, k.wa2[..], k.wa3[..]);
    R1mpyq.R1mpyq(mach, k.n, k.fjac, k.wa2[..], k.wa3[..]);
    R1mpyqRow(mach, k.n, k.qtf, k.wa2[..], k.wa3[..]);
  }

  lemma RotatedFactors(q: Mat, q': Mat, n: nat, gs: seq<Givens>, qtf: Vec, qtf': Vec, f: Vec)
    requires FactorOk(q, qtf, f, n) && RotatedRows(q, q', n, gs) && qtf' == RotAll(gs, qtf)
    ensures FactorOk(q', qtf', f, n)
  {
    RotatedOrthonormal(q, q', n, gs);
    RotatedTransposeTimes(q, q', n, gs, f);
  }

  // ---- one inner iteration ----

  /** Updates the bound, takes the trial point if it is good enough, and updates the counters. */
  method Settle(mach: Machine, fcn: Fcn, k: Work, t: Trial, c: Control, bound: real) returns (d: Control)
    requires Evaluated(mach, fcn, k, c.fnorm) && bound == Bound(c, t.pnorm)
    requires t.fnorm1 == mach.Norm(k.wa4[..]) && k.wa4[..] == fcn.f(k.wa2[..])
    modifies k.x, k.wa2, k.fvec
    ensures d == After(c, t, ScaledNorm(mach, k.diag[..], old(k.wa2[..]))) && Evaluated(mach, fcn, k, d.fnorm)
    ensures k.x[..] == (if Success(t) then old(k.wa2[..]) else old(k.x[..]))
    ensures k.fvec[..] == if Success(t) then k.wa4[..] else old(k.fvec[..])
  {
    d := UpdateBound(c.(delta := bound), t);
    if Success(t) {
      var xnorm := Accept(mach, k);
      d := d.(xnorm := xnorm, fnorm := t.fnorm1, iter := d.iter + 1);
    }
    d := NoteProgress(d, t.actred);
  }

  /** The arrays after the trial of s has been settled and before the factors are updated. */
  ghost predicate Settled(mach: Machine, fcn: Fcn, k: Work, s: Step)
    requires StepOk(mach, fcn, s) && k.Shapes() && |s.a.x| == k.n
    reads k.x, k.fvec, k.diag, k.qtf, k.r, k.fjac, k.wa1, k.wa3, k.wa4
  {
    && StateOf(k, s.e) == s.a.(x := s.Next(), c := s.e) && k.wa1[..] == s.p && k.wa4[..] == fcn.f(s.Point())
    && k.wa3[..] == Axpy(1.0, Mul(Upper(s.a.r, k.n), s.p), s.a.qtf) && k.fvec[..] == fcn.f(s.Next())
  }

  /** The rank-one update restores the head of the inner loop. */
  method Renew(mach: Machine, fcn: Fcn, k: Work, ghost s: Step, pnorm: real, accept: bool, d: Control)
    returns (ghost up: Updating)
    requires StepOk(mach, fcn, s) && k.Shapes() && |s.a.x| == k.n && Settled(mach, fcn, k, s)
    requires pnorm == s.t.pnorm != 0.0 && accept == Success(s.t) && d == s.e && d.delta > 0.0
    modifies k.wa1, k.wa2, k.wa3, k.qtf, k.r, k.fjac
    ensures Head(mach, fcn, k, d.(jeval := false)) && FactorsFollow(mach, fcn, s, RowsOf(k.fjac), k.r[..], up)
  {
    hide DoglegStep, TrialOf, Mul, Upper, FactorsUpdated, After, FactorOk, Inputs;
    var sing;
    StepSizes(mach, fcn, s);
    StepFactors(mach, fcn, s);
    hide StepOk, StateOk;
    StepAdvances(mach, fcn, s);
    sing, up := RankOneUpdate(mach, k, pnorm, accept, fcn.f(s.a.x));
    CarriedState(mach, fcn, s, StateOf(k, d.(jeval := false)));
  }

  /** The rest of a pass, after the function has been evaluated at the trial point. */
  method Conclude(mach: Machine, fcn: Fcn, k: Work, c: Control, t: Trial, bound: real, ghost gn: Vec, xtol: real,
                  nfev: nat, maxfev: int)
    returns (d: Control, v: Verdict, ghost s: Step, ghost up: Updating)
    requires Head(mach, fcn, k, c) && xtol >= 0.0 && Aimed(mach, fcn, StateOf(k, c), gn, k.wa1[..])
    requires k.wa2[..] == Axpy(1.0, k.wa1[..], k.x[..]) && k.wa4[..] == fcn.f(k.wa2[..])
    requires bound == Bound(c, t.pnorm) && t == TrialAt(mach, fcn, StateOf(k, c), k.wa1[..])
    requires k.wa3[..] == Axpy(1.0, Mul(Upper(k.r[..], k.n), k.wa1[..]), k.qtf[..])
    modifies k.x, k.fvec, k.qtf, k.r, k.fjac, k.wa1, k.wa2, k.wa3
    ensures s.a == old(StateOf(k, c)) && s.p == old(k.wa1[..]) && s.gn == gn && StepOk(mach, fcn, s)
    ensures v == Ruling(mach, s, xtol, nfev, maxfev) && k.x[..] == s.Next()
    ensures d == (if v.Update? then s.e.(jeval := false) else s.e) && Evaluated(mach, fcn, k, d.fnorm)
    ensures v.Update? ==> Head(mach, fcn, k, d) && FactorsFollow(mach, fcn, s, RowsOf(k.fjac), k.r[..], up)
  {
    hide DoglegStep, FactorOk, TrialOf, Mul, Upper, After, Judge, FactorsUpdated;
    ghost var a, p := StateOf(k, c), k.wa1[..];
    d := Settle(mach, fcn, k, t, c, bound);
    s, up := Step(a, gn, p, t, d), Updating([], [], []);
    v := Judge(mach, d, t.pnorm, xtol, nfev, maxfev);
    if v.Update? {
      if t.pnorm == 0.0 {
        v := Undefined;
      } else {
        BoundPositive(mach, fcn, s, xtol, nfev, maxfev);
        up := Renew(mach, fcn, k, s, t.pnorm, Success(t), d);
        d := d.(jeval := false);
      }
    }
  }

  /** One pass of the inner loop. Stop carries the user's negative flag when the call at the trial point asks to
      stop. */
  method InnerStep(mach: Machine, fcn: Fcn, k: Work, c: Control, xtol: real, nfev: nat, maxfev: int, calls: nat)
    returns (d: Control, v: Verdict, ghost s: Step, ghost up: Updating)
    requires Head(mach, fcn, k, c) && xtol >= 0.0
    modifies k.x, k.fvec, k.qtf, k.r, k.fjac, k.wa1, k.wa2, k.wa3, k.wa4
    ensures s.a == old(StateOf(k, c)) && Aimed(mach, fcn, s.a, s.gn, s.p)
    ensures fcn.flag(calls, s.Point()) < 0 ==> v == Stop(fcn.flag(calls, s.Point())) && d == c && StateOf(k, c) == s.a
    ensures fcn.flag(calls, s.Point()) >= 0 ==>
              StepOk(mach, fcn, s) && v == Ruling(mach, s, xtol, nfev + 1, maxfev) && k.x[..] == s.Next()
              && d == (if v.Update? then s.e.(jeval := false) else s.e)
    ensures Evaluated(mach, fcn, k, d.fnorm)
    ensures v.Update? ==> Head(mach, fcn, k, d) && FactorsFollow(mach, fcn, s, RowsOf(k.fjac), k.r[..], up)
  {
    hide DoglegStep, FactorOk, TrialOf, Mul, Upper, After, Judge, FactorsUpdated, StateOk, FactorsFollow;
    var iflag, t, bound;
    ghost var gn;
    iflag, t, bound, gn := TryStep(mach, fcn, k, c, calls);
    if iflag < 0 {
      d, v, s, up := c, Stop(iflag), Step(StateOf(k, c), gn, k.wa1[..], t, c), Updating([], [], []);
    } else {
      d, v, s, up := Conclude(mach, fcn, k, c, t, bound, gn, xtol, nfev + 1, maxfev);
    }
  }
}
