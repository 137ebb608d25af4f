/** The working storage and the inner iteration shared by lmder and lmdif. */
module Marquardt {
  import opened Reals
  import opened Vectors
  import opened Machines
  import opened Arrays
  import opened Users
  import opened Dogleg
  import opened Qrfac
  import opened Qrsolv
  import opened Levenberg
  import opened Newton
  import opened Lmpar
  import opened LeastSquares
  import opened Scaling
  import opened MarquardtChoice
  import opened MarquardtStep
  import opened ModelDecrease

  /** The arrays a run works in. fjac holds the Jacobian, then the triangular factor on and above its diagonal. */
  class Work {
    const n: nat
    const m: nat
    const x: array<real>
    const fvec: array<real>
    const diag: array<real>
    const qtf: array<real>
    const ipvt: array<int>
    const fjac: array2<real>
    const wa1: array<real>
    const wa2: array<real>
    const wa3: array<real>
    const wa4: array<real>

    constructor (n: nat, m: nat, x: array<real>, fvec: array<real>, diag: array<real>, qtf: array<real>,
                 ipvt: array<int>, fjac: array2<real>, wa1: array<real>, wa2: array<real>, wa3: array<real>,
                 wa4: array<real>)
      ensures this.n == n && this.m == m && this.x == x && this.fvec == fvec && this.diag == diag && this.qtf == qtf
      ensures this.ipvt == ipvt && this.fjac == fjac && this.wa1 == wa1 && this.wa2 == wa2 && this.wa3 == wa3
      ensures this.wa4 == wa4
    {
      this.n, this.m := n, m;
      this.x, this.fvec, this.diag, this.qtf, this.ipvt, this.fjac := x, fvec, diag, qtf, ipvt, fjac;
      this.wa1, this.wa2, this.wa3, this.wa4 := wa1, wa2, wa3, wa4;
    }

    /** Lengths and the absence of aliasing. */
    ghost predicate Apart() {
      && x.Length == diag.Length == qtf.Length == ipvt.Length == wa1.Length == wa2.Length == wa3.Length == n
      && fvec.Length == wa4.Length == m && fjac.Length0 == m && fjac.Length1 == n
      && x != fvec && x != diag && x != qtf && x != wa1 && x != wa2 && x != wa3 && x != wa4
      && fvec != diag && fvec != qtf && fvec != wa1 && fvec != wa2 && fvec != wa3 && fvec != wa4
      && diag != qtf && diag != wa1 && diag != wa2 && diag != wa3 && diag != wa4
      && qtf != wa1 && qtf != wa2 && qtf != wa3 && qtf != wa4
      && wa1 != wa2 && wa1 != wa3 && wa1 != wa4 && wa2 != wa3 && wa2 != wa4 && wa3 != wa4
    }

    /** A problem that can be solved: as many equations as unknowns at least. */
    ghost predicate Shapes() {
      Apart() && 1 <= n <= m
    }
  }

  // ---- one inner iteration ----

  /** fvec and fnorm belong to x. */
  ghost predicate Evaluated(mach: Machine, fcn: Fcn, k: Work, fnorm: real)
    reads k.x, k.fvec
  {
    && mach.Valid() && fcn.Valid() && k.Shapes() && fcn.n == k.n && fcn.m == k.m
    && k.fvec[..] == fcn.f(k.x[..]) && fnorm == mach.Norm(k.fvec[..])
  }

  /** The factorization in the arrays stands for the Jacobian j0 and the vector f; its rank shows on its diagonal. */
  ghost predicate Factored(k: Work, j0: Mat, f: Vec)
    reads k.qtf, k.fjac, k.ipvt
  {
    && k.Shapes() && Numbers(true, k.ipvt[..], k.n) && ZeroRest(Factor(ColsOf(k.fjac), k.n))
    && Represents(j0, f, Factor(ColsOf(k.fjac), k.n), k.qtf[..], Order(true, k.ipvt[..], k.n), k.n, k.m)
  }

  /** The arrays, the Jacobian they stand for and the scalars as a state. */
  ghost function StateOf(k: Work, j0: Mat, gnorm: real, c: Control): (a: State)
    reads k.x, k.diag
  {
    State(k.x[..], k.diag[..], j0, gnorm, c)
  }

  /** The arrays at the head of every inner iteration. */
  ghost predicate Head(mach: Machine, fcn: Fcn, k: Work, c: Control, j0: Mat, gnorm: real)
    reads k.x, k.fvec, k.diag, k.qtf, k.fjac, k.ipvt
  {
    && Evaluated(mach, fcn, k, c.fnorm) && Factored(k, j0, k.fvec[..]) && StateOk(mach, fcn, StateOf(k, j0, gnorm, c))
  }

  /** out = R transpose(P) p, column by column. */
  method FactorTimes(n: nat, r: array2<real>, ipvt: seq<int>, p: Vec, out: array<real>)
    requires n == r.Length1 == |p| == out.Length <= r.Length0 && Numbers(true, ipvt, n)
    requires Permutation(Order(true, ipvt, n))
    modifies out
    ensures out[..] == Mul(Factor(ColsOf(r), n), Permuted(p, Order(true, ipvt, n)))
  {
    ghost var f, z := Factor(ColsOf(r), n), Permuted(p, Order(true, ipvt, n));
    var j := 0;
    while j < n
      invariant j <= n && forall i :: 0 <= i < j ==> out[i] == DotR(f[i], z, 0, j)
    {
      j := AddColumn(n, r, j, p[ipvt[j] - 1], out, z);
    }
    assert out[..] == Mul(f, z);
  }

  /** Column j has been added to the first i components of the sums, the columns before it to all of them. */
  ghost predicate Adding(f: Mat, z: Vec, out: Vec, j: nat, i: nat) {
    && IsMat(f, |z|, |z|) && |out| == |z| && j < |z|
    && forall h :: 0 <= h <= j ==> out[h] == DotR(f[h], z, 0, if h < i then j + 1 else j)
  }

  method AddColumn(n: nat, r: array2<real>, j: nat, temp: real, out: array<real>, ghost z: Vec) returns (j': nat)
    requires j < n == r.Length1 == |z| == out.Length <= r.Length0 && temp == z[j]
    requires forall i :: 0 <= i < j ==> out[i] == DotR(Factor(ColsOf(r), n)[i], z, 0, j)
    modifies out
    ensures j' == j + 1 && forall i :: 0 <= i < j' ==> out[i] == DotR(Factor(ColsOf(r), n)[i], z, 0, j')
  {
    ghost var f := Factor(ColsOf(r), n);
    out[j] := 0.0;
    DotRZero(f[j], z, 0, j);
    var i := 0;
    while i <= j
      invariant i <= j + 1 && Adding(f, z, out[..], j, i)
    {
      i := AddEntry(n, r, j, temp, out, i, f, z);
    }
    j' := j + 1;
  }

  method AddEntry(n: nat, r: array2<real>, j: nat, temp: real, out: array<real>, i: nat, ghost f: Mat, ghost z: Vec)
    returns (i': nat)
    requires i <= j < n == r.Length1 == |z| == out.Length <= r.Length0 && temp == z[j] && f == Factor(ColsOf(r), n)
    requires Adding(f, z, out[..], j, i)
    modifies out
    ensures i' == i + 1 && Adding(f, z, out[..], j, i')
  {
    assert f[i][j] == ColsOf(r)[j][i] == r[i, j];
    out[i] := out[i] + r[i, j] * temp;
    i' := i + 1;
  }

  /** lmpar's direction as a step: wa1 = p, wa2 = x + p; the parameter and the length of D p. */
  method FindStep(mach: Machine, k: Work, c: Control, ghost j0: Mat, ghost f: Vec)
    returns (par: real, pnorm: real, dp: real, ghost x: Vec, ghost q: real)
    requires mach.Valid() && Factored(k, j0, f) && Positive(k.diag[..]) && c.delta > 0.0 && c.par >= 0.0
    modifies k.fjac, k.wa1, k.wa2, k.wa3
    ensures Factored(k, j0, f) && par >= 0.0 && pnorm == ScaledNorm(mach, k.diag[..], k.wa1[..])
    ensures |x| == k.n && k.wa1[..] == Scale(-1.0, x) && k.wa2[..] == Axpy(1.0, k.wa1[..], k.x[..])
    ensures dp == mach.sqrt(par) * pnorm && q == dp * dp
    ensures HasEnergy(Factor(ColsOf(k.fjac), k.n), k.qtf[..], Permuted(x, Order(true, k.ipvt[..], k.n)), q)
    ensures NormalStep(j0, f, k.diag[..], k.wa1[..], par, k.m)
    ensures Chosen(mach, j0, f, k.diag[..], c.delta, c.par, par, k.wa1[..], k.m)
  {
    hide Damped, LeadingSolve, DampedTriangle, Represents, NormalStep, HasEnergy, Factor, Triangle, ZeroRest;
    hide Parameter, Chosen;
    ghost var cols0, ord := ColsOf(k.fjac), Order(true, k.ipvt[..], k.n);
    OrderOf(j0, f, Factor(cols0, k.n), k.qtf[..], ord, k.n, k.m);
    var work := new real[k.n];
    ghost var gn, nsing, s0, s;
    par, gn, nsing, s0, s := Lmpar.Lmpar(mach, k.n, k.fjac, k.ipvt[..], k.diag[..], k.qtf[..], c.delta, c.par, k.wa1,
                                         k.wa2, k.wa3, work);
    x := k.wa1[..];
    ghost var w := Choice(Factor(cols0, k.n), k.qtf[..], ord, gn, nsing, x,
                          Triangle(ColsOf(k.fjac), k.wa2[..], k.n, k.n), s0, s);
    SameFactor(cols0, ColsOf(k.fjac), k.n);
    FormStep(k.x[..], k.diag[..], k.wa1, k.wa2, k.wa3);
    pnorm := mach.Norm(k.wa3[..]);
    dp := mach.sqrt(par) * pnorm;
    q := dp * dp;
    DirectionFound(mach, j0, f, k.n, k.m, k.diag[..], c.delta, c.par, par, k.wa1[..], w, pnorm, dp, q);
  }

  /** Determines the step, evaluates the function there, and measures it. On the first iteration the bound is cut to the
      step. wa1 = p, wa2 = x + p, wa4 = F(x + p). */
  method TryStep(mach: Machine, fcn: Fcn, k: Work, c: Control, calls: nat, ghost j0: Mat, ghost gnorm: real)
    returns (iflag: int, t: Trial, par: real, bound: real)
    requires Head(mach, fcn, k, c, j0, gnorm)
    modifies k.fjac, k.wa1, k.wa2, k.wa3, k.wa4
    ensures Factored(k, j0, k.fvec[..]) && Aimed(mach, fcn, StateOf(k, j0, gnorm, c), par, k.wa1[..])
    ensures iflag == fcn.flag(calls, k.wa2[..]) && k.wa2[..] == Axpy(1.0, k.wa1[..], k.x[..])
    ensures k.wa4[..] == fcn.f(k.wa2[..])
    ensures iflag >= 0 ==> bound == Bound(c, t.pnorm) && Measured(mach, fcn, StateOf(k, j0, gnorm, c), k.wa1[..], t)
  {
    hide Represents, NormalStep, Chosen, HasEnergy, Factor, Exact, LargestCosine, TrialOf;
    var pnorm, dp;
    ghost var x, q;
    par, pnorm, dp, x, q := FindStep(mach, k, c, j0, k.fvec[..]);
    bound := c.delta;
    if c.iter == 1 {
      bound := Min(c.delta, pnorm);
    }
    iflag := Call(fcn, k.wa2[..], k.wa4, calls);
    t := Trial(pnorm, 0.0, 0.0, 0.0, 0.0, 0.0);
    if iflag >= 0 {
      t := Measure(mach, k, c.fnorm, pnorm, dp, j0, x, q);
    }
  }

  /** The reductions of the trial; wa1 = p, wa4 = F(x + p). */
  method Measure(mach: Machine, k: Work, fnorm: real, pnorm: real, dp: real, ghost j0: Mat, ghost x: Vec, ghost q: real)
    returns (t: Trial)
    requires mach.Valid() && Factored(k, j0, k.fvec[..]) && |x| == k.n && k.wa1[..] == Scale(-1.0, x)
    requires HasEnergy(Factor(ColsOf(k.fjac), k.n), k.qtf[..], Permuted(x, Order(true, k.ipvt[..], k.n)), q)
    requires q == dp * dp
    requires fnorm == mach.Norm(k.fvec[..]) > 0.0
    modifies k.wa3
    ensures Exact(j0, k.fvec[..], k.wa1[..], t, k.m) && t.pnorm == pnorm && t.fnorm1 == mach.Norm(k.wa4[..])
    ensures t.prered >= 0.0 && t.dirder <= 0.0
    ensures t.actred == ActualReduction(fnorm, t.fnorm1) && t.ratio == Ratio(t.actred, t.prered)
  {
    hide Represents, HasEnergy, Exact;
    OrderOf(j0, k.fvec[..], Factor(ColsOf(k.fjac), k.n), k.qtf[..], Order(true, k.ipvt[..], k.n), k.n, k.m);
    FactorTimes(k.n, k.fjac, k.ipvt[..], k.wa1[..], k.wa3);
    var jp, fnorm1 := mach.Norm(k.wa3[..]), mach.Norm(k.wa4[..]);
    t := TrialOf(fnorm, pnorm, fnorm1, jp, dp);
    TrialIsExact(mach, j0, k.fvec[..], Factor(ColsOf(k.fjac), k.n), k.qtf[..], Order(true, k.ipvt[..], k.n), x,
                 k.wa1[..], k.n, k.m,
                 fnorm, pnorm, fnorm1, jp, dp, q);
  }

  /** Takes the trial point. */
  method Accept(mach: Machine, k: Work) returns (xnorm: real)
    requires mach.Valid() && k.Shapes()
    modifies k.x, k.wa2, k.fvec
    ensures k.x[..] == old(k.wa2[..]) && k.fvec[..] == k.wa4[..]
    ensures xnorm == ScaledNorm(mach, k.diag[..], k.x[..])
  {
    CopyVector(k.wa2[..], k.x);
    FormScaled(k.diag[..], k.x[..], k.wa2);
    CopyVector(k.wa4[..], k.fvec);
    xnorm := mach.Norm(k.wa2[..]);
  }

  /** Updates the bound and the parameter, and takes the trial point if it is good enough. */
  method Settle(mach: Machine, fcn: Fcn, k: Work, c: Control, t: Trial, par: real, bound: real) returns (d: Control)
    requires Evaluated(mach, fcn, k, c.fnorm) && t.dirder <= 0.0 && bound == Bound(c, t.pnorm)
    requires t.fnorm1 == mach.Norm(k.wa4[..]) && k.wa4[..] == fcn.f(k.wa2[..])
    modifies k.x, k.wa2, k.fvec
    ensures d == After(c, par, t, ScaledNorm(mach, k.diag[..], old(k.wa2[..]))) && Evaluated(mach, fcn, k, d.fnorm)
    ensures k.x[..] == (if Success(t) then old(k.wa2[..]) else old(k.x[..]))
    ensures !Success(t) ==> k.fvec[..] == old(k.fvec[..])
  {
    d := UpdateBound(c.(delta := bound, par := par), c.fnorm, t);
    if Success(t) {
      var xnorm := Accept(mach, k);
      d := d.(xnorm := xnorm, fnorm := t.fnorm1, iter := d.iter + 1);
    }
  }

  /** One pass of the inner loop. Stop carries the user's negative flag when the call at the trial point asks to
      stop. */
  method InnerStep(mach: Machine, fcn: Fcn, k: Work, c: Control, gnorm: real, l: Limits, nfev: nat, calls: nat,
                   ghost j0: Mat)
    returns (d: Control, v: Verdict, ghost s: Step)
    requires Head(mach, fcn, k, c, j0, gnorm) && l.xtol >= 0.0
    modifies k.x, k.fvec, k.fjac, k.wa1, k.wa2, k.wa3, k.wa4
    ensures s.a == old(StateOf(k, j0, gnorm, c)) && Aimed(mach, fcn, s.a, s.par, s.p)
    ensures fcn.flag(calls, s.Point()) < 0 ==> v == Stop(fcn.flag(calls, s.Point())) && d == c && k.x[..] == s.a.x
    ensures fcn.flag(calls, s.Point()) >= 0 ==>
              StepOk(mach, fcn, s) && v == Judge(mach, s.e, s.t, gnorm, l, nfev + 1) && d == s.e && k.x[..] == s.Next()
    ensures Evaluated(mach, fcn, k, d.fnorm)
    ensures v.Again? ==> Head(mach, fcn, k, d, j0, gnorm)
  {
    hide Represents, NormalStep, Chosen, Exact, Factor, LargestCosine, Measured, Aimed, After, Judge;
    ghost var a := StateOf(k, j0, gnorm, c);
    var iflag, t, par, bound;
    iflag, t, par, bound := TryStep(mach, fcn, k, c, calls, j0, gnorm);
    ghost var p := k.wa1[..];
    s := Step(a, par, p, t, c);
    AimedSizes(mach, fcn, a, par, p);
    if iflag < 0 {
      d, v := c, Stop(iflag);
      return;
    }
    MeasuredParts(mach, fcn, a, p, t);
    d := Settle(mach, fcn, k, c, t, par, bound);
    s := Step(a, par, p, t, d);
    v := Judge(mach, d, t, gnorm, l, nfev + 1);
    if v.Again? {
      RejectedState(mach, fcn, s, gnorm, l, nfev + 1);
    }
  }
}
