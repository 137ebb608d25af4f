/** The scaling of the variables and the trial step, as the trust-region solvers form them. */
module Scaling {
  import opened Reals
  import opened Vectors
  import opened Machines
  import opened Arrays
  import opened DoglegPath
  import opened Dogleg

  predicate Positive(d: Vec) {
    forall i :: 0 <= i < |d| ==> d[i] > 0.0
  }

  /** The test of a scale given by the caller. */
  method CheckScale(diag: array<real>) returns (ok: bool)
    ensures ok == Positive(diag[..])
  {
    for j := 0 to diag.Length
      invariant forall i :: 0 <= i < j ==> diag[i] > 0.0
    {
      if diag[j] <= 0.0 {
        assert diag[..][j] <= 0.0;
        return false;
      }
    }
    return true;
  }

  /** The scale from the norm of the Jacobian's column: on the first iteration, and afterwards, unless the caller fixed
      it. */
  function ScaleAt(first: bool, mode: int, norm: real, scale: real): real {
    if mode == 2 then scale else if first then if norm == 0.0 then 1.0 else norm else Max(scale, norm)
  }

  /** The scale of the first iteration when the solver chooses it: the column norms, 1 for a zero column. */
  method SetScale(norms: Vec, diag: array<real>)
    requires |norms| == diag.Length && forall j :: 0 <= j < |norms| ==> norms[j] >= 0.0
    modifies diag
    ensures Positive(diag[..])
    ensures forall j :: 0 <= j < |norms| ==> diag[j] == if norms[j] == 0.0 then 1.0 else norms[j]
  {
    for j := 0 to |norms|
      invariant forall i :: 0 <= i < j ==> diag[i] == if norms[i] == 0.0 then 1.0 else norms[i]
    {
      diag[j] := norms[j];
      if norms[j] == 0.0 {
        diag[j] := 1.0;
      }
    }
  }

  /** The first bound: factor |D x|, or factor itself at the origin. */
  function StartBound(factor: real, xnorm: real): real {
    if factor * xnorm == 0.0 then factor else factor * xnorm
  }

  /** factor |D x| is zero only at the origin. */
  lemma StartMeans(factor: real, xnorm: real)
    requires factor > 0.0 && xnorm >= 0.0
    ensures StartBound(factor, xnorm) == if xnorm > 0.0 then factor * xnorm else factor
  {
    if xnorm > 0.0 {
      PositiveProduct(factor, xnorm, factor * xnorm);
    }
  }

  /** The tests of the scalars and of a scale given by the caller that all the solvers make. */
  predicate Admissible(n: nat, xtol: real, maxfev: int, mode: int, factor: real, diag: Vec) {
    n > 0 && xtol >= 0.0 && maxfev > 0 && factor > 0.0 && (mode == 2 ==> Positive(diag))
  }

  /** Before a Jacobian: the scale, where it is not to be chosen now, is positive. */
  ghost predicate Scalable(iter: nat, mode: int, factor: real, diag: Vec) {
    factor > 0.0 && iter >= 1 && (iter > 1 || mode == 2 ==> Positive(diag))
  }

  /** The bound and the norm of x after a Jacobian: set with the scale on the first iteration, kept afterwards. */
  ghost predicate BoundSet(mach: Machine, iter: nat, delta0: real, xnorm0: real, delta: real, xnorm: real, diag: Vec,
                           x: Vec, factor: real)
    requires mach.Valid() && |diag| == |x|
  {
    if iter > 1 then delta == delta0 && xnorm == xnorm0
    else iter == 1 ==> xnorm == ScaledNorm(mach, diag, x) && delta == StartBound(factor, xnorm) > 0.0
  }

  /** The norm of the scaled x and the initial step bound. */
  method InitialBound(mach: Machine, diag: Vec, x: Vec, factor: real, wa: array<real>)
    returns (delta: real, xnorm: real)
    requires mach.Valid() && |diag| == |x| == wa.Length && factor > 0.0
    modifies wa
    ensures delta > 0.0 && xnorm == ScaledNorm(mach, diag, x)
    ensures delta == StartBound(factor, xnorm)
  {
    FormScaled(diag, x, wa);
    xnorm := mach.Norm(wa[..]);
    delta := factor * xnorm;
    NonnegProduct(factor, xnorm, delta);
    if delta == 0.0 {
      delta := factor;
    }
  }

  /** The scale never shrinks. */
  method Rescale(norms: Vec, diag: array<real>)
    requires |norms| == diag.Length && Positive(diag[..])
    modifies diag
    ensures Positive(diag[..])
    ensures forall j :: 0 <= j < |norms| ==> diag[j] == Max(old(diag[j]), norms[j])
  {
    for j := 0 to |norms|
      invariant forall i :: 0 <= i < j ==> diag[i] == Max(old(diag[i]), norms[i])
      invariant forall i :: j <= i < |norms| ==> diag[i] == old(diag[i])
    {
      diag[j] := Max(diag[j], norms[j]);
    }
  }

  /** The scale follows growing column norms; a scale just chosen stays. */
  method EnlargeScale(norms: Vec, diag: array<real>, mode: int, ghost chosen: bool)
    requires |norms| == diag.Length && Positive(diag[..])
    requires chosen && mode != 2 ==> forall j :: 0 <= j < |norms| ==> diag[j] >= norms[j]
    modifies diag
    ensures Positive(diag[..])
    ensures chosen ==> diag[..] == old(diag[..])
    ensures !chosen ==> forall j :: 0 <= j < |norms| ==> diag[j] == ScaleAt(false, mode, norms[j], old(diag[j]))
  {
    if mode != 2 {
      Rescale(norms, diag);
    }
  }

  /** First scale and bound, wanted while no iteration has succeeded. */
  method StartScale(mach: Machine, x: Vec, norms: Vec, diag: array<real>, mode: int, factor: real, wa: array<real>)
    returns (delta: real, xnorm: real)
    requires mach.Valid() && |x| == |norms| == diag.Length == wa.Length && diag != wa && factor > 0.0
    requires (mode == 2 ==> Positive(diag[..])) && forall j :: 0 <= j < |norms| ==> norms[j] >= 0.0
    modifies diag, wa
    ensures Positive(diag[..])
    ensures forall j :: 0 <= j < |norms| ==> diag[j] == ScaleAt(true, mode, norms[j], old(diag[j]))
    ensures delta > 0.0 && xnorm == ScaledNorm(mach, diag[..], x)
    ensures delta == StartBound(factor, xnorm)
  {
    if mode != 2 {
      SetScale(norms, diag);
    }
    delta, xnorm := InitialBound(mach, diag[..], x, factor, wa);
  }

  /** wa1 = p, wa2 = x + p, wa3 = D p, for the step p that is the negative of the direction in wa1. */
  method FormStep(x: Vec, diag: Vec, wa1: array<real>, wa2: array<real>, wa3: array<real>)
    requires |x| == |diag| == wa1.Length == wa2.Length == wa3.Length && wa1 != wa2 && wa1 != wa3 && wa2 != wa3
    modifies wa1, wa2, wa3
    ensures wa1[..] == Scale(-1.0, old(wa1[..]))
    ensures wa2[..] == Axpy(1.0, wa1[..], x)
    ensures wa3[..] == Times(diag, wa1[..])
  {
    ghost var p := Scale(-1.0, wa1[..]);
    ghost var y, z := Axpy(1.0, p, x), Times(diag, p);
    for j := 0 to |x|
      invariant forall i :: 0 <= i < j ==> wa1[i] == p[i]
      invariant forall i :: j <= i < |x| ==> wa1[i] == old(wa1[i])
      invariant forall i :: 0 <= i < j ==> wa2[i] == y[i]
      invariant forall i :: 0 <= i < j ==> wa3[i] == z[i]
    {
      wa1[j] := -wa1[j];
      assert wa1[j] == p[j];
      wa2[j] := x[j] + wa1[j];
      wa3[j] := diag[j] * wa1[j];
    }
    assert wa1[..] == p && wa2[..] == y && wa3[..] == z;
  }

  /** A step and its negative have the same scaled length. */
  lemma NegatedLength(mach: Machine, d: Vec, x: Vec, p: Vec)
    requires mach.Valid() && |d| == |x| && p == Scale(-1.0, x)
    ensures ScaledNorm(mach, d, p) == ScaledNorm(mach, d, x)
  {
    NegatedScaled(d, x, p);
    RootUnique(ScaledNorm(mach, d, p), ScaledNorm(mach, d, x));
  }

  lemma NegatedScaled(d: Vec, x: Vec, p: Vec)
    requires |d| == |x| && p == Scale(-1.0, x)
    ensures ScaledSquare(d, p) == ScaledSquare(d, x)
  {
    NegatedTimes(d, x, p);
    NegatedSquare(Times(d, x));
  }

  lemma NegatedTimes(d: Vec, x: Vec, p: Vec)
    requires |d| == |x| && p == Scale(-1.0, x)
    ensures Times(d, p) == Scale(-1.0, Times(d, x))
  {
    forall i | 0 <= i < |d|
      ensures Times(d, p)[i] == Scale(-1.0, Times(d, x))[i]
    {
      NegatedProduct(d[i], x[i], p[i]);
    }
  }

  lemma NegatedProduct(d: real, x: real, p: real)
    requires p == -1.0 * x
    ensures d * p == -1.0 * (d * x)
  {
  }

  lemma NegatedSquare(u: Vec)
    ensures Dot(Scale(-1.0, u), Scale(-1.0, u)) == Dot(u, u)
  {
    DotScale(-1.0, u, Scale(-1.0, u));
    DotScale(-1.0, u, u);
  }

  /** A larger scale makes x longer. */
  lemma LongerInLarger(mach: Machine, d: Vec, d': Vec, x: Vec)
    requires mach.Valid() && |d| == |d'| == |x| && forall i :: 0 <= i < |d| ==> 0.0 < d[i] <= d'[i]
    ensures ScaledNorm(mach, d, x) <= ScaledNorm(mach, d', x)
  {
    var u, v := Times(d, x), Times(d', x);
    LargerSquares(u, v, d, d', x, |x|);
    SquareOrder(ScaledNorm(mach, d, x), ScaledNorm(mach, d', x), Dot(u, u), Dot(v, v));
  }

  lemma {:induction false} LargerSquares(u: Vec, v: Vec, d: Vec, d': Vec, x: Vec, k: nat)
    requires |d| == |d'| == |x| && u == Times(d, x) && v == Times(d', x) && k <= |x|
    requires forall i :: 0 <= i < |d| ==> 0.0 < d[i] <= d'[i]
    ensures DotR(u, u, 0, k) <= DotR(v, v, 0, k)
  {
    if k > 0 {
      LargerSquares(u, v, d, d', x, k - 1);
      LargerSquare(d[k - 1], d'[k - 1], x[k - 1], u[k - 1], v[k - 1]);
    }
  }

  lemma LargerSquare(d: real, d': real, x: real, u: real, v: real)
    requires 0.0 < d <= d' && u == d * x && v == d' * x
    ensures u * u <= v * v
  {
    var x2 := x * x;
    SquareSign(x, x2);
    SquareOrder(d, d', d * d, d' * d');
    assert u * u == (d * d) * x2 && v * v == (d' * d') * x2;
    NonnegProduct(d' * d' - d * d, x2, (d' * d' - d * d) * x2);
  }
}
