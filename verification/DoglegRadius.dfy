/** When dogleg's step leaves the trust region: only with a singular R, and exactly by the sign of what the stand-in
    pivots add to the solution. */
module DoglegRadius {
  import opened Reals
  import opened Vectors
  import opened Machines
  import opened DoglegPath
  import opened Dogleg
  import opened DoglegTheorems

  /** The term a stand-in pivot adds to row j of the system. */
  function StandIn(mach: Machine, a: Mat, gn: Vec, j: nat): real
    requires mach.Valid() && IsMat(a, |a|, |a|) && j < |gn| == |a|
  {
    if a[j][j] == 0.0 then Pivot(mach, a, j) * gn[j] else 0.0
  }

  /** What the stand-in pivots of the first k rows contribute to <b, P gn>. */
  ghost function PivotSum(mach: Machine, a: Mat, b: Vec, gn: Vec, k: nat): real
    requires mach.Valid() && IsMat(a, |a|, |a|) && |gn| == |b| == |a| && k <= |a|
  {
    if k == 0 then 0.0 else PivotSum(mach, a, b, gn, k - 1) + b[k - 1] * StandIn(mach, a, gn, k - 1)
  }

  /** The pivoted system has one solution. */
  lemma GaussNewtonUnique(mach: Machine, a: Mat, gn: Vec, gn': Vec)
    requires mach.Valid() && IsMat(a, |a|, |a|) && UpperTriangular(a) && |gn| == |gn'| == |a|
    requires Mul(Pivoted(mach, a), gn) == Mul(Pivoted(mach, a), gn')
    ensures gn == gn'
  {
    var p, z := Pivoted(mach, a), Axpy(-1.0, gn', gn);
    MulAxpy(p, -1.0, gn', gn);
    assert Mul(p, z) == Zero(|a|);
    KernelTrivial(p, z, 0);
    forall i | 0 <= i < |a|
      ensures gn[i] == gn'[i]
    {
      assert z[i] == 0.0;
    }
  }

  /** <b, R gn> falls short of |b|^2 by what the stand-in pivots contribute. */
  lemma PivotsAdd(mach: Machine, a: Mat, b: Vec, gn: Vec)
    requires mach.Valid() && IsMat(a, |a|, |a|) && |gn| == |b| == |a| && Mul(Pivoted(mach, a), gn) == b
    ensures Dot(b, Mul(a, gn)) == Dot(b, b) - PivotSum(mach, a, b, gn, |a|)
  {
    PivotsAddTo(mach, a, b, gn, |a|);
  }

  lemma {:induction false} PivotsAddTo(mach: Machine, a: Mat, b: Vec, gn: Vec, k: nat)
    requires mach.Valid() && IsMat(a, |a|, |a|) && |gn| == |b| == |a| && Mul(Pivoted(mach, a), gn) == b && k <= |a|
    ensures DotR(b, Mul(a, gn), 0, k) == DotR(b, b, 0, k) - PivotSum(mach, a, b, gn, k)
  {
    hide StandIn, Pivoted, Mul;
    if k > 0 {
      var j := k - 1;
      PivotsAddTo(mach, a, b, gn, j);
      PivotRow(mach, a, gn, j);
      assert Mul(Pivoted(mach, a), gn)[j] == b[j];
      RowProduct(b[j], Mul(a, gn)[j], StandIn(mach, a, gn, j));
    }
  }

  lemma RowProduct(b: real, r: real, t: real)
    requires b == r + t
    ensures b * r == b * b - b * t
  {
  }

  /** Row j of P against that of R. */
  lemma PivotRow(mach: Machine, a: Mat, gn: Vec, j: nat)
    requires mach.Valid() && IsMat(a, |a|, |a|) && |gn| == |a| && j < |a|
    ensures Mul(Pivoted(mach, a), gn)[j] == Mul(a, gn)[j] + StandIn(mach, a, gn, j)
  {
    var r, p, n := a[j], Pivoted(mach, a)[j], |a|;
    DotRSplit(r, gn, 0, j, n);
    DotRSplit(p, gn, 0, j, n);
    DotRSplit(r, gn, j, j + 1, n);
    DotRSplit(p, gn, j, j + 1, n);
    DotREqual(r, gn, p, gn, 0, j);
    DotREqual(r, gn, p, gn, j + 1, n);
    assert DotR(r, gn, j, j) == DotR(p, gn, j, j) == 0.0;
  }

  /** The step stays within the bound exactly when, on the last leg, the stand-in pivots do not pull against b. gn is
      the solution of the pivoted system. */
  lemma StepInRadiusExactly(mach: Machine, a: Mat, d: Vec, b: Vec, delta: real, gn: Vec, x: Vec)
    requires mach.Valid() && Inputs(a, d, b, delta) && DoglegStep(mach, a, d, b, delta, gn, x)
    ensures |gn| == |a| == |b|
    ensures ScaledNorm(mach, d, x) <= delta
            <==> (LastLeg(mach, a, d, b, delta, gn) ==> PivotSum(mach, a, b, gn, |b|) >= 0.0)
  {
    hide LastLeg, Blend, Alpha, UnitDirection, ScaledGradient, UpperTriangular, PivotSum;
    StepLength(mach, a, d, b, delta, gn, x);
    PivotsAdd(mach, a, b, gn);
  }

  /** A zero in the last place of the diagonal alone never takes the step out of the region. */
  lemma LastZeroStaysInside(mach: Machine, a: Mat, d: Vec, b: Vec, delta: real, gn: Vec, x: Vec)
    requires mach.Valid() && Inputs(a, d, b, delta) && DoglegStep(mach, a, d, b, delta, gn, x)
    requires forall j :: 0 <= j < |a| - 1 ==> a[j][j] != 0.0
    ensures ScaledNorm(mach, d, x) <= delta
  {
    hide LastLeg, Blend, Alpha, UnitDirection, ScaledGradient, Mul, Pivoted, ScaledNorm, Times;
    StepInRadiusExactly(mach, a, d, b, delta, gn, x);
    var n := |b|;
    if n > 0 {
      NoPivots(mach, a, b, gn, n - 1);
      var p := Pivoted(mach, a)[n - 1];
      assert Mul(Pivoted(mach, a), gn)[n - 1] == b[n - 1];
      DotSuffix(p, gn, n - 1);
      assert DotR(p, gn, n - 1, n - 1) == 0.0;
      assert b[n - 1] == Pivot(mach, a, n - 1) * gn[n - 1];
      SquareSign(b[n - 1], b[n - 1] * b[n - 1]);
    }
  }

  lemma {:induction false} NoPivots(mach: Machine, a: Mat, b: Vec, gn: Vec, k: nat)
    requires mach.Valid() && IsMat(a, |a|, |a|) && |gn| == |b| == |a| && k <= |a|
    requires forall j :: 0 <= j < k ==> a[j][j] != 0.0
    ensures PivotSum(mach, a, b, gn, k) == 0.0
  {
    if k > 0 {
      NoPivots(mach, a, b, gn, k - 1);
    }
  }

  /** For every machine precision the step can leave the region: here R = (0 2; 0 1), b = (1, 1), D = I and delta =
      1. */
  lemma StepCanLeaveRadius(mach: Machine) returns (a: Mat, d: Vec, b: Vec, gn: Vec, x: Vec)
    requires mach.Valid()
    ensures a == [[0.0, 2.0], [0.0, 1.0]] && d == b == [1.0, 1.0] && Inputs(a, d, b, 1.0)
    ensures DoglegStep(mach, a, d, b, 1.0, gn, x) && ScaledNorm(mach, d, x) > 1.0
  {
    a, d, b := [[0.0, 2.0], [0.0, 1.0]], [1.0, 1.0], [1.0, 1.0];
    var i := -1.0 / mach.epsmch;
    gn := [i, 1.0];
    LongSolution(mach, a, gn, i);
    GradientUp(mach, a, d, b);
    ShortCauchy(mach, a);
    LongDirection(mach, d, gn);
    var sg, q := CauchyStep(mach, a, [0.0, 1.0], 3.0), ScaledNorm(mach, d, gn);
    NormZero(mach, b);
    assert b[0] == 1.0;
    var alpha := Alpha(mach, mach.Norm(b), 3.0, q, sg, 1.0);
    x := Blend(GradientWeight(alpha, sg, 1.0), [0.0, 1.0], alpha, gn);
    StepInRadiusExactly(mach, a, d, b, 1.0, gn, x);
    FirstPivotPulls(mach, a, b, gn, i);
  }

  lemma LongSolution(mach: Machine, a: Mat, gn: Vec, i: real)
    requires mach.Valid() && a == [[0.0, 2.0], [0.0, 1.0]] && i == -1.0 / mach.epsmch && gn == [i, 1.0]
    ensures Mul(Pivoted(mach, a), gn) == [1.0, 1.0] && Pivot(mach, a, 0) == mach.epsmch
  {
    assert ColumnMax(a, 0, 0) == 0.0;
    assert ColumnMax(a, 0, 1) == 0.0;
    var p := Pivoted(mach, a);
    assert p[0] == [mach.epsmch, 2.0] && p[1] == [0.0, 1.0];
    Dot2(p[0], gn);
    Dot2(p[1], gn);
    assert mach.epsmch * i == -1.0;
    assert Mul(p, gn)[0] == 1.0 && Mul(p, gn)[1] == 1.0;
  }

  lemma GradientUp(mach: Machine, a: Mat, d: Vec, b: Vec)
    requires mach.Valid() && a == [[0.0, 2.0], [0.0, 1.0]] && d == b == [1.0, 1.0]
    ensures mach.Norm(ScaledGradient(a, d, b)) == 3.0 && UnitDirection(a, d, b, 3.0) == [0.0, 1.0]
  {
    CombAt(b, a, 2, 0);
    CombAt(b, a, 2, 1);
    Dot2(b, Col(a, 0));
    Dot2(b, Col(a, 1));
    var v := ScaledGradient(a, d, b);
    assert v[0] == 0.0 && v[1] == 3.0;
    Dot2(v, v);
    RootUnique(mach.Norm(v), 3.0);
    var w := UnitDirection(a, d, b, 3.0);
    assert w[0] == 0.0 && w[1] == 1.0;
  }

  lemma ShortCauchy(mach: Machine, a: Mat)
    requires mach.Valid() && a == [[0.0, 2.0], [0.0, 1.0]]
    ensures mach.Norm(Mul(a, [0.0, 1.0])) > 0.0 && 0.0 < CauchyStep(mach, a, [0.0, 1.0], 3.0) < 1.0
  {
    var w := [0.0, 1.0];
    Dot2(a[0], w);
    Dot2(a[1], w);
    var z := Mul(a, w);
    assert z[0] == 2.0 && z[1] == 1.0;
    Dot2(z, z);
    var k := mach.Norm(z);
    SquareSign(k, 5.0);
    var sg := 3.0 / k / k;
    DivisionSign(3.0, k, 3.0 / k);
    DivisionSign(3.0 / k, k, sg);
    TwiceDivided(3.0, k, sg, 5.0);
  }

  lemma LongDirection(mach: Machine, d: Vec, gn: Vec)
    requires mach.Valid() && d == [1.0, 1.0] && |gn| == 2 && gn[1] == 1.0 && gn[0] != 0.0
    ensures ScaledNorm(mach, d, gn) > 1.0
  {
    var y := Times(d, gn);
    Dot2(y, y);
    SquareSign(gn[0], gn[0] * gn[0]);
    SquareOrder(1.0, ScaledNorm(mach, d, gn), 1.0, Dot(y, y));
  }

  lemma FirstPivotPulls(mach: Machine, a: Mat, b: Vec, gn: Vec, i: real)
    requires mach.Valid() && a == [[0.0, 2.0], [0.0, 1.0]] && b == [1.0, 1.0] && gn == [i, 1.0]
    requires i == -1.0 / mach.epsmch
    requires Pivot(mach, a, 0) == mach.epsmch
    ensures PivotSum(mach, a, b, gn, 2) == -1.0
  {
    assert mach.epsmch * i == -1.0;
    assert PivotSum(mach, a, b, gn, 0) == 0.0;
    assert PivotSum(mach, a, b, gn, 1) == -1.0;
  }
}
