/** dogleg on a triangle whose only entry is the last diagonal one. */
module CornerSteps {
  import opened Reals
  import opened Vectors
  import opened Machines
  import opened DoglegPath
  import opened Dogleg
  import opened DoglegTheorems
  import opened DoglegZero

  function Corner(k: real): (a: Mat) {
    [[0.0, 0.0, 0.0], [0.0, 0.0, 0.0], [0.0, 0.0, k]]
  }

  lemma CornerInputs(k: real, b: Vec, delta: real)
    requires |b| == 3 && delta > 0.0
    ensures Inputs(Corner(k), ONES, b, delta)
  {
  }

  lemma CornerPivots(mach: Machine, k: real)
    requires mach.Valid() && k != 0.0
    ensures Pivoted(mach, Corner(k)) == [[mach.epsmch, 0.0, 0.0], [0.0, mach.epsmch, 0.0], [0.0, 0.0, k]]
  {
    var a := Corner(k);
    ZeroColumnPivot(mach, a, 0);
    ZeroColumnPivot(mach, a, 1);
    hide Pivot, Pivoted;
    var p := Pivoted(mach, a);
    assert p[0] == [mach.epsmch, 0.0, 0.0];
    assert p[1] == [0.0, mach.epsmch, 0.0];
    assert p[2] == [0.0, 0.0, k];
  }

  lemma ZeroColumnPivot(mach: Machine, a: Mat, j: nat)
    requires mach.Valid() && IsMat(a, 3, 3) && j < 2 && a[0][j] == a[1][j] == a[2][j] == 0.0
    ensures Pivot(mach, a, j) == mach.epsmch
  {
    assert ColumnMax(a, j, 0) == 0.0;
    assert ColumnMax(a, j, 1) == 0.0;
    assert ColumnMax(a, j, 2) == 0.0;
  }

  /** The direction dogleg tries first. */
  function FirstDirection(mach: Machine, b: Vec, z: real): (gn: Vec)
    requires mach.Valid() && |b| == 3
  {
    [b[0] / mach.epsmch, b[1] / mach.epsmch, z]
  }

  lemma CornerSolved(mach: Machine, k: real, b: Vec, z: real)
    requires mach.Valid() && k != 0.0 && |b| == 3 && k * z == b[2]
    ensures Mul(Pivoted(mach, Corner(k)), FirstDirection(mach, b, z)) == b
  {
    CornerPivots(mach, k);
    hide Pivoted;
    var p, gn := Pivoted(mach, Corner(k)), FirstDirection(mach, b, z);
    Dot3(p[0], gn);
    Dot3(p[1], gn);
    Dot3(p[2], gn);
    DividedTimes(b[0], mach.epsmch, gn[0]);
    DividedTimes(b[1], mach.epsmch, gn[1]);
    assert Mul(p, gn)[0] == b[0] && Mul(p, gn)[1] == b[1] && Mul(p, gn)[2] == b[2];
  }

  lemma DividedTimes(a: real, b: real, q: real)
    requires b != 0.0 && q == a / b
    ensures b * q == a && (a != 0.0 ==> q != 0.0)
  {
  }

  /** It is too long. */
  lemma FirstTooLong(mach: Machine, b: Vec, z: real, delta: real)
    requires mach.Valid() && |b| == 3 && b[0] != 0.0 && 0.0 < delta <= z
    ensures ScaledNorm(mach, ONES, FirstDirection(mach, b, z)) > delta
  {
    var gn := FirstDirection(mach, b, z);
    DividedTimes(b[0], mach.epsmch, gn[0]);
    UnitScale(gn);
    Dot3(gn, gn);
    SquareSign(gn[0], gn[0] * gn[0]);
    SquareSign(gn[1], gn[1] * gn[1]);
    SquareOrder(delta, z, delta * delta, z * z);
    SquareOrder(delta, ScaledNorm(mach, ONES, gn), delta * delta, Dot(gn, gn));
  }

  lemma UnitScale(x: Vec)
    requires |x| == 3
    ensures Times(ONES, x) == x
  {
    forall i | 0 <= i < 3
      ensures Times(ONES, x)[i] == x[i]
    {
    }
  }

  /** A vector along the last axis has the length of its last component. */
  lemma LastAxis(mach: Machine, x: Vec)
    requires mach.Valid() && |x| == 3 && x[0] == 0.0 && x[1] == 0.0
    ensures mach.Norm(x) == Abs(x[2]) == ScaledNorm(mach, ONES, x)
  {
    UnitScale(x);
    Dot3(x, x);
    SquareAbs(x[2]);
    RootUnique(mach.Norm(x), Abs(x[2]));
  }

  lemma CornerGradient(mach: Machine, k: real, b: Vec)
    requires mach.Valid() && k > 0.0 && |b| == 3 && b[2] > 0.0
    ensures Inputs(Corner(k), ONES, b, 1.0) && ScaledGradient(Corner(k), ONES, b) == [0.0, 0.0, k * b[2]]
    ensures GradientNorm(mach, Corner(k), ONES, b) == k * b[2] > 0.0
    ensures UnitDirection(Corner(k), ONES, b, k * b[2]) == [0.0, 0.0, 1.0]
  {
    hide Comb, Inputs, IsMat;
    CornerInputs(k, b, 1.0);
    PositiveProduct(k, b[2], k * b[2]);
    CornerSlope(k, b);
    hide ScaledGradient;
    LastAxis(mach, [0.0, 0.0, k * b[2]]);
    var w := UnitDirection(Corner(k), ONES, b, k * b[2]);
    assert w[0] == 0.0 && w[1] == 0.0 && w[2] == 1.0;
  }

  lemma CornerSlope(k: real, b: Vec)
    requires |b| == 3
    ensures Inputs(Corner(k), ONES, b, 1.0) && ScaledGradient(Corner(k), ONES, b) == [0.0, 0.0, k * b[2]]
  {
    CornerInputs(k, b, 1.0);
    hide Comb;
    var a := Corner(k);
    CombAt(b, a, 3, 0);
    CombAt(b, a, 3, 1);
    CombAt(b, a, 3, 2);
    Dot3(b, Col(a, 0));
    Dot3(b, Col(a, 1));
    Dot3(b, Col(a, 2));
    var v := ScaledGradient(a, ONES, b);
    assert v[0] == 0.0 && v[1] == 0.0 && v[2] == k * b[2];
  }

  /** R y for the triangle. */
  lemma CornerTimes(k: real, y: Vec)
    requires |y| == 3
    ensures Mul(Corner(k), y) == [0.0, 0.0, k * y[2]]
  {
    var a := Corner(k);
    Dot3(a[0], y);
    Dot3(a[1], y);
    Dot3(a[2], y);
    assert Mul(a, y)[0] == 0.0 && Mul(a, y)[1] == 0.0 && Mul(a, y)[2] == k * y[2];
  }

  lemma CornerCauchy(mach: Machine, k: real, z: real, g: real)
    requires mach.Valid() && k > 0.0 && g == k * (k * z)
    ensures mach.Norm(Mul(Corner(k), [0.0, 0.0, 1.0])) == k && CauchyStep(mach, Corner(k), [0.0, 0.0, 1.0], g) == z
  {
    CornerTimes(k, [0.0, 0.0, 1.0]);
    hide Mul;
    LastAxis(mach, [0.0, 0.0, k * 1.0]);
    TwiceOver(g, k, z);
  }

  lemma TwiceOver(g: real, k: real, z: real)
    requires k > 0.0 && g == k * (k * z)
    ensures g / k / k == z
  {
    Quotient(g, k, k * z);
    Quotient(k * z, k, z);
  }

  /** While the bound is at most z, where k z = b[2], the step goes along the last axis to the bound. */
  lemma CornerStep(mach: Machine, k: real, b: Vec, z: real, delta: real)
    requires mach.Valid() && k > 0.0 && |b| == 3 && b[0] != 0.0 && b[2] > 0.0 && k * z == b[2] && 0.0 < delta <= z
    ensures Inputs(Corner(k), ONES, b, delta)
    ensures DoglegStep(mach, Corner(k), ONES, b, delta, FirstDirection(mach, b, z), [0.0, 0.0, delta])
  {
    hide Mul, ScaledGradient, UnitDirection, CauchyStep, Pivoted, ScaledNorm, Corner;
    var gn, w := FirstDirection(mach, b, z), [0.0, 0.0, 1.0];
    CornerInputs(k, b, delta);
    CornerSolved(mach, k, b, z);
    FirstTooLong(mach, b, z, delta);
    CornerGradient(mach, k, b);
    CornerCauchy(mach, k, z, k * b[2]);
    NormZero(mach, b);
    assert b != Zero(3);
    var x := Blend(GradientWeight(0.0, z, delta), w, 0.0, gn);
    assert x[0] == 0.0 && x[1] == 0.0 && x[2] == delta;
    assert x == [0.0, 0.0, delta];
  }
}
