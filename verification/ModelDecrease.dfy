/** The trial step solves the damped normal equations of the Jacobian, and its predicted reduction is the true decrease
    of the linear model. */
module ModelDecrease {
  import opened Reals
  import opened Vectors
  import opened Machines
  import opened DoglegPath
  import opened Dogleg
  import opened Qrfac
  import opened Qrsolv
  import opened Permutations
  import opened Levenberg
  import opened DampingSearch
  import opened Lmpar
  import opened LeastSquares
  import opened Scaling
  import opened MarquardtChoice
  import opened MarquardtStep

  // ---- the prediction is exact ----

  lemma ScaledBack(t: real, fnorm: real, ff: real, s: real)
    requires fnorm > 0.0 && ff == fnorm * fnorm && s == Scaled(t, fnorm)
    ensures s * ff == t * t
  {
    var q := t / fnorm;
    assert q * fnorm == t;
    SquareTimes(q, fnorm, t, ff);
  }

  lemma SquareTimes(q: real, b: real, t: real, bb: real)
    requires q * b == t && bb == b * b
    ensures (q * q) * bb == t * t
  {
    assert (q * q) * (b * b) == (q * b) * (q * b);
  }

  lemma PredictionScaled(fnorm: real, pnorm: real, fnorm1: real, jp: real, dp: real, ff: real, jj: real, dd: real)
    requires fnorm > 0.0 && fnorm1 >= 0.0 && ff == fnorm * fnorm && jj == jp * jp && dd == dp * dp
    ensures var t := TrialOf(fnorm, pnorm, fnorm1, jp,
                             dp); t.prered * ff == jj + 2.0 * dd && t.dirder * ff == -(jj + dd)
  {
    var a, b := Scaled(jp, fnorm), Scaled(dp, fnorm);
    ScaledBack(jp, fnorm, ff, a);
    ScaledBack(dp, fnorm, ff, b);
    Combined(a, b, ff, jj, dd);
  }

  lemma Combined(a: real, b: real, ff: real, jj: real, dd: real)
    requires a * ff == jj && b * ff == dd
    ensures (a + b / 0.5) * ff == jj + 2.0 * dd && -(a + b) * ff == -(jj + dd)
  {
    assert b / 0.5 == 2.0 * b;
  }

  /** -x in place of x in J x. */
  lemma NegatedImage(j0: Mat, f: Vec, x: Vec, p: Vec, m: nat)
    requires |x| == |j0| && IsMat(j0, |j0|, m) && |f| == m && p == Scale(-1.0, x)
    ensures Axpy(1.0, Image(j0, p, m), f) == Axpy(-1.0, Image(j0, x, m), f)
    ensures Dot(f, Image(j0, p, m)) == -Dot(f, Image(j0, x, m))
  {
    CombScale(-1.0, x, j0, m);
    var y := Image(j0, x, m);
    DotScale(-1.0, y, f);
    DotCommutes(y, f);
  }

  /** -x in place of x in R z and in D x. */
  lemma NegatedSquares(r: Mat, d: Vec, x: Vec, p: Vec, ord: seq<nat>)
    requires IsMat(r, |x|, |x|) && |d| == |x| == |ord| && Permutation(ord) && p == Scale(-1.0, x)
    ensures Dot(Mul(r, Permuted(p, ord)), Mul(r, Permuted(p, ord))) == Dot(Mul(r, Permuted(x, ord)),
                                                                           Mul(r, Permuted(x, ord)))
    ensures ScaledSquare(d, p) == ScaledSquare(Permuted(d, ord), Permuted(x, ord))
  {
    var z := Permuted(x, ord);
    assert Permuted(p, ord) == Scale(-1.0, z);
    MulScale(r, -1.0, z);
    NegatedSquare(Mul(r, z));
    NegatedScaled(d, x, p);
    PermutedScaled(d, x, ord);
  }

  lemma PermutedScaled(d: Vec, x: Vec, ord: seq<nat>)
    requires Permutation(ord) && |ord| == |d| == |x|
    ensures ScaledSquare(Permuted(d, ord), Permuted(x, ord)) == ScaledSquare(d, x)
  {
    var u, v := Times(Permuted(d, ord), Permuted(x, ord)), Permuted(Times(d, x), ord);
    forall i | 0 <= i < |x|
      ensures u[i] == v[i]
    {
      assert v[i] == Times(d, x)[ord[i]];
    }
    assert u == v;
    PermutedDot(Times(d, x), Times(d, x), ord);
  }

  /** <b, R z> = |R z|^2 + q; the damped equations have q = par |D z|^2. */
  ghost predicate HasEnergy(r: Mat, b: Vec, z: Vec, q: real) {
    && IsMat(r, |z|, |z|) && |b| == |z|
    && Dot(b, Mul(r, z)) == Dot(Mul(r, z), Mul(r, z)) + q
  }

  /** lmpar's direction solves the damped equations, at par = 0 as well. */
  lemma ParameterDamped(mach: Machine, r: Mat, d: Vec, b: Vec, delta: real, par0: real, gn: Vec, nsing: nat, z: Vec,
                        t: Mat, par: real, s0: Search, s: Search)
    requires mach.Valid() && Parameter(mach, r, d, b, delta, par0, gn, nsing, z, t, par, s0, s) && ZeroRest(r)
    ensures Damped(r, d, b, z, par)
  {
    if par == 0.0 {
      LeadingIsDamped(r, d, b, z, nsing);
    }
  }

  lemma DampedEnergy(r: Mat, d: Vec, b: Vec, z: Vec, par: real, q: real)
    requires Damped(r, d, b, z, par) && (|d| == |z| ==> q == par * ScaledSquare(d, z))
    ensures HasEnergy(r, b, z, q)
  {
    hide Mul, Comb, Axpy, Times;
    Energy(r, d, b, z, par);
  }

  /** par |D z|^2 in the order of R is the square of sqrt(par) |D p|. */
  lemma DampingSquare(mach: Machine, d: Vec, x: Vec, p: Vec, ord: seq<nat>, par: real, pnorm: real, dp: real, q: real)
    requires mach.Valid() && |d| == |x| == |ord| && Permutation(ord) && p == Scale(-1.0, x) && par >= 0.0
    requires pnorm == ScaledNorm(mach, d, p) && dp == mach.sqrt(par) * pnorm && q == dp * dp
    ensures q == par * ScaledSquare(Permuted(d, ord), Permuted(x, ord))
  {
    NegatedScaled(d, x, p);
    PermutedScaled(d, x, ord);
    RootTimes(mach.sqrt(par), par, pnorm, ScaledSquare(d, p), dp);
  }

  /** What the model loses, from the squares jj = |J p|^2 and dd = par |D p|^2. */
  lemma LossOf(j0: Mat, f: Vec, r: Mat, qtf: Vec, ord: seq<nat>, x: Vec, p: Vec, n: nat, m: nat, jj: real, dd: real)
    requires IsMat(j0, n, m) && |f| == m && IsMat(r, n, n) && |qtf| == |ord| == n && Permutation(ord) && |x| == n
    requires p == Scale(-1.0, x)
    requires RepresentsAt(j0, f, r, qtf, ord, n, m, x)
    requires HasEnergy(r, qtf, Permuted(x, ord), dd)
    requires jj == Dot(Mul(r, Permuted(p, ord)), Mul(r, Permuted(p, ord)))
    ensures Loses(j0, f, p, m, jj + 2.0 * dd, -(jj + dd))
  {
    ProductsAre(j0, f, r, qtf, ord, x, p, n, m, jj, dd);
    NegatedImage(j0, f, x, p, m);
    DifferenceSquare(f, Image(j0, x, m));
  }

  lemma ProductsAre(j0: Mat, f: Vec, r: Mat, qtf: Vec, ord: seq<nat>, x: Vec, p: Vec, n: nat, m: nat, jj: real,
                    dd: real)
    requires IsMat(j0, n, m) && |f| == m && IsMat(r, n, n) && |qtf| == |ord| == n && Permutation(ord) && |x| == n
    requires p == Scale(-1.0, x)
    requires RepresentsAt(j0, f, r, qtf, ord, n, m, x)
    requires HasEnergy(r, qtf, Permuted(x, ord), dd)
    requires jj == Dot(Mul(r, Permuted(p, ord)), Mul(r, Permuted(p, ord)))
    ensures Dot(Image(j0, x, m), Image(j0, x, m)) == jj && Dot(f, Image(j0, x, m)) == jj + dd
  {
    NegatedSquares(r, x, x, p, ord);
  }

  lemma StepExact(mach: Machine, j0: Mat, f: Vec, r: Mat, qtf: Vec, ord: seq<nat>, x: Vec, p: Vec, n: nat, m: nat,
                  fnorm: real, pnorm: real, fnorm1: real, jp: real, dp: real, q: real)
    requires mach.Valid() && IsMat(j0, n, m) && |f| == m && IsMat(r, n, n) && |qtf| == |ord| == n && Permutation(ord)
    requires |x| == n
    requires p == Scale(-1.0, x) && RepresentsAt(j0, f, r, qtf, ord, n, m, x)
    requires HasEnergy(r, qtf, Permuted(x, ord), q) && q == dp * dp && fnorm == mach.Norm(f) > 0.0 && fnorm1 >= 0.0
    requires jp == mach.Norm(Mul(r, Permuted(p, ord)))
    ensures Exact(j0, f, p, TrialOf(fnorm, pnorm, fnorm1, jp, dp), m)
  {
    hide Loses, Exact, RepresentsAt, HasEnergy, Image, Mul, TrialOf;
    var ff, jj := Dot(f, f), jp * jp;
    LossOf(j0, f, r, qtf, ord, x, p, n, m, jj, q);
    PredictionScaled(fnorm, pnorm, fnorm1, jp, dp, ff, jj, q);
    ExactFrom(j0, f, p, TrialOf(fnorm, pnorm, fnorm1, jp, dp), m, ff, jj + 2.0 * q, -(jj + q));
  }

  lemma ExactFrom(j0: Mat, f: Vec, p: Vec, t: Trial, m: nat, ff: real, loss: real, slope: real)
    requires |f| == m && ff == Dot(f, f) && Loses(j0, f, p, m, loss, slope) && t.prered * ff == loss
    requires t.dirder * ff == slope
    ensures Exact(j0, f, p, t, m)
  {
  }

  lemma RootTimes(t: real, par: real, q: real, qq: real, s: real)
    requires t * t == par && q * q == qq && s == t * q
    ensures s * s == par * qq
  {
    SquareOfProduct(t, q, par, qq, s);
  }

  lemma TrialIsExact(mach: Machine, j0: Mat, f: Vec, r: Mat, qtf: Vec, ord: seq<nat>, x: Vec, p: Vec, n: nat, m: nat,
                     fnorm: real, pnorm: real, fnorm1: real, jp: real, dp: real, q: real)
    requires mach.Valid() && Represents(j0, f, r, qtf, ord, n, m) && |x| == n && p == Scale(-1.0, x)
    requires HasEnergy(r, qtf, Permuted(x, ord), q) && q == dp * dp && fnorm == mach.Norm(f) > 0.0 && fnorm1 >= 0.0
    requires jp == mach.Norm(Mul(r, Permuted(p, ord)))
    ensures Exact(j0, f, p, TrialOf(fnorm, pnorm, fnorm1, jp, dp), m)
  {
    ProductsOf(j0, f, r, qtf, ord, n, m, x);
    StepExact(mach, j0, f, r, qtf, ord, x, p, n, m, fnorm, pnorm, fnorm1, jp, dp, q);
  }

  lemma DirectionOf(mach: Machine, r: Mat, n: nat, d: Vec, b: Vec, x: Vec, p: Vec, ord: seq<nat>, par: real,
                    pnorm: real, dp: real, q: real)
    requires mach.Valid() && n == |d| == |x| == |ord| && Permutation(ord)
    requires Damped(r, Permuted(d, ord), b, Permuted(x, ord), par)
    requires p == Scale(-1.0, x) && par >= 0.0 && pnorm == ScaledNorm(mach, d, p)
    requires dp == mach.sqrt(par) * pnorm && q == dp * dp
    ensures HasEnergy(r, b, Permuted(x, ord), q)
  {
    DampingSquare(mach, d, x, p, ord, par, pnorm, dp, q);
    DampedEnergy(r, Permuted(d, ord), b, Permuted(x, ord), par, q);
  }

  // ---- the normal equations ----

  lemma SumSquare(u: Vec, v: Vec)
    requires |u| == |v|
    ensures Dot(Axpy(1.0, u, v), Axpy(1.0, u, v)) == Dot(u, u) + 2.0 * Dot(u, v) + Dot(v, v)
  {
    var s := Axpy(1.0, u, v);
    DotAxpy(1.0, u, v, s);
    DotAxpy(1.0, u, v, u);
    DotAxpy(1.0, u, v, v);
    DotCommutes(u, v);
    DotCommutes(u, s);
    DotCommutes(v, s);
  }

  /** Equal squares everywhere make equal products. */
  lemma ProductsAgree(j0: Mat, f: Vec, r: Mat, qtf: Vec, ord: seq<nat>, n: nat, m: nat, x: Vec, y: Vec)
    requires Represents(j0, f, r, qtf, ord, n, m) && |x| == |y| == n
    ensures Dot(Image(j0, x, m), Image(j0, y, m)) == Dot(Mul(r, Permuted(x, ord)), Mul(r, Permuted(y, ord)))
  {
    var w := Axpy(1.0, x, y);
    ProductsOf(j0, f, r, qtf, ord, n, m, x);
    ProductsOf(j0, f, r, qtf, ord, n, m, y);
    ProductsOf(j0, f, r, qtf, ord, n, m, w);
    CombAxpy(1.0, x, y, j0, m);
    SumSquare(Image(j0, x, m), Image(j0, y, m));
    assert Permuted(w, ord) == Axpy(1.0, Permuted(x, ord), Permuted(y, ord));
    MulAxpy(r, 1.0, Permuted(x, ord), Permuted(y, ord));
    SumSquare(Mul(r, Permuted(x, ord)), Mul(r, Permuted(y, ord)));
  }

  lemma ScaledProducts(d: Vec, x: Vec, y: Vec, ord: seq<nat>)
    requires Permutation(ord) && |ord| == |d| == |x| == |y|
    ensures Dot(Times(Permuted(d, ord), Permuted(x, ord)), Times(Permuted(d, ord), Permuted(y, ord)))
            == Dot(Times(d, x), Times(d, y))
  {
    PermutedTimes(d, x, ord);
    PermutedTimes(d, y, ord);
    PermutedDot(Times(d, x), Times(d, y), ord);
  }

  lemma PermutedTimes(d: Vec, x: Vec, ord: seq<nat>)
    requires Permutation(ord) && |ord| == |d| == |x|
    ensures Times(Permuted(d, ord), Permuted(x, ord)) == Permuted(Times(d, x), ord)
  {
    var u, v := Times(Permuted(d, ord), Permuted(x, ord)), Permuted(Times(d, x), ord);
    forall i | 0 <= i < |x|
      ensures u[i] == v[i]
    {
      assert v[i] == Times(d, x)[ord[i]];
    }
  }

  /** lmpar's direction, negated, solves the damped normal equations of the Jacobian. */
  lemma DampedIsNormal(j0: Mat, f: Vec, r: Mat, qtf: Vec, ord: seq<nat>, n: nat, m: nat, d: Vec, x: Vec, p: Vec,
                       par: real)
    requires Represents(j0, f, r, qtf, ord, n, m) && |d| == |x| == n && p == Scale(-1.0, x)
    requires Damped(r, Permuted(d, ord), qtf, Permuted(x, ord), par)
    ensures NormalStep(j0, f, d, p, par, m)
  {
    forall y: Vec | |y| == n
      ensures Dot(Image(j0, p, m), Image(j0, y, m)) + par * Dot(Times(d, p), Times(d, y)) == -Dot(f, Image(j0, y, m))
    {
      NormalAgainst(j0, f, r, qtf, ord, n, m, d, x, p, par, y);
    }
  }

  lemma NormalAgainst(j0: Mat, f: Vec, r: Mat, qtf: Vec, ord: seq<nat>, n: nat, m: nat, d: Vec, x: Vec, p: Vec,
                      par: real, y: Vec)
    requires Represents(j0, f, r, qtf, ord, n, m) && |d| == |x| == |y| == n && p == Scale(-1.0, x)
    requires Damped(r, Permuted(d, ord), qtf, Permuted(x, ord), par)
    ensures Dot(Image(j0, p, m), Image(j0, y, m)) + par * Dot(Times(d, p), Times(d, y)) == -Dot(f, Image(j0, y, m))
  {
    hide Permuted, IsMat, Permutation, ScaledSquare, Axpy, Scale, Comb, Cross;
    OrderOf(j0, f, r, qtf, ord, n, m);
    hide Image, Mul, Times, Represents, RepresentsAt, Damped;
    DampedAgainst(r, Permuted(d, ord), qtf, Permuted(x, ord), par, Permuted(y, ord));
    ProductsAgree(j0, f, r, qtf, ord, n, m, x, y);
    FunctionProduct(j0, f, r, qtf, ord, n, m, y);
    ScaledProducts(d, x, y, ord);
    NegatedProducts(j0, d, x, p, y, m);
    NegatedEquation(par, Dot(Image(j0, x, m), Image(j0, y, m)), Dot(Times(d, x), Times(d, y)), Dot(f, Image(j0, y, m)),
                    Dot(Image(j0, p, m), Image(j0, y, m)), Dot(Times(d, p), Times(d, y)));
  }

  lemma FunctionProduct(j0: Mat, f: Vec, r: Mat, qtf: Vec, ord: seq<nat>, n: nat, m: nat, y: Vec)
    requires Represents(j0, f, r, qtf, ord, n, m) && |y| == n
    ensures Dot(f, Image(j0, y, m)) == Dot(qtf, Mul(r, Permuted(y, ord)))
  {
    ProductsOf(j0, f, r, qtf, ord, n, m, y);
  }

  lemma NegatedProducts(j0: Mat, d: Vec, x: Vec, p: Vec, y: Vec, m: nat)
    requires IsMat(j0, |j0|, m) && |d| == |x| == |y| == |j0| && p == Scale(-1.0, x)
    ensures Dot(Image(j0, p, m), Image(j0, y, m)) == -Dot(Image(j0, x, m), Image(j0, y, m))
    ensures Dot(Times(d, p), Times(d, y)) == -Dot(Times(d, x), Times(d, y))
  {
    CombScale(-1.0, x, j0, m);
    DotScale(-1.0, Image(j0, x, m), Image(j0, y, m));
    NegatedTimes(d, x, p);
    DotScale(-1.0, Times(d, x), Times(d, y));
  }

  lemma NegatedEquation(par: real, jx: real, dx: real, fy: real, jp: real, dp: real)
    requires jx + par * dx == fy && jp == -jx && dp == -dx
    ensures jp + par * dp == -fy
  {
    assert par * -dx == -(par * dx);
  }

  /** What lmpar's parameter and direction mean for the step p. */
  lemma DirectionFound(mach: Machine, j0: Mat, f: Vec, n: nat, m: nat, d: Vec, delta: real, par0: real, par: real,
                       p: Vec, w: Choice, pnorm: real, dp: real, q: real)
    requires ChosenBy(mach, j0, f, d, delta, par0, par, p, m, w) && n == |j0| && |p| == |d|
    requires pnorm == ScaledNorm(mach, d, p) && dp == mach.sqrt(par) * pnorm && q == dp * dp
    ensures Permutation(w.ord) && |w.ord| == |w.x| == n && HasEnergy(w.r, w.qtf, Permuted(w.x, w.ord), q)
    ensures NormalStep(j0, f, d, p, par, m) && Chosen(mach, j0, f, d, delta, par0, par, p, m)
  {
    hide Represents, Damped, NormalStep, HasEnergy, Parameter, ScaledNorm, ZeroRest, UpperTriangular;
    OrderOf(j0, f, w.r, w.qtf, w.ord, n, m);
    ParameterDamped(mach, w.r, Permuted(d, w.ord), w.qtf, delta, par0, w.gn, w.nsing, Permuted(w.x, w.ord), w.t, par,
                    w.s0, w.s);
    DirectionOf(mach, w.r, n, d, w.qtf, w.x, p, w.ord, par, pnorm, dp, q);
    DampedIsNormal(j0, f, w.r, w.qtf, w.ord, n, m, d, w.x, p, par);
  }

  lemma OrderOf(j0: Mat, f: Vec, r: Mat, qtf: Vec, ord: seq<nat>, n: nat, m: nat)
    requires Represents(j0, f, r, qtf, ord, n, m)
    ensures Permutation(ord) && |ord| == |j0| == n && IsMat(j0, n, m) && |f| == m && IsMat(r, n, n) && |qtf| == n
  {
  }
}
