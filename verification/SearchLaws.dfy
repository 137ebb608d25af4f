/** How the search for the damping moves, in terms of the lengths of its tries alone: by the tangents of 1 / |D z|, as a
    function of the damping, which is concave. */
module SearchLaws {
  import opened Reals
  import opened Vectors
  import opened Machines
  import opened DoglegPath
  import opened Dogleg
  import opened Levenberg
  import opened Newton
  import opened DampingSearch

  // ---- the tangents ----

  /** The line through (par, 1 / l) with slope k is nowhere below 1 / |D z|: it is the tangent at par. */
  ghost predicate Tangent(mach: Machine, r: Mat, d: Vec, b: Vec, par: real, l: real, k: real)
    requires mach.Valid() && l > 0.0
  {
    forall z: Vec, q: real ::
      Damped(r, d, b, z, q) && q > 0.0 ==> AtOrAbove(ScaledNorm(mach, d, z), 1.0 / l + k * (q - par))
  }

  predicate AtOrAbove(l: real, v: real) {
    l > 0.0 && v >= 1.0 / l
  }

  /** The slope |y|^2 / l of the tangent at a damping that was tried, transpose(S) y = D^2 z / l, and the correction c
      to where the tangent reaches 1 / delta. */
  lemma TriedTangent(mach: Machine, s: Mat, r: Mat, d: Vec, b: Vec, par: real, z: Vec, y: Vec, k: real)
    requires mach.Valid() && Tried(mach, s, r, d, b, par, z, y) && Sloped(r, d, b)
    requires k == Dot(y, y) / ScaledNorm(mach, d, z)
    ensures k > 0.0 && Tangent(mach, r, d, b, par, ScaledNorm(mach, d, z), k)
  {
    hide Damped, DampedTriangle, Sloped, Step, Dot, ScaledNorm;
    TriedSizes(mach, s, r, d, b, par, z, y);
    var l, t := ScaledNorm(mach, d, z), mach.Norm(y);
    SlopeSign(l, t, Dot(y, y), k);
    forall z': Vec, q: real | Damped(r, d, b, z', q) && q > 0.0
      ensures |z'| == |d| && AtOrAbove(ScaledNorm(mach, d, z'), 1.0 / l + k * (q - par))
    {
      DampedSizes(r, d, b, z', q);
      DampedNonzero(mach, r, d, b, z', q);
      var delta := ScaledNorm(mach, d, z');
      var c := Step(l - delta, delta, t);
      NewtonBelowRoot(mach, s, r, d, b, par, z, y, delta, c, z', q);
      StepEquation(l - delta, delta, t, Dot(y, y), c);
      TangentReaches(l, delta, Dot(y, y), k, c, q - par);
    }
  }

  lemma SlopeSign(l: real, t: real, yy: real, k: real)
    requires l > 0.0 && t > 0.0 && yy == t * t && k == yy / l
    ensures k > 0.0 && k * l == yy
  {
    PositiveProduct(t, t, yy);
    DivisionSign(yy, l, k);
  }

  /** At the correction the line has the value 1 / delta, and beyond it a larger one. */
  lemma TangentReaches(l: real, delta: real, yy: real, k: real, c: real, e: real)
    requires l > 0.0 && delta > 0.0 && k > 0.0 && k * l == yy && yy * (delta * c) == l - delta && c <= e
    ensures 1.0 / l + k * c == 1.0 / delta && 1.0 / l + k * e >= 1.0 / delta
  {
    var v, w := 1.0 / l, 1.0 / delta;
    TangentValue(l, delta, yy, k, c, v, w);
    NonnegProduct(k, e - c, k * (e - c));
  }

  lemma TangentValue(l: real, delta: real, yy: real, k: real, c: real, v: real, w: real)
    requires l > 0.0 && delta > 0.0 && k * l == yy && yy * (delta * c) == l - delta && v * l == 1.0 && w * delta == 1.0
    ensures v + k * c == w
  {
    var p := l * delta;
    PositiveProduct(l, delta, p);
    assert (k * c) * p == l - delta by {
      assert (k * c) * (l * delta) == (k * l) * (delta * c);
    }
    assert v * p == delta by {
      assert v * (l * delta) == (v * l) * delta;
    }
    assert w * p == l by {
      assert w * (l * delta) == (w * delta) * l;
    }
    SameQuotient(p, v + k * c, w);
  }

  lemma SameQuotient(p: real, a: real, b: real)
    requires p > 0.0 && a * p == b * p
    ensures a == b
  {
    ZeroProduct(a - b, p);
  }

  // ---- the next try ----

  /** After a try that did not end the search: the tangent of 1 / |D z| at the damping tried reaches 1 / delta at the
      correction c. The bounds move to the damping on its side of the roots, and the next try is at the corrected
      damping, but not below the lower bound, nor at zero. */
  lemma NextTouches(mach: Machine, r: Mat, d: Vec, b: Vec, delta: real, s: Search, s': Search, t: Mat, z: Vec, y: Vec)
    returns (k: real, c: real)
    requires mach.Valid() && FollowsBy(mach, r, d, b, delta, s, s', t, z, y) && Sloped(r, d, b)
    ensures |z| == |d| && ScaledNorm(mach, d, z) > 0.0 && delta > 0.0
    ensures var l := ScaledNorm(mach, d, z);
      && k > 0.0 && Tangent(mach, r, d, b, s.par, l, k) && 1.0 / l + k * c == 1.0 / delta
      && s'.fp == l - delta && s'.iter == s.iter + 1
      && s'.parl == (if l > delta then Max(s.parl, s.par) else s.parl)
      && s'.paru == (if l < delta then Min(s.paru, s.par) else s.paru)
      && var e := Max(s'.parl, s.par + c);
         s'.par == if e == 0.0 then Max(mach.dwarf, s'.paru / 1000.0) else e
  {
    hide Tried, Sloped, Dot, Tangent, Step, ScaledNorm;
    TriedSizes(mach, t, r, d, b, s.par, z, y);
    TriedPositive(mach, t, r, d, b, s.par, z, y);
    var l := ScaledNorm(mach, d, z);
    k, c := Dot(y, y) / l, Step(l - delta, delta, mach.Norm(y));
    TriedTangent(mach, t, r, d, b, s.par, z, y, k);
    SlopeSign(l, mach.Norm(y), Dot(y, y), k);
    StepEquation(l - delta, delta, mach.Norm(y), Dot(y, y), c);
    TangentReaches(l, delta, Dot(y, y), k, c, c);
    assert 0.001 * s'.paru == s'.paru / 1000.0;
  }

  lemma TriedPositive(mach: Machine, t: Mat, r: Mat, d: Vec, b: Vec, par: real, z: Vec, y: Vec)
    requires mach.Valid() && Tried(mach, t, r, d, b, par, z, y)
    ensures |z| == |d| && ScaledNorm(mach, d, z) > 0.0
  {
  }

  /** A line with a positive slope k reaches 1 / delta on the side where 1 / l is too small. */
  lemma CorrectionSide(l: real, delta: real, k: real, c: real)
    requires l > 0.0 && delta > 0.0 && k > 0.0 && 1.0 / l + k * c == 1.0 / delta
    ensures l > delta ==> c > 0.0
    ensures l < delta ==> c < 0.0
  {
    var v, w := 1.0 / l, 1.0 / delta;
    assert v * l == 1.0 && w * delta == 1.0;
    ReciprocalOrder(l, delta, v, w);
    ReciprocalOrder(delta, l, w, v);
    if c <= 0.0 {
      NonnegProduct(k, -c, k * -c);
    }
    if c >= 0.0 {
      NonnegProduct(k, c, k * c);
    }
  }

  lemma ReciprocalOrder(a: real, b: real, v: real, w: real)
    requires a > 0.0 && b > 0.0 && v * a == 1.0 && w * b == 1.0
    ensures a > b ==> w > v
  {
    if a > b && w <= v {
      NonnegProduct(v - w, b, (v - w) * b);
      if v <= 0.0 {
        NonnegProduct(-v, a, -v * a);
      }
      PositiveProduct(v, a - b, v * (a - b));
    }
  }

  /** After a step that is too long the damping increases. */
  lemma TooLongRises(mach: Machine, r: Mat, d: Vec, b: Vec, delta: real, s: Search, s': Search, t: Mat, z: Vec, y: Vec)
    requires mach.Valid() && FollowsBy(mach, r, d, b, delta, s, s', t, z, y) && Sloped(r, d, b)
    ensures |z| == |d| && (ScaledNorm(mach, d, z) > delta ==> s'.par > s.par > 0.0)
  {
    hide FollowsBy, Tangent, Sloped, ScaledNorm;
    FollowsPositive(mach, r, d, b, delta, s, s', t, z, y);
    var k, c := NextTouches(mach, r, d, b, delta, s, s', t, z, y);
    CorrectionSide(ScaledNorm(mach, d, z), delta, k, c);
  }

  lemma FollowsPositive(mach: Machine, r: Mat, d: Vec, b: Vec, delta: real, s: Search, s': Search, t: Mat, z: Vec,
                        y: Vec)
    requires mach.Valid() && FollowsBy(mach, r, d, b, delta, s, s', t, z, y)
    ensures |z| == |d| && s.par > 0.0 && Damped(r, d, b, z, s.par) && delta > 0.0
  {
    hide Damped, DampedTriangle, Step;
  }

  /** The search goes on exactly when the step is more than a tenth off, it is not the tenth, and there is a lower bound
      or the function was not negative or has grown. */
  lemma GoesOnExactly(s: Search, fp: real, delta: real)
    requires delta > 0.0
    ensures !Accepts(s, fp, delta) <==>
            (fp > 0.1 * delta || fp < -0.1 * delta) && s.iter != 10
            && (s.parl != 0.0 || s.fp >= 0.0 || fp > s.fp)
  {
  }

  /** A try that was followed by another was more than a tenth off, not the tenth, and not one where a function without
      a lower bound has stopped growing. */
  lemma FollowedOpen(mach: Machine, r: Mat, d: Vec, b: Vec, delta: real, s: Search, s': Search, t: Mat, z: Vec, y: Vec)
    requires mach.Valid() && FollowsBy(mach, r, d, b, delta, s, s', t, z, y)
    ensures |z| == |d| && delta > 0.0 && s.iter != 10
    ensures ScaledNorm(mach, d, z) > 1.1 * delta || ScaledNorm(mach, d, z) < 0.9 * delta
    ensures s.parl != 0.0 || s.fp >= 0.0 || ScaledNorm(mach, d, z) - delta > s.fp
  {
    hide Tried, Step;
    FollowsPositive(mach, r, d, b, delta, s, s', t, z, y);
    TriedSizes(mach, t, r, d, b, s.par, z, y);
    GoesOnExactly(s, ScaledNorm(mach, d, z) - delta, delta);
  }

  /** The last try is within a tenth, or the tenth, or such a one. */
  lemma FoundClosed(mach: Machine, r: Mat, d: Vec, b: Vec, delta: real, s0: Search, z: Vec, t: Mat, s: Search)
    requires mach.Valid() && Found(mach, r, d, b, delta, s0, z, t, s) && delta > 0.0
    ensures |z| == |d|
    ensures || 0.9 * delta <= ScaledNorm(mach, d, z) <= 1.1 * delta || s.iter == 10
            || (s.parl == 0.0 && ScaledNorm(mach, d, z) - delta <= s.fp < 0.0)
  {
    hide Damped, Reached, DampedTriangle, ScaledNorm;
    DampedSizes(r, d, b, z, s.par);
    GoesOnExactly(s, ScaledNorm(mach, d, z) - delta, delta);
  }

  /** Two tries in a row differ, unless both are at dwarf and the step is too short. */
  lemma TriesDiffer(mach: Machine, r: Mat, d: Vec, b: Vec, delta: real, s: Search, s': Search)
    requires mach.Valid() && SearchOk(mach, r, d, b, delta, s) && Follows(mach, r, d, b, delta, s, s')
    requires Sloped(r, d, b)
    ensures s'.par != s.par || (s'.par == mach.dwarf && s'.parl == 0.0 && s'.fp < 0.0)
  {
    hide Tangent, Sloped, ScaledNorm, LowerOnly, UpperOnly, Nonsingular, FollowsBy, Damped;
    var t, z, y :| FollowsBy(mach, r, d, b, delta, s, s', t, z, y);
    FollowsPositive(mach, r, d, b, delta, s, s', t, z, y);
    FollowedOpen(mach, r, d, b, delta, s, s', t, z, y);
    TooLongRises(mach, r, d, b, delta, s, s', t, z, y);
    var k, c := NextTouches(mach, r, d, b, delta, s, s', t, z, y);
    CorrectionSide(ScaledNorm(mach, d, z), delta, k, c);
  }

  /** From the second try on, tries that give a step too long rise one after the other. */
  lemma {:induction false} SearchRises(mach: Machine, r: Mat, d: Vec, b: Vec, delta: real, s0: Search, p: Search,
                                       s: Search)
    requires mach.Valid() && Reached(mach, r, d, b, delta, s0, p) && SearchOk(mach, r, d, b, delta, s0)
    requires Sloped(r, d, b) && s0.iter == 0 && p.iter > 1 && Follows(mach, r, d, b, delta, p, s)
    ensures s.par > p.par || (p.parl == 0.0 && p.par == StandIn(mach, p.paru))
  {
    hide Reached, SearchOk, Sloped, LowerOnly, UpperOnly, FollowsBy, ScaledNorm, StandIn, Damped;
    var t, z, y :| FollowsBy(mach, r, d, b, delta, p, s, t, z, y);
    FollowsPositive(mach, r, d, b, delta, p, s, t, z, y);
    FollowedOpen(mach, r, d, b, delta, p, s, t, z, y);
    SecondTryLong(mach, r, d, b, delta, s0, p, z);
    TooLongRises(mach, r, d, b, delta, p, s, t, z, y);
  }

  // ---- the first try ----

  /** The first lower bound for a nonsingular factor is where the tangent at 0 reaches 1 / delta; y solves
      transpose(R) y = D^2 z0 / |D z0|, and R z0 = b. */
  lemma FirstTouches(mach: Machine, r: Mat, d: Vec, b: Vec, z0: Vec, delta: real, y: Vec, parl: real)
    returns (k: real)
    requires mach.Valid() && FirstLower(mach, r, d, z0, delta, y, parl) && Mul(r, z0) == b && Sloped(r, d, b)
    ensures k > 0.0 && Tangent(mach, r, d, b, 0.0, ScaledNorm(mach, d, z0), k)
    ensures 1.0 / ScaledNorm(mach, d, z0) + k * parl == 1.0 / delta
  {
    hide Damped, Sloped, Step, Dot, ScaledNorm, Mul, Comb;
    var l, t := ScaledNorm(mach, d, z0), mach.Norm(y);
    k := Dot(y, y) / l;
    SlopeSign(l, t, Dot(y, y), k);
    StepEquation(l - delta, delta, t, Dot(y, y), parl);
    TangentReaches(l, delta, Dot(y, y), k, parl, parl);
    forall z: Vec, q: real | Damped(r, d, b, z, q) && q > 0.0
      ensures |z| == |d| && AtOrAbove(ScaledNorm(mach, d, z), 1.0 / l + k * (q - 0.0))
    {
      FirstLine(mach, r, d, b, z0, delta, y, parl, z, q, k);
    }
  }

  lemma FirstLine(mach: Machine, r: Mat, d: Vec, b: Vec, z0: Vec, delta: real, y: Vec, parl: real, z: Vec, q: real,
                  k: real)
    requires mach.Valid() && FirstLower(mach, r, d, z0, delta, y, parl) && Mul(r, z0) == b && Sloped(r, d, b)
    requires Damped(r, d, b, z, q) && q > 0.0 && k == Dot(y, y) / ScaledNorm(mach, d, z0)
    ensures |z| == |d| && AtOrAbove(ScaledNorm(mach, d, z), 1.0 / ScaledNorm(mach, d, z0) + k * (q - 0.0))
  {
    hide Damped, Sloped, Step, Dot, ScaledNorm, Mul, Comb;
    var l, t := ScaledNorm(mach, d, z0), mach.Norm(y);
    SlopeSign(l, t, Dot(y, y), k);
    DampedSizes(r, d, b, z, q);
    DampedNonzero(mach, r, d, b, z, q);
    var delta' := ScaledNorm(mach, d, z);
    var c := Step(l - delta', delta', t);
    StepEquation(l - delta', delta', t, Dot(y, y), c);
    if delta' < l {
      LowerIsBelow(mach, r, d, b, z0, y, Comb(y, r, |d|), delta', c, z, q);
    } else {
      NotLarger(Dot(y, y), delta', c, l - delta');
    }
    TangentReaches(l, delta', Dot(y, y), k, c, q);
  }

  lemma NotLarger(yy: real, delta: real, c: real, e: real)
    requires yy > 0.0 && delta > 0.0 && yy * (delta * c) == e && e <= 0.0
    ensures c <= 0.0
  {
    if c > 0.0 {
      PositiveProduct(delta, c, delta * c);
      PositiveProduct(yy, delta * c, e);
    }
  }

  lemma GradientPositive(mach: Machine, r: Mat, d: Vec, b: Vec)
    requires mach.Valid() && Sloped(r, d, b)
    ensures mach.Norm(Divided(Comb(b, r, |d|), d)) > 0.0
  {
    var g := Comb(b, r, |d|);
    NormZero(mach, Divided(g, d));
    if mach.Norm(Divided(g, d)) == 0.0 {
      ZeroDivided(g, d);
    }
  }

  lemma ZeroDivided(g: Vec, d: Vec)
    requires |g| == |d| && (forall i :: 0 <= i < |d| ==> d[i] != 0.0) && Divided(g, d) == Zero(|d|)
    ensures g == Zero(|d|)
  {
    forall i | 0 <= i < |d|
      ensures g[i] == 0.0
    {
      assert Divided(g, d)[i] == 0.0;
      DividedBack(g[i], d[i], Divided(g, d)[i]);
    }
  }

  /** The first bounds are in order. */
  lemma FirstBoundsOrdered(mach: Machine, r: Mat, d: Vec, b: Vec, z0: Vec, delta: real, y: Vec, parl: real, paru: real)
    requires mach.Valid() && FirstLower(mach, r, d, z0, delta, y, parl) && Mul(r, z0) == b && Sloped(r, d, b)
    requires paru * delta == mach.Norm(Divided(Comb(b, r, |d|), d))
    ensures parl <= paru
  {
    hide Step, Dot, Comb, Divided, Times, Mul, Scale;
    var l, g := ScaledNorm(mach, d, z0), Divided(Comb(b, r, |d|), d);
    OrderedProducts(mach, r, d, b, z0, y, l);
    var yy, bb, gg, ll := Dot(y, y), Dot(b, b), Dot(g, g), ScaledSquare(d, z0);
    CrossAtMost(y, b, yy, l, bb);
    CrossAtMost(g, Times(d, z0), gg, bb, ll);
    StepEquation(l - delta, delta, mach.Norm(y), yy, parl);
    OrderedScalar(l, delta, yy, bb, mach.Norm(g), gg, parl, paru, ll);
  }

  /** <y, b> = |D z0| and <inverse(D) transpose(R) b, D z0> = |b|^2 */
  lemma OrderedProducts(mach: Machine, r: Mat, d: Vec, b: Vec, z0: Vec, y: Vec, l: real)
    requires mach.Valid() && IsMat(r, |d|, |d|) && |z0| == |y| == |d| == |b| && Mul(r, z0) == b
    requires l == ScaledNorm(mach, d, z0) > 0.0 && Scale(l, Comb(y, r, |d|)) == Times(d, Times(d, z0))
    requires forall i :: 0 <= i < |d| ==> d[i] != 0.0
    ensures Dot(y, b) == l && Dot(Divided(Comb(b, r, |d|), d), Times(d, z0)) == Dot(b, b)
  {
    Adjoint(y, r, z0);
    DotScale(l, Comb(y, r, |d|), z0);
    ScaleMoves(d, z0, z0);
    CancelLength(l, Dot(y, b), ScaledSquare(d, z0));
    DividedTimes(Comb(b, r, |d|), d, z0);
    Adjoint(b, r, z0);
  }

  lemma CancelLength(l: real, p: real, ll: real)
    requires l > 0.0 && ll == l * l && l * p == ll
    ensures p == l
  {
    ZeroProduct(l, p - l);
  }

  lemma OrderedScalar(l: real, delta: real, yy: real, bb: real, g: real, gg: real, parl: real, paru: real, ll: real)
    requires l > 0.0 && delta > 0.0 && yy > 0.0 && g >= 0.0 && gg == g * g && ll == l * l && bb * bb <= gg * ll
    requires l * l <= yy * bb && yy * (delta * parl) == l - delta && paru * delta == g
    ensures parl <= paru
  {
    var gl, m := g * l, yy * g;
    NonnegProduct(g, l, gl);
    SquareOfProduct(g, l, gg, ll, gl);
    CrossBelow(bb, gl, gg * ll);
    AtMostThrough(l, yy, g, bb, gl, m);
    SameFactorBelow(yy, delta, parl, paru, g, m, l - delta);
  }

  lemma AtMostThrough(l: real, yy: real, g: real, bb: real, gl: real, m: real)
    requires l > 0.0 && yy > 0.0 && gl == g * l && m == yy * g && bb <= gl && l * l <= yy * bb
    ensures l <= m
  {
    NonnegProduct(yy, gl - bb, yy * (gl - bb));
    assert m * l == yy * gl;
    if l > m {
      PositiveProduct(l - m, l, (l - m) * l);
    }
  }

  lemma SameFactorBelow(yy: real, delta: real, parl: real, paru: real, g: real, m: real, e: real)
    requires yy > 0.0 && delta > 0.0 && paru * delta == g && m == yy * g && yy * (delta * parl) == e && e <= m
    ensures parl <= paru
  {
    var k := yy * delta;
    PositiveProduct(yy, delta, k);
    assert k * parl == e by {
      assert (yy * delta) * parl == yy * (delta * parl);
    }
    assert k * paru == m by {
      assert (yy * delta) * paru == yy * (paru * delta);
    }
    if parl > paru {
      PositiveProduct(k, parl - paru, k * (parl - paru));
    }
  }

  /** How the search begins: the upper bound from the scaled gradient, the lower one, positive for a nonsingular factor,
      and the caller's estimate moved between them, or a stand-in for zero. */
  lemma OpeningIs(mach: Machine, r: Mat, d: Vec, b: Vec, delta: real, par0: real, gn: Vec, nsing: nat, s: Search)
    requires mach.Valid() && Opening(mach, r, d, b, delta, par0, gn, nsing, s) && Sloped(r, d, b) && par0 >= 0.0
    requires nsing >= |d| ==> Mul(r, gn) == b
    ensures |gn| == |d| == |b| && IsMat(r, |d|, |d|) && forall i :: 0 <= i < |d| ==> d[i] != 0.0
    ensures s.iter == 0 && s.fp == ScaledNorm(mach, d, gn) - delta > 0.0 && (nsing < |d| ==> s.parl == 0.0)
    ensures var gnorm := mach.Norm(Divided(Comb(b, r, |d|), d));
      && gnorm > 0.0 && s.paru * delta == gnorm && 0.0 <= s.parl <= s.paru && (nsing >= |d| ==> s.parl > 0.0)
      && (s.parl <= par0 <= s.paru && par0 > 0.0 ==> s.par == par0)
      && (par0 > s.paru ==> s.par == s.paru) && (par0 < s.parl ==> s.par == s.parl)
      && (par0 == s.parl == 0.0 ==> s.par * ScaledNorm(mach, d, gn) == gnorm)
  {
    hide FirstLower, Sloped, Comb, ScaledNorm, Mul, Long;
    GradientPositive(mach, r, d, b);
    var gnorm := mach.Norm(Divided(Comb(b, r, |d|), d));
    var l, u := ScaledNorm(mach, d, gn), gnorm / delta;
    DivisionSign(gnorm, delta, u);
    DividedBack(gnorm, delta, u);
    DividedBack(gnorm, l, gnorm / l);
    if nsing >= |d| {
      var y :| FirstLower(mach, r, d, gn, delta, y, s.parl);
      FirstStaysLong(mach, r, d, b, gn, delta, y, s.parl);
      FirstBoundsOrdered(mach, r, d, b, gn, delta, y, s.parl, s.paru);
    }
  }
}
