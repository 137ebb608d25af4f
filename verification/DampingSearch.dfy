/** The safeguarded search of lmpar for the damping of a step of length delta, as a sequence of evaluations. */
module DampingSearch {
  import opened Reals
  import opened Vectors
  import opened Machines
  import opened Dogleg
  import opened Levenberg
  import opened Newton

  // ---- the steps of the search ----

  /** What the search keeps: the estimate, its bounds, the last value of the function |D x| - delta, and the number of
      evaluations. */
  datatype Search = Search(par: real, parl: real, paru: real, fp: real, iter: nat)

  /** The tests that end the search after an evaluation with function value fp'. */
  predicate Accepts(s: Search, fp': real, delta: real) {
    Abs(fp') <= 0.1 * delta || (s.parl == 0.0 && fp' <= s.fp < 0.0) || s.iter == 10
  }

  /** The update of the bounds and of the estimate. */
  function Advance(s: Search, fp': real, parc: real): Search {
    var parl := if fp' > 0.0 then Max(s.parl, s.par) else s.parl;
    var paru := if fp' < 0.0 then Min(s.paru, s.par) else s.paru;
    Search(Max(parl, s.par + parc), parl, paru, fp', s.iter)
  }

  /** What the search tries in place of a zero estimate. */
  function StandIn(mach: Machine, paru: real): real {
    Max(mach.dwarf, 0.001 * paru)
  }

  /** The estimate an evaluation works with: never zero. */
  function NextTry(mach: Machine, s: Search): (t: Search)
    requires mach.Valid()
    ensures s.par >= 0.0 ==> t.par > 0.0
  {
    s.(par := if s.par == 0.0 then StandIn(mach, s.paru) else s.par, iter := s.iter + 1)
  }

  /** The bounds and the estimate the search begins with; gn is the direction tried without damping, and solves R z = b
      when nsing is the order of R. */
  ghost predicate Opening(mach: Machine, r: Mat, d: Vec, b: Vec, delta: real, par0: real, gn: Vec, nsing: nat,
                          s: Search)
    requires mach.Valid()
  {
    && |gn| == |d| == |b| && IsMat(r, |d|, |d|) && 0.0 < delta < ScaledNorm(mach, d, gn)
    && (forall i :: 0 <= i < |d| ==> d[i] != 0.0)
    && s.iter == 0 && s.fp == ScaledNorm(mach, d, gn) - delta
    && (if nsing < |d| then s.parl == 0.0 else exists y: Vec :: FirstLower(mach, r, d, gn, delta, y, s.parl))
    && var gnorm := mach.Norm(Divided(Comb(b, r, |d|), d));
       s.paru == FirstUpper(mach, gnorm, delta)
       && s.par == FirstEstimate(par0, s.parl, s.paru, gnorm, ScaledNorm(mach, d, gn))
  }

  function FirstUpper(mach: Machine, gnorm: real, delta: real): real
    requires mach.Valid() && delta > 0.0
  {
    if gnorm / delta == 0.0 then mach.dwarf / Min(delta, 0.1) else gnorm / delta
  }

  /** The caller's estimate moved between the bounds, or a stand-in for zero. */
  function FirstEstimate(par0: real, parl: real, paru: real, gnorm: real, dxnorm: real): real
    requires dxnorm > 0.0
  {
    var par := Min(Max(par0, parl), paru);
    if par == 0.0 then gnorm / dxnorm else par
  }

  /** An evaluation at s that does not end the search, and the next try. */
  ghost predicate Follows(mach: Machine, r: Mat, d: Vec, b: Vec, delta: real, s: Search, s': Search)
    requires mach.Valid()
  {
    exists t: Mat, z: Vec, y: Vec :: FollowsBy(mach, r, d, b, delta, s, s', t, z, y)
  }

  /** z solves at s, t is the triangle of its system, and transpose(T) y = D^2 z / |D z|. */
  ghost predicate FollowsBy(mach: Machine, r: Mat, d: Vec, b: Vec, delta: real, s: Search, s': Search, t: Mat, z: Vec,
                            y: Vec)
    requires mach.Valid()
  {
    && Tried(mach, t, r, d, b, s.par, z, y) && delta > 0.0
    && var fp := ScaledNorm(mach, d, z) - delta;
       !Accepts(s, fp, delta) && s' == NextTry(mach, Advance(s, fp, Step(fp, delta, mach.Norm(y))))
  }

  /** The search that begins with s0 comes to the try s. */
  ghost predicate Reached(mach: Machine, r: Mat, d: Vec, b: Vec, delta: real, s0: Search, s: Search)
    requires mach.Valid()
    decreases s.iter
  {
    if s.iter <= 1 then s == NextTry(mach, s0)
    else exists p: Search ::
      p.iter < s.iter && Reached(mach, r, d, b, delta, s0, p) && Follows(mach, r, d, b, delta, p, s)
  }

  lemma ReachedNext(mach: Machine, r: Mat, d: Vec, b: Vec, delta: real, s0: Search, p: Search, s: Search, t: Mat,
                    z: Vec, y: Vec)
    requires mach.Valid() && Reached(mach, r, d, b, delta, s0, p) && p.iter >= 1
    requires FollowsBy(mach, r, d, b, delta, p, s, t, z, y)
    ensures Reached(mach, r, d, b, delta, s0, s) && s.iter == p.iter + 1
  {
    hide Tried, Step;
    TriedSizes(mach, t, r, d, b, p.par, z, y);
    assert Follows(mach, r, d, b, delta, p, s);
  }

  // ---- what every try keeps ----

  /** z is the step of length delta that the damping root gives. */
  ghost predicate Root(mach: Machine, r: Mat, d: Vec, b: Vec, delta: real, z: Vec, root: real)
    requires mach.Valid()
  {
    Damped(r, d, b, z, root) && root > 0.0 && ScaledNorm(mach, d, z) == delta
  }

  /** parl is at or below every root. */
  ghost predicate LowerOnly(mach: Machine, r: Mat, d: Vec, b: Vec, delta: real, parl: real)
    requires mach.Valid()
  {
    forall z: Vec, root: real :: Root(mach, r, d, b, delta, z, root) ==> parl <= root
  }

  /** paru is at or above every root. */
  ghost predicate UpperOnly(mach: Machine, r: Mat, d: Vec, b: Vec, delta: real, paru: real)
    requires mach.Valid()
  {
    forall z: Vec, root: real :: Root(mach, r, d, b, delta, z, root) ==> root <= paru
  }

  /** The bounds enclose the roots, and a positive lower bound still gives a step that is not too short. */
  ghost predicate SearchOk(mach: Machine, r: Mat, d: Vec, b: Vec, delta: real, s: Search)
    requires mach.Valid()
  {
    && s.par >= 0.0 && s.parl >= 0.0 && (Nonsingular(r) ==> s.parl > 0.0)
    && LowerOnly(mach, r, d, b, delta, s.parl) && UpperOnly(mach, r, d, b, delta, s.paru)
    && (s.parl > 0.0 ==> Long(mach, r, d, b, delta, s.parl))
  }

  /** The estimate is at or below every root and does not give too short a step, unless it stands in for zero. */
  ghost predicate Behind(mach: Machine, r: Mat, d: Vec, b: Vec, delta: real, s: Search)
    requires mach.Valid()
  {
    || (s.parl == 0.0 && s.par == StandIn(mach, s.paru))
    || (LowerOnly(mach, r, d, b, delta, s.par) && Long(mach, r, d, b, delta, s.par))
  }

  lemma RootSizes(mach: Machine, r: Mat, d: Vec, b: Vec, delta: real, z: Vec, root: real)
    requires mach.Valid() && Root(mach, r, d, b, delta, z, root)
    ensures |z| == |d| && Damped(r, d, b, z, root) && root > 0.0 && ScaledNorm(mach, d, z) == delta
  {
  }

  /** paru bounds every root; when it had to be replaced, there is none. */
  lemma UpperIsAbove(mach: Machine, r: Mat, d: Vec, b: Vec, delta: real, gnorm: real, paru: real)
    requires mach.Valid() && IsMat(r, |b|, |b|) && |d| == |b| && delta > 0.0 && forall i :: 0 <= i < |d| ==> d[i] != 0.0
    requires gnorm == mach.Norm(Divided(Comb(b, r, |b|), d)) && paru == FirstUpper(mach, gnorm, delta)
    ensures UpperOnly(mach, r, d, b, delta, paru)
  {
    hide Damped, Root, FirstUpper, Divided, Comb;
    var q := gnorm / delta;
    FirstUpperIs(mach, gnorm, delta, q, paru);
    forall z: Vec, root: real | Root(mach, r, d, b, delta, z, root)
      ensures root <= paru
    {
      RootSizes(mach, r, d, b, delta, z, root);
      DampedLength(mach, r, d, b, z, root);
      UpperQuotient(root, delta, gnorm, q);
    }
  }

  lemma FirstUpperIs(mach: Machine, gnorm: real, delta: real, q: real, paru: real)
    requires mach.Valid() && delta > 0.0 && q == gnorm / delta && paru == FirstUpper(mach, gnorm, delta)
    ensures q != 0.0 ==> paru == q
  {
  }

  lemma UpperQuotient(root: real, delta: real, g: real, q: real)
    requires root > 0.0 && delta > 0.0 && root * delta <= g && q == g / delta
    ensures q != 0.0 && root <= q
  {
    assert q * delta == g;
    PositiveProduct(root, delta, root * delta);
    ScaleOrder(delta, root, q, root * delta, g);
  }

  /** The first bounds and estimate are not negative. */
  lemma FirstSigns(mach: Machine, delta: real, par0: real, parl: real, paru: real, gnorm: real, dxnorm: real)
    requires mach.Valid() && delta > 0.0 && par0 >= 0.0 && parl >= 0.0 && gnorm >= 0.0 && dxnorm > 0.0
    requires paru == FirstUpper(mach, gnorm, delta)
    ensures paru > 0.0 && FirstEstimate(par0, parl, paru, gnorm, dxnorm) >= 0.0
  {
    DivisionSign(gnorm, delta, gnorm / delta);
    DivisionSign(mach.dwarf, Min(delta, 0.1), mach.dwarf / Min(delta, 0.1));
    DivisionSign(gnorm, dxnorm, gnorm / dxnorm);
  }

  /** The search begins with bounds that enclose the roots. */
  lemma OpeningOk(mach: Machine, r: Mat, d: Vec, b: Vec, delta: real, par0: real, gn: Vec, nsing: nat, s: Search)
    requires mach.Valid() && Opening(mach, r, d, b, delta, par0, gn, nsing, s) && Sloped(r, d, b) && par0 >= 0.0
    requires (nsing >= |d| ==> Mul(r, gn) == b) && (Nonsingular(r) ==> nsing >= |d|)
    ensures SearchOk(mach, r, d, b, delta, s)
  {
    hide Sloped, Long, Step, Comb, Mul, Damped, Nonsingular, FirstLower, Root;
    var gnorm := mach.Norm(Divided(Comb(b, r, |d|), d));
    UpperIsAbove(mach, r, d, b, delta, gnorm, s.paru);
    if nsing >= |d| {
      var y :| FirstLower(mach, r, d, gn, delta, y, s.parl);
      FirstStaysLong(mach, r, d, b, gn, delta, y, s.parl);
    }
    forall z: Vec, root: real | Root(mach, r, d, b, delta, z, root)
      ensures s.parl <= root
    {
      RootSizes(mach, r, d, b, delta, z, root);
      if nsing >= |d| {
        var y :| FirstLower(mach, r, d, gn, delta, y, s.parl);
        FirstIsBelow(mach, r, d, b, gn, delta, y, s.parl, z, root);
      }
    }
    FirstSigns(mach, delta, par0, s.parl, s.paru, gnorm, ScaledNorm(mach, d, gn));
  }

  /** An evaluated damping is at or below every root if its step is too long, at or above every root if too short. */
  lemma SideOfRoots(mach: Machine, r: Mat, d: Vec, b: Vec, delta: real, par: real, z: Vec)
    requires mach.Valid() && Damped(r, d, b, z, par) && par > 0.0
    ensures ScaledNorm(mach, d, z) > delta ==> LowerOnly(mach, r, d, b, delta, par)
    ensures ScaledNorm(mach, d, z) < delta ==> UpperOnly(mach, r, d, b, delta, par)
  {
    hide Damped, Root;
    DampedSizes(r, d, b, z, par);
    forall z': Vec, root: real | Root(mach, r, d, b, delta, z', root)
      ensures (ScaledNorm(mach, d, z) > delta ==> par <= root) && (ScaledNorm(mach, d, z) < delta ==> root <= par)
    {
      RootSizes(mach, r, d, b, delta, z', root);
      if root < par {
        DampedMonotone(mach, r, d, b, z', root, z, par);
      } else if par < root {
        DampedMonotone(mach, r, d, b, z, par, z', root);
      }
    }
  }

  /** All solutions for one damping are as long as one of them. */
  lemma LongLike(mach: Machine, r: Mat, d: Vec, b: Vec, delta: real, par: real, z: Vec)
    requires mach.Valid() && Damped(r, d, b, z, par) && par > 0.0 && |z| == |d| && ScaledNorm(mach, d, z) >= delta
    ensures Long(mach, r, d, b, delta, par)
  {
    hide Damped;
    forall z': Vec | Damped(r, d, b, z', par)
      ensures |z'| == |d| && ScaledNorm(mach, d, z') >= delta
    {
      DampedSizes(r, d, b, z', par);
      SameDampingLength(mach, r, d, b, z, z', par);
    }
  }

  /** After an evaluation the roots stay between the bounds, and the new estimate, if positive, is at or below every
      root and gives a step that is not too short. t is the triangle of the evaluated system, and
      transpose(T) y = D^2 z / |D z|. */
  lemma AdvanceOk(mach: Machine, r: Mat, d: Vec, b: Vec, delta: real, s: Search, z: Vec, t: Mat, y: Vec, fp': real,
                  parc: real)
    requires mach.Valid() && SearchOk(mach, r, d, b, delta, s) && delta > 0.0 && Tried(mach, t, r, d, b, s.par, z, y)
    requires fp' == ScaledNorm(mach, d, z) - delta && parc == Step(fp', delta, mach.Norm(y)) && Sloped(r, d, b)
    ensures var a := Advance(s, fp', parc); SearchOk(mach, r, d, b, delta, a) && a.parl <= a.par
    ensures var a := Advance(s, fp', parc);
            a.par > 0.0 ==> LowerOnly(mach, r, d, b, delta, a.par) && Long(mach, r, d, b, delta, a.par)
  {
    hide Damped, DampedTriangle, Step, Sloped, Long, Nonsingular, Root;
    SideOfRoots(mach, r, d, b, delta, s.par, z);
    if fp' > 0.0 {
      LongLike(mach, r, d, b, delta, s.par, z);
    }
    var q := s.par + parc;
    forall z': Vec, root: real | Root(mach, r, d, b, delta, z', root)
      ensures q <= root
    {
      RootSizes(mach, r, d, b, delta, z', root);
      NewtonBelowRoot(mach, t, r, d, b, s.par, z, y, delta, parc, z', root);
    }
    if q > 0.0 {
      NewtonStaysLong(mach, t, r, d, b, s.par, z, y, delta, parc, q);
    }
  }

  lemma FollowOk(mach: Machine, r: Mat, d: Vec, b: Vec, delta: real, s: Search, s': Search)
    requires mach.Valid() && SearchOk(mach, r, d, b, delta, s) && Follows(mach, r, d, b, delta, s, s')
    requires Sloped(r, d, b)
    ensures SearchOk(mach, r, d, b, delta, s') && s'.par > 0.0 && s'.iter == s.iter + 1 && s.iter != 10
    ensures Behind(mach, r, d, b, delta, s')
  {
    hide Tried, Sloped, Long, LowerOnly, UpperOnly, Nonsingular, Step;
    var t, z, y :| FollowsBy(mach, r, d, b, delta, s, s', t, z, y);
    TriedSizes(mach, t, r, d, b, s.par, z, y);
    var fp := ScaledNorm(mach, d, z) - delta;
    var parc := Step(fp, delta, mach.Norm(y));
    AdvanceOk(mach, r, d, b, delta, s, z, t, y, fp, parc);
  }

  lemma TriedSizes(mach: Machine, t: Mat, r: Mat, d: Vec, b: Vec, par: real, z: Vec, y: Vec)
    requires mach.Valid() && Tried(mach, t, r, d, b, par, z, y)
    ensures |z| == |y| == |d| && mach.Norm(y) > 0.0 && Damped(r, d, b, z, par) && par > 0.0
  {
  }

  /** In every search, at every try: the bounds enclose the roots, and from the second try on the estimate is at or
      below every root and does not give too short a step, unless it stands in for zero. */
  lemma {:induction false} ReachedOk(mach: Machine, r: Mat, d: Vec, b: Vec, delta: real, s0: Search, s: Search)
    requires mach.Valid() && Reached(mach, r, d, b, delta, s0, s) && SearchOk(mach, r, d, b, delta, s0)
    requires Sloped(r, d, b) && s0.iter == 0
    ensures SearchOk(mach, r, d, b, delta, s) && s.par > 0.0 && 1 <= s.iter <= 10
    ensures s.iter > 1 ==> Behind(mach, r, d, b, delta, s)
    decreases s.iter
  {
    hide Follows, Sloped, Long, LowerOnly, UpperOnly, Nonsingular, Behind;
    if s.iter > 1 {
      var p: Search :|
        p.iter < s.iter && Reached(mach, r, d, b, delta, s0, p) && Follows(mach, r, d, b, delta, p, s);
      ReachedOk(mach, r, d, b, delta, s0, p);
      FollowOk(mach, r, d, b, delta, p, s);
    }
  }

  // ---- how the search ends ----

  /** The search ends at the try s with the solution z and the triangle t of its system. */
  ghost predicate Found(mach: Machine, r: Mat, d: Vec, b: Vec, delta: real, s0: Search, z: Vec, t: Mat, s: Search)
    requires mach.Valid()
  {
    && Reached(mach, r, d, b, delta, s0, s) && Damped(r, d, b, z, s.par) && DampedTriangle(t, r, d, s.par)
    && s.par > 0.0 && Accepts(s, ScaledNorm(mach, d, z) - delta, delta)
  }

  /** From the second evaluation on the step is not shorter than delta, unless the estimate stands in for zero. */
  lemma SecondTryLong(mach: Machine, r: Mat, d: Vec, b: Vec, delta: real, s0: Search, s: Search, z: Vec)
    requires mach.Valid() && Reached(mach, r, d, b, delta, s0, s) && SearchOk(mach, r, d, b, delta, s0)
    requires Sloped(r, d, b) && s0.iter == 0 && s.iter > 1 && Damped(r, d, b, z, s.par)
    ensures |z| == |d| && (ScaledNorm(mach, d, z) >= delta || (s.parl == 0.0 && s.par == StandIn(mach, s.paru)))
  {
    hide Reached, SearchOk, Sloped, LowerOnly, UpperOnly;
    ReachedOk(mach, r, d, b, delta, s0, s);
  }

  /** The search gives up without a lower bound, when the function was negative and did not grow, only at dwarf. */
  lemma GivesUpAtDwarf(mach: Machine, r: Mat, d: Vec, b: Vec, delta: real, s0: Search, s: Search, z: Vec)
    requires mach.Valid() && Reached(mach, r, d, b, delta, s0, s) && SearchOk(mach, r, d, b, delta, s0)
    requires Sloped(r, d, b) && s0.iter == 0 && s0.fp >= 0.0 && Damped(r, d, b, z, s.par) && |z| == |d|
    requires s.parl == 0.0 && ScaledNorm(mach, d, z) - delta <= s.fp < 0.0
    ensures s.par == mach.dwarf && s.iter > 1
  {
    hide Follows, Sloped, LowerOnly, UpperOnly, Nonsingular, Damped;
    ReachedOk(mach, r, d, b, delta, s0, s);
    assert s.iter > 1;
    var p: Search :|
      p.iter < s.iter && Reached(mach, r, d, b, delta, s0, p) && Follows(mach, r, d, b, delta, p, s);
    NotBefore(mach, r, d, b, delta, p, s, z);
    StandInSmall(mach, s.paru, p.par, s.par);
  }

  /** When the function was negative and did not grow, the damping did not fall. */
  lemma NotBefore(mach: Machine, r: Mat, d: Vec, b: Vec, delta: real, p: Search, s: Search, z: Vec)
    requires mach.Valid() && Follows(mach, r, d, b, delta, p, s) && Sloped(r, d, b) && s.par > 0.0
    requires Damped(r, d, b, z, s.par) && |z| == |d| && ScaledNorm(mach, d, z) - delta <= s.fp < 0.0
    ensures 0.0 < p.par <= s.par && s.paru <= p.par
  {
    hide Tried, Sloped, Damped, Step;
    var t, z', y :| FollowsBy(mach, r, d, b, delta, p, s, t, z', y);
    TriedSizes(mach, t, r, d, b, p.par, z', y);
    if s.par < p.par {
      DampedStrict(mach, r, d, b, z, s.par, z', p.par);
    }
  }

  lemma StandInSmall(mach: Machine, paru: real, q: real, par: real)
    requires mach.Valid() && par == StandIn(mach, paru) && 0.0 < q <= par && paru <= q
    ensures par == mach.dwarf
  {
  }
}
