/** lmpar promises a parameter with a step within a tenth of the radius. The code keeps the promise for a nonsingular
    factor unless its ten evaluations run out, and for a singular one it can be impossible to keep. */
module LmparPromise {
  import opened Reals
  import opened Vectors
  import opened Machines
  import opened DoglegPath
  import opened Dogleg
  import opened Levenberg
  import opened Newton
  import opened DampingSearch
  import opened Qrsolv
  import opened Lmpar

  /** The promise: par = 0 and the step at most a tenth too long, or par > 0 and the step within a tenth of delta. */
  ghost predicate Promised(mach: Machine, d: Vec, delta: real, z: Vec, par: real)
    requires mach.Valid() && |d| == |z|
  {
    if par == 0.0 then ScaledNorm(mach, d, z) - delta <= 0.1 * delta
    else par > 0.0 && Abs(ScaledNorm(mach, d, z) - delta) <= 0.1 * delta
  }

  /** A result with a positive parameter, from a search that began with bounds around the roots. */
  lemma ResultOk(mach: Machine, r: Mat, d: Vec, b: Vec, delta: real, par0: real, gn: Vec, nsing: nat, z: Vec, t: Mat,
                 par: real, s0: Search, s: Search)
    requires mach.Valid() && Parameter(mach, r, d, b, delta, par0, gn, nsing, z, t, par, s0, s) && par0 >= 0.0
    ensures |z| == |d|
    ensures par != 0.0 ==>
              par == s.par > 0.0 && delta > 0.0 && Damped(r, d, b, z, par) && Sloped(r, d, b)
              && SearchOk(mach, r, d, b, delta, s0) && s0.iter == 0 && s0.fp >= 0.0
              && Reached(mach, r, d, b, delta, s0, s) && Accepts(s, ScaledNorm(mach, d, z) - delta, delta)
    ensures par == 0.0 ==> Promised(mach, d, delta, z, par)
  {
    hide Sloped, SearchOk, Reached, LeadingSolve, DampedTriangle, FirstLower, FirstUpper, FirstEstimate, Accepts;
    if par != 0.0 {
      OpeningIsSound(mach, r, d, b, delta, par0, gn, nsing, s0);
    } else {
      assert |gn| == |d|;
    }
  }

  /** Before ten evaluations the promise is broken exactly when the search has no lower bound, has come down to dwarf,
      and the step is shorter than nine tenths of delta. Then no damping from dwarf on keeps the promise. */
  lemma BrokenBeforeTen(mach: Machine, r: Mat, d: Vec, b: Vec, delta: real, par0: real, gn: Vec, nsing: nat, z: Vec,
                        t: Mat, par: real, s0: Search, s: Search)
    requires mach.Valid() && Parameter(mach, r, d, b, delta, par0, gn, nsing, z, t, par, s0, s) && par0 >= 0.0
    requires par != 0.0 && s.iter != 10
    ensures |z| == |d|
    ensures !Promised(mach, d, delta, z, par) <==>
            s.parl == 0.0 && par == mach.dwarf && ScaledNorm(mach, d, z) < 0.9 * delta
    ensures !Promised(mach, d, delta, z, par) ==>
              forall z': Vec, q: real :: Damped(r, d, b, z', q) && q >= mach.dwarf ==>
                |z'| == |d| && !Promised(mach, d, delta, z', q)
  {
    hide Parameter, Sloped, SearchOk, Reached, Damped;
    ResultOk(mach, r, d, b, delta, par0, gn, nsing, z, t, par, s0, s);
    if !Promised(mach, d, delta, z, par) {
      GivesUpAtDwarf(mach, r, d, b, delta, s0, s, z);
      forall z': Vec, q: real | Damped(r, d, b, z', q) && q >= mach.dwarf
        ensures |z'| == |d| && !Promised(mach, d, delta, z', q)
      {
        DampedSizes(r, d, b, z', q);
        NotLonger(mach, r, d, b, z, par, z', q);
      }
    }
  }

  lemma NotLonger(mach: Machine, r: Mat, d: Vec, b: Vec, z: Vec, par: real, z': Vec, q: real)
    requires mach.Valid() && Damped(r, d, b, z, par) && Damped(r, d, b, z', q) && 0.0 < par <= q && |z| == |z'| == |d|
    ensures ScaledNorm(mach, d, z') <= ScaledNorm(mach, d, z)
  {
    hide Damped;
    if par < q {
      DampedMonotone(mach, r, d, b, z, par, z', q);
    } else {
      SameDampingLength(mach, r, d, b, z, z', q);
    }
  }

  /** After ten evaluations it is broken only by a step that is too long, unless the last estimate stands in for
      zero. */
  lemma BrokenAtTen(mach: Machine, r: Mat, d: Vec, b: Vec, delta: real, par0: real, gn: Vec, nsing: nat, z: Vec,
                    t: Mat, par: real, s0: Search, s: Search)
    requires mach.Valid() && Parameter(mach, r, d, b, delta, par0, gn, nsing, z, t, par, s0, s) && par0 >= 0.0
    requires par != 0.0 && s.iter == 10
    ensures |z| == |d|
    ensures !Promised(mach, d, delta, z, par) ==>
              ScaledNorm(mach, d, z) > 1.1 * delta || (s.parl == 0.0 && par == StandIn(mach, s.paru))
  {
    hide Parameter, Sloped, SearchOk, Reached, Damped, StandIn;
    ResultOk(mach, r, d, b, delta, par0, gn, nsing, z, t, par, s0, s);
    SecondTryLong(mach, r, d, b, delta, s0, s, z);
  }

  /** For a nonsingular factor only a step still too long after ten evaluations breaks the promise. */
  lemma KeptWhenNonsingular(mach: Machine, r: Mat, d: Vec, b: Vec, delta: real, par0: real, gn: Vec, nsing: nat, z: Vec,
                            t: Mat, par: real, s0: Search, s: Search)
    requires mach.Valid() && Parameter(mach, r, d, b, delta, par0, gn, nsing, z, t, par, s0, s) && par0 >= 0.0
    requires Nonsingular(r)
    ensures |z| == |d|
    ensures Promised(mach, d, delta, z, par)
            || (par > 0.0 && s.iter == 10 && ScaledNorm(mach, d, z) > 1.1 * delta)
  {
    hide Parameter, Sloped, Reached, Damped, StandIn, Promised, Accepts, LowerOnly, UpperOnly, Long;
    ResultOk(mach, r, d, b, delta, par0, gn, nsing, z, t, par, s0, s);
    if par != 0.0 {
      ReachedOk(mach, r, d, b, delta, s0, s);
      if s.iter != 10 {
        BrokenBeforeTen(mach, r, d, b, delta, par0, gn, nsing, z, t, par, s0, s);
      } else {
        BrokenAtTen(mach, r, d, b, delta, par0, gn, nsing, z, t, par, s0, s);
      }
    }
  }

  /** No positive damping makes the step longer than a solution z0 of the undamped equations. When the direction lmpar
      tries first is too long and z0 too short, no parameter keeps the promise. */
  lemma BrokenWhenShort(mach: Machine, r: Mat, d: Vec, b: Vec, delta: real, par0: real, gn: Vec, nsing: nat, z: Vec,
                        t: Mat, par: real, s0: Search, s: Search, z0: Vec)
    requires mach.Valid() && Parameter(mach, r, d, b, delta, par0, gn, nsing, z, t, par, s0, s) && |z0| == |d|
    requires ScaledNorm(mach, d, gn) > 1.1 * delta && Damped(r, d, b, z0, 0.0) && ScaledNorm(mach, d, z0) < 0.9 * delta
    requires par0 >= 0.0
    ensures |z| == |d| && par > 0.0 && ScaledNorm(mach, d, z) < 0.9 * delta && !Promised(mach, d, delta, z, par)
  {
    hide SearchOk, LeadingSolve, Reached, Found, Opening, Sloped, Damped, Accepts;
    ResultOk(mach, r, d, b, delta, par0, gn, nsing, z, t, par, s0, s);
    DampedMonotone(mach, r, d, b, z0, 0.0, z, par);
  }

  const R: Mat := [[1.0, 1.0], [0.0, 0.0]]
  const B: Vec := [1.2, 0.0]
  const D: Vec := [1.0, 1.0]

  /** It happens: R = (1 1; 0 0), b = (1.2, 0), D = I and delta = 1. */
  lemma PromiseCanBreak(mach: Machine, par0: real, gn: Vec, nsing: nat, z: Vec, t: Mat, par: real, s0: Search,
                        s: Search)
    requires mach.Valid() && Parameter(mach, R, D, B, 1.0, par0, gn, nsing, z, t, par, s0, s) && par0 >= 0.0
    ensures |z| == |D| && !Promised(mach, D, 1.0, z, par)
  {
    hide Damped, LeadingSolve, ScaledNorm, Found, Promised, Opening, UpperTriangular;
    FirstDirection(gn, nsing);
    FirstLength(mach, gn);
    ShortSolution([0.6, 0.6]);
    ShortLength(mach, [0.6, 0.6]);
    BrokenWhenShort(mach, R, D, B, 1.0, par0, gn, nsing, z, t, par, s0, s, [0.6, 0.6]);
  }

  lemma FirstDirection(gn: Vec, nsing: nat)
    requires LeadingSolve(R, B, gn, nsing)
    ensures gn == [1.2, 0.0]
  {
    assert R[0][0] == 1.0 && R[1][1] == 0.0 && |gn| == 2;
    assert nsing == 1;
    Dot2(R[0], gn);
  }

  lemma FirstLength(mach: Machine, gn: Vec)
    requires mach.Valid() && gn == [1.2, 0.0]
    ensures ScaledNorm(mach, D, gn) > 1.1
  {
    ScaledSquareOf(gn, D, 1.44);
    SquareOrder(1.1, ScaledNorm(mach, D, gn), 1.21, ScaledSquare(D, gn));
  }

  lemma ShortLength(mach: Machine, z0: Vec)
    requires mach.Valid() && z0 == [0.6, 0.6]
    ensures ScaledNorm(mach, D, z0) < 0.9
  {
    ScaledSquareOf(z0, D, 0.72);
    SquareOrder(ScaledNorm(mach, D, z0), 0.9, ScaledSquare(D, z0), 0.81);
  }

  lemma ScaledSquareOf(x: Vec, d: Vec, q: real)
    requires |x| == 2 && d == [1.0, 1.0] && q == x[0] * x[0] + x[1] * x[1]
    ensures ScaledSquare(d, x) == q
  {
    assert Times(d, x) == x;
    Dot2(x, x);
  }

  /** R z0 = b */
  lemma ShortSolution(z0: Vec)
    requires z0 == [0.6, 0.6]
    ensures Damped(R, D, B, z0, 0.0)
  {
    Dot2(R[0], z0);
    Dot2(R[1], z0);
    assert Mul(R, z0) == B;
    assert Axpy(0.0, Times(D, Times(D, z0)), Comb(B, R, 2)) == Comb(B, R, 2);
  }
}
