/** How lmpar's choice of the parameter shows in a step of lmder or lmdif: the length of the step against the bound. */
module MarquardtChoice {
  import opened Vectors
  import opened Machines
  import opened Dogleg
  import opened Qrfac
  import opened Qrsolv
  import opened Permutations
  import opened Newton
  import opened DampingSearch
  import opened Lmpar
  import opened LmparPromise
  import opened LeastSquares
  import opened Scaling

  /** What lmpar worked with and found: the factor, the right side and the order that stand for the Jacobian, the
      direction tried first and its rank, the direction chosen, its triangle, and the search from its first state to its
      last. */
  datatype Choice = Choice(r: Mat, qtf: Vec, ord: seq<nat>, gn: Vec, nsing: nat, x: Vec, t: Mat, s0: Search, s: Search)

  /** The step p and the parameter par are those lmpar finds for the Jacobian j0, the function value f, the scale d, the
      bound delta and the earlier parameter par0. */
  ghost predicate ChosenBy(mach: Machine, j0: Mat, f: Vec, d: Vec, delta: real, par0: real, par: real, p: Vec, m: nat,
                           w: Choice)
  {
    && mach.Valid() && Represents(j0, f, w.r, w.qtf, w.ord, |j0|, m) && ZeroRest(w.r)
    && |d| == |w.x| == |j0| && p == Scale(-1.0, w.x) && par0 >= 0.0 && par >= 0.0
    && Parameter(mach, w.r, Permuted(d, w.ord), w.qtf, delta, par0, w.gn, w.nsing, Permuted(w.x, w.ord), w.t, par, w.s0,
                 w.s)
  }

  ghost predicate Chosen(mach: Machine, j0: Mat, f: Vec, d: Vec, delta: real, par0: real, par: real, p: Vec, m: nat) {
    exists w: Choice :: ChosenBy(mach, j0, f, d, delta, par0, par, p, m, w)
  }

  /** The length of D p against the bound delta, after iter evaluations: without damping at most a tenth too long, with
      damping within a tenth, unless the search ran out of evaluations or came down to dwarf with too short a step. */
  ghost predicate Fits(mach: Machine, delta: real, par: real, length: real, s: Search) {
    if par == 0.0 then length <= 1.1 * delta
    else if s.iter == 10 then length >= 0.9 * delta || (s.parl == 0.0 && par == StandIn(mach, s.paru))
    else 0.9 * delta <= length <= 1.1 * delta || (par == mach.dwarf && s.parl == 0.0 && length < 0.9 * delta)
  }

  lemma ChoiceFits(mach: Machine, j0: Mat, f: Vec, d: Vec, delta: real, par0: real, par: real, p: Vec, m: nat,
                   w: Choice)
    requires ChosenBy(mach, j0, f, d, delta, par0, par, p, m, w)
    ensures |p| == |d| && Fits(mach, delta, par, ScaledNorm(mach, d, p), w.s)
  {
    hide Represents, Parameter, ZeroRest, StandIn;
    var z := ChoiceLength(mach, j0, f, d, delta, par0, par, p, m, w);
    if par == 0.0 {
      ResultOk(mach, w.r, Permuted(d, w.ord), w.qtf, delta, par0, w.gn, w.nsing, z, w.t, par, w.s0, w.s);
    } else if w.s.iter == 10 {
      BrokenAtTen(mach, w.r, Permuted(d, w.ord), w.qtf, delta, par0, w.gn, w.nsing, z, w.t, par, w.s0, w.s);
    } else {
      BrokenBeforeTen(mach, w.r, Permuted(d, w.ord), w.qtf, delta, par0, w.gn, w.nsing, z, w.t, par, w.s0, w.s);
    }
  }

  /** D p is as long in the order of the factor. */
  lemma ChoiceLength(mach: Machine, j0: Mat, f: Vec, d: Vec, delta: real, par0: real, par: real, p: Vec, m: nat,
                     w: Choice)
    returns (z: Vec)
    requires ChosenBy(mach, j0, f, d, delta, par0, par, p, m, w)
    ensures |p| == |d| == |w.x| && Permutation(w.ord) && |w.ord| == |d| && z == Permuted(w.x, w.ord)
    ensures ScaledNorm(mach, d, p) == ScaledNorm(mach, Permuted(d, w.ord), z)
  {
    hide Parameter, ZeroRest;
    z := Permuted(w.x, w.ord);
    NegatedLength(mach, d, w.x, p);
    PermutedNorm(mach, d, w.x, w.ord);
  }

  // ---- a Jacobian with independent columns ----

  ghost predicate Independent(j0: Mat, m: nat) {
    && IsMat(j0, |j0|, m)
    && forall x: Vec {:trigger Image(j0, x, m)} :: |x| == |j0| && Image(j0, x, m) == Zero(m) ==> x == Zero(|x|)
  }

  /** The matrix with its rows from i on replaced by those of the identity. */
  ghost function Grounded(r: Mat, i: nat): (s: Mat)
    requires IsMat(r, |r|, |r|)
    ensures IsMat(s, |r|, |r|)
    ensures forall h :: 0 <= h < |r| ==> s[h] == if h < i then r[h] else Unit(|r|, h)
  {
    seq(|r|, h requires 0 <= h < |r| => if h < i then r[h] else Unit(|r|, h))
  }

  /** A triangle whose first zero on the diagonal is in row i, with zeros from there on, maps some y with y[i] = 1 to
      zero. */
  lemma KernelVector(r: Mat, i: nat) returns (y: Vec)
    requires IsMat(r, |r|, |r|) && UpperTriangular(r) && ZeroRest(r) && i < |r| && r[i][i] == 0.0
    requires forall h :: 0 <= h < i ==> r[h][h] != 0.0
    ensures |y| == |r| && y[i] == 1.0 && Mul(r, y) == Zero(|r|)
  {
    var s, n := Grounded(r, i), |r|;
    y := UpperSolvable(s, Unit(n, i));
    assert Mul(s, y)[i] == Unit(n, i)[i] == 1.0;
    DotUnit(y, i);
    forall h | 0 <= h < n
      ensures Mul(r, y)[h] == 0.0
    {
      if h < i {
        assert Mul(s, y)[h] == Unit(n, i)[h] == 0.0;
      } else {
        assert forall c :: 0 <= c < n ==> r[h][c] == 0.0;
        DotRZero(r[h], y, 0, n);
      }
    }
  }

  /** A vector that the order p takes to y. */
  lemma Unpermuted(y: Vec, p: seq<nat>) returns (x: Vec)
    requires |p| == |y| && Permutation(p)
    ensures |x| == |y| && Permuted(x, p) == y
  {
    x := y;
    for k := 0 to |y|
      invariant |x| == |y| && forall h :: 0 <= h < k ==> x[p[h]] == y[h]
    {
      x := x[p[k] := y[k]];
    }
  }

  lemma FirstZero(r: Mat, n: nat) returns (i: nat)
    requires IsMat(r, |r|, |r|) && n <= |r|
    ensures i <= n && (i < n ==> r[i][i] == 0.0) && forall h :: 0 <= h < i ==> r[h][h] != 0.0
  {
    i := 0;
    while i < n && r[i][i] != 0.0
      invariant i <= n && forall h :: 0 <= h < i ==> r[h][h] != 0.0
    {
      i := i + 1;
    }
  }

  /** A zero on the diagonal of the factor is a combination of the columns that vanishes. */
  lemma DependentColumns(j0: Mat, f: Vec, r: Mat, qtf: Vec, ord: seq<nat>, n: nat, m: nat, i: nat) returns (x: Vec)
    requires Represents(j0, f, r, qtf, ord, n, m) && UpperTriangular(r) && ZeroRest(r) && i < n && r[i][i] == 0.0
    requires forall h :: 0 <= h < i ==> r[h][h] != 0.0
    ensures |x| == |j0| == n && IsMat(j0, n, m) && Image(j0, x, m) == Zero(m) && x != Zero(n)
  {
    var y := KernelVector(r, i);
    x := Unpermuted(y, ord);
    ProductsOf(j0, f, r, qtf, ord, n, m, x);
    DotRZero(Zero(n), Zero(n), 0, n);
    DotNonneg(Image(j0, x, m));
    assert Permuted(x, ord)[i] == x[ord[i]] == 1.0;
  }

  /** The factor of a Jacobian with independent columns is nonsingular. */
  lemma IndependentNonsingular(j0: Mat, f: Vec, r: Mat, qtf: Vec, ord: seq<nat>, n: nat, m: nat)
    requires Represents(j0, f, r, qtf, ord, n, m) && Independent(j0, m) && UpperTriangular(r) && ZeroRest(r)
    ensures Nonsingular(r)
  {
    var i := FirstZero(r, n);
    if i < n {
      var x := DependentColumns(j0, f, r, qtf, ord, n, m, i);
    }
  }

  /** For a Jacobian with independent columns the step meets the bound within a tenth, or is still too long after ten
      evaluations. */
  lemma IndependentFits(mach: Machine, j0: Mat, f: Vec, d: Vec, delta: real, par0: real, par: real, p: Vec, m: nat,
                        w: Choice)
    requires ChosenBy(mach, j0, f, d, delta, par0, par, p, m, w) && Independent(j0, m)
    ensures |p| == |d|
    ensures par == 0.0 || 0.9 * delta <= ScaledNorm(mach, d, p)
    ensures ScaledNorm(mach, d, p) <= 1.1 * delta || (par != 0.0 && w.s.iter == 10)
  {
    hide Represents, ZeroRest, Independent, Nonsingular;
    var z := ChoiceLength(mach, j0, f, d, delta, par0, par, p, m, w);
    IndependentNonsingular(j0, f, w.r, w.qtf, w.ord, |j0|, m);
    hide Parameter;
    KeptWhenNonsingular(mach, w.r, Permuted(d, w.ord), w.qtf, delta, par0, w.gn, w.nsing, z, w.t, par, w.s0, w.s);
  }
}
