/** The user's functions: what the solvers call, and when they ask to stop. */
module Users {
  import opened Vectors
  import opened Machines
  import opened Arrays

  /** f maps vectors of length n to vectors of length m. flag(k, x) is the value returned by the k-th call, made at x;
      a negative value ends the run. */
  datatype Fcn = Fcn(n: nat, m: nat, f: Vec -> Vec, flag: (nat, Vec) -> int) {
    ghost predicate Valid() {
      forall x: Vec {:trigger f(x)} :: |x| == n ==> |f(x)| == m
    }
  }

  /** A function that also supplies its Jacobian: jac(x)[j] is column j at x, jflag(k, x) the value of the k-th such
      call. */
  datatype FcnDer = FcnDer(fcn: Fcn, jac: Vec -> Mat, jflag: (nat, Vec) -> int) {
    ghost predicate Valid() {
      fcn.Valid() && forall x: Vec {:trigger jac(x)} :: |x| == fcn.n ==> IsMat(jac(x), fcn.n, fcn.m)
    }
  }

  /** f is the value at x, and no worse than that at x0; better, unless x is x0. */
  ghost predicate Descends(mach: Machine, fcn: Fcn, x0: Vec, x: Vec, f: Vec)
    requires mach.Valid()
  {
    && f == fcn.f(x) && |x| == fcn.n && mach.Norm(f) <= mach.Norm(fcn.f(x0))
    && (x == x0 || mach.Norm(f) < mach.Norm(fcn.f(x0)))
  }

  /** Who asked a run to stop, if anybody did: the first call of the function, the call at a trial point, or one for a
      Jacobian. */
  datatype Caller = Nobody | Start | Trying | Jacobian

  /** The calls-th call of the function, made at x. */
  method Call(fcn: Fcn, x: Vec, out: array<real>, calls: nat) returns (iflag: int)
    requires fcn.Valid() && |x| == fcn.n && out.Length == fcn.m
    modifies out
    ensures iflag == fcn.flag(calls, x) && out[..] == fcn.f(x)
  {
    iflag := fcn.flag(calls, x);
    var y := fcn.f(x);
    forall i | 0 <= i < |y| {
      out[i] := y[i];
    }
  }

  /** The calls-th call of the Jacobian, made at x. */
  method CallJacobian(g: FcnDer, x: Vec, fjac: array2<real>, calls: nat) returns (iflag: int)
    requires g.Valid() && |x| == g.fcn.n == fjac.Length1 && fjac.Length0 == g.fcn.m
    modifies fjac
    ensures iflag == g.jflag(calls, x) && ColsOf(fjac) == g.jac(x)
  {
    iflag := g.jflag(calls, x);
    var cols := g.jac(x);
    forall i, j | 0 <= i < fjac.Length0 && 0 <= j < fjac.Length1 {
      fjac[i, j] := cols[j][i];
    }
    forall j | 0 <= j < fjac.Length1
      ensures ColsOf(fjac)[j] == cols[j]
    {
      assert ColsOf(fjac)[j] == ColOf(fjac, j);
    }
  }
}
