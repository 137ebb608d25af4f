/** Householder reflections I - (1 / u_k) u transpose(u), and products of them in both orders. */
module Reflectors {
  import opened Reals
  import opened Vectors

  /** u with its first k components cleared: the form in which column k stores a reflection. */
  function Below(u: Vec, k: nat): (v: Vec)
    ensures |v| == |u| && forall i :: 0 <= i < |u| ==> v[i] == if i < k then 0.0 else u[i]
  {
    seq(|u|, i requires 0 <= i < |u| => if i < k then 0.0 else u[i])
  }

  /** The reflection of x by u with pivot k; the identity where the pivot is zero. */
  function Reflect(u: Vec, k: nat, x: Vec): (y: Vec)
    requires |u| == |x| && k < |u|
    ensures |y| == |x|
  {
    if u[k] == 0.0 then x else Axpy(-Dot(u, x) / u[k], u, x)
  }

  /** The vectors of stored reflections: the k-th has order m and zeros in its first k positions. */
  ghost predicate Stored(us: Mat, m: nat) {
    && |us| <= m
    && forall k :: 0 <= k < |us| ==> |us[k]| == m && us[k] == Below(us[k], k)
  }

  /** A vector makes an orthogonal reflection when its pivot is zero or u u = 2 u_k. */
  ghost predicate Proper(u: Vec, k: nat)
    requires k < |u|
  {
    u[k] == 0.0 || Dot(u, u) == 2.0 * u[k]
  }

  ghost predicate AllProper(us: Mat, m: nat) {
    Stored(us, m) && forall k :: 0 <= k < |us| ==> Proper(us[k], k)
  }

  /** H_(k-1) ... H_1 H_0 x: the order in which a factorization applies its reflections. */
  function Forward(us: Mat, k: nat, x: Vec): (y: Vec)
    requires k <= |us| <= |x| && IsMat(us, |us|, |x|)
    ensures |y| == |x|
  {
    if k == 0 then x else Reflect(us[k - 1], k - 1, Forward(us, k - 1, x))
  }

  /** H_k H_(k+1) ... x: the order in which qform accumulates them. */
  function Backward(us: Mat, k: nat, x: Vec): (y: Vec)
    requires k <= |us| <= |x| && IsMat(us, |us|, |x|)
    ensures |y| == |x|
    decreases |us| - k
  {
    if k == |us| then x else Reflect(us[k], k, Backward(us, k + 1, x))
  }

  lemma ReflectAdjoint(u: Vec, k: nat, x: Vec, y: Vec)
    requires |u| == |x| == |y| && k < |u|
    ensures Dot(Reflect(u, k, x), y) == Dot(x, Reflect(u, k, y))
  {
    if u[k] != 0.0 {
      var ux, uy := Dot(u, x), Dot(u, y);
      var p, q := -ux / u[k], -uy / u[k];
      DotAxpy(p, u, x, y);
      DotAxpy(q, u, y, x);
      DotCommutes(x, u);
      DotCommutes(x, y);
      SwapQuotients(ux, uy, u[k], p, q);
    }
  }

  lemma SwapQuotients(a: real, b: real, k: real, p: real, q: real)
    requires k != 0.0 && p == -a / k && q == -b / k
    ensures p * b == q * a
  {
    assert p * k == -a;
    assert q * k == -b;
    CrossMultiply(a, b, k, p, q);
  }

  lemma CrossMultiply(a: real, b: real, k: real, p: real, q: real)
    requires p * k == -a && q * k == -b
    ensures p * b == q * a
  {
    assert p * (q * k) == q * (p * k);
  }

  lemma ReflectInvolution(u: Vec, k: nat, x: Vec)
    requires |u| == |x| && k < |u| && Proper(u, k)
    ensures Reflect(u, k, Reflect(u, k, x)) == x
  {
    if u[k] != 0.0 {
      var y := Reflect(u, k, x);
      var ux := Dot(u, x);
      var p := -ux / u[k];
      DotAxpy(p, u, x, u);
      DotCommutes(u, x);
      TwiceReflected(ux, u[k], p, Dot(u, u), Dot(u, y));
      forall i | 0 <= i < |x|
        ensures Reflect(u, k, y)[i] == x[i]
      {
      }
    }
  }

  lemma TwiceReflected(ux: real, k: real, p: real, uu: real, uy: real)
    requires k != 0.0 && p == -ux / k && uu == 2.0 * k && uy == ux + p * uu
    ensures -uy / k == -p
  {
    assert p * k == -ux;
    Quotient(-uy, k, -p);
  }

  lemma ReflectIsometry(u: Vec, k: nat, x: Vec, y: Vec)
    requires |u| == |x| == |y| && k < |u| && Proper(u, k)
    ensures Dot(Reflect(u, k, x), Reflect(u, k, y)) == Dot(x, y)
  {
    ReflectAdjoint(u, k, x, Reflect(u, k, y));
    ReflectInvolution(u, k, y);
  }

  /** A reflection moves nothing it does not meet. */
  lemma ReflectFixes(u: Vec, k: nat, x: Vec)
    requires |u| == |x| && k < |u|
    requires forall i :: 0 <= i < |x| ==> u[i] == 0.0 || x[i] == 0.0
    ensures Reflect(u, k, x) == x
  {
    DotRZero(u, x, 0, |x|);
  }

  lemma ShiftReflection(us: Mat, k: nat, x: Vec, y: Vec)
    requires 0 < k <= |us| <= |x| == |y| && IsMat(us, |us|, |x|)
    ensures Dot(Forward(us, k, x), Backward(us, k, y)) == Dot(Forward(us, k - 1, x), Backward(us, k - 1, y))
  {
    ReflectAdjoint(us[k - 1], k - 1, Forward(us, k - 1, x), Backward(us, k, y));
  }

  /** Moving the reflections from one side of an inner product to the other, one at a time. */
  lemma {:induction false} ForwardBackward(us: Mat, k: nat, x: Vec, y: Vec)
    requires k <= |us| <= |x| == |y| && IsMat(us, |us|, |x|)
    ensures Dot(Forward(us, k, x), Backward(us, k, y)) == Dot(x, Backward(us, 0, y))
  {
    if k > 0 {
      ForwardBackward(us, k - 1, x, y);
      ShiftReflection(us, k, x, y);
    }
  }

  /** The forward product is the transpose of the backward product. */
  lemma ForwardIsTranspose(us: Mat, x: Vec, y: Vec)
    requires |us| <= |x| == |y| && IsMat(us, |us|, |x|)
    ensures Dot(Forward(us, |us|, x), y) == Dot(x, Backward(us, 0, y))
  {
    ForwardBackward(us, |us|, x, y);
  }

  lemma {:induction false} ForwardIsometry(us: Mat, k: nat, x: Vec, y: Vec)
    requires k <= |us| && |x| == |y| && AllProper(us, |x|)
    ensures Dot(Forward(us, k, x), Forward(us, k, y)) == Dot(x, y)
  {
    if k > 0 {
      ForwardIsometry(us, k - 1, x, y);
      ReflectIsometry(us[k - 1], k - 1, Forward(us, k - 1, x), Forward(us, k - 1, y));
    }
  }

  lemma {:induction false} BackwardIsometry(us: Mat, k: nat, x: Vec, y: Vec)
    requires k <= |us| && |x| == |y| && AllProper(us, |x|)
    ensures Dot(Backward(us, k, x), Backward(us, k, y)) == Dot(x, y)
    decreases |us| - k
  {
    if k < |us| {
      BackwardIsometry(us, k + 1, x, y);
      ReflectIsometry(us[k], k, Backward(us, k + 1, x), Backward(us, k + 1, y));
    }
  }

  /** With proper reflections the two products are inverse to each other. */
  lemma BackwardUndoesForward(us: Mat, x: Vec)
    requires AllProper(us, |x|)
    ensures Backward(us, 0, Forward(us, |us|, x)) == x
  {
    var f := Forward(us, |us|, x);
    forall i | 0 <= i < |x|
      ensures Backward(us, 0, f)[i] == x[i]
    {
      var e := Unit(|x|, i);
      ForwardIsTranspose(us, e, f);
      ForwardIsometry(us, |us|, e, x);
      DotUnit(x, i);
      DotUnit(Backward(us, 0, f), i);
    }
  }

  lemma ForwardUndoesBackward(us: Mat, x: Vec)
    requires AllProper(us, |x|)
    ensures Forward(us, |us|, Backward(us, 0, x)) == x
  {
    var b := Backward(us, 0, x);
    forall i | 0 <= i < |x|
      ensures Forward(us, |us|, b)[i] == x[i]
    {
      var e := Unit(|x|, i);
      ForwardIsTranspose(us, b, e);
      BackwardIsometry(us, 0, x, e);
      DotUnit(x, i);
      DotUnit(Forward(us, |us|, b), i);
    }
  }

  /** Reflections k, k + 1, ... leave the unit vectors below k alone. */
  lemma {:induction false} BackwardFixes(us: Mat, m: nat, k: nat, j: nat)
    requires Stored(us, m) && j < k <= |us|
    ensures Backward(us, k, Unit(m, j)) == Unit(m, j)
    decreases |us| - k
  {
    if k < |us| {
      BackwardFixes(us, m, k + 1, j);
      ReflectFixes(us[k], k, Unit(m, j));
    }
  }
}
