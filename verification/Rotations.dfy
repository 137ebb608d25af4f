/** Plane rotations between a component and the last one, as r1updt makes and records them and r1mpyq replays them. */
module Rotations {
  import opened Reals
  import opened Vectors
  import opened Machines

  /** The rotation of component j against the last component with cosine c and sine s. */
  datatype Givens = Givens(j: nat, c: real, s: real)

  /** Rotations of vectors of length n. */
  ghost predicate AreRotations(gs: seq<Givens>, n: nat) {
    forall k :: 0 <= k < |gs| ==> gs[k].j + 1 < n && IsRotation(gs[k])
  }

  ghost predicate IsRotation(g: Givens) {
    g.c * g.c + g.s * g.s == 1.0
  }

  function MixSub(c: real, a: real, s: real, b: real): real {
    c * a - s * b
  }

  function MixAdd(s: real, a: real, c: real, b: real): real {
    s * a + c * b
  }

  function Rot(g: Givens, x: Vec): (y: Vec)
    requires g.j + 1 < |x|
    ensures |y| == |x|
  {
    var l := |x| - 1;
    x[g.j := MixSub(g.c, x[g.j], g.s, x[l])][l := MixAdd(g.s, x[g.j], g.c, x[l])]
  }

  /** The first k rotations, in order. */
  function RotTo(gs: seq<Givens>, k: nat, x: Vec): (y: Vec)
    requires k <= |gs| && forall i :: 0 <= i < |gs| ==> gs[i].j + 1 < |x|
    ensures |y| == |x|
  {
    if k == 0 then x else Rot(gs[k - 1], RotTo(gs, k - 1, x))
  }

  function RotAll(gs: seq<Givens>, x: Vec): (y: Vec)
    requires forall i :: 0 <= i < |gs| ==> gs[i].j + 1 < |x|
    ensures |y| == |x|
  {
    RotTo(gs, |gs|, x)
  }

  lemma PlaneIdentity(c: real, s: real, a: real, b: real, p: real, q: real)
    requires c * c + s * s == 1.0
    ensures (c * a - s * b) * (c * p - s * q) + (s * a + c * b) * (s * p + c * q) == a * p + b * q
  {
    var c2, s2 := c * c, s * s;
    assert (c * a - s * b) * (c * p - s * q) == c2 * (a * p) - c * s * (a * q) - c * s * (b * p) + s2 * (b * q);
    assert (s * a + c * b) * (s * p + c * q) == s2 * (a * p) + c * s * (a * q) + c * s * (b * p) + c2 * (b * q);
    UnitWeight(c2, s2, a * p);
    UnitWeight(c2, s2, b * q);
  }

  lemma PlaneProduct(c: real, s: real, a: real, b: real, p: real, q: real)
    requires c * c + s * s == 1.0
    ensures MixSub(c, a, s, b) * MixSub(c, p, s, q) + MixAdd(s, a, c, b) * MixAdd(s, p, c, q) == a * p + b * q
  {
    PlaneIdentity(c, s, a, b, p, q);
  }

  lemma UnitWeight(c2: real, s2: real, t: real)
    requires c2 + s2 == 1.0
    ensures c2 * t + s2 * t == t
  {
    assert c2 * t + s2 * t == (c2 + s2) * t;
  }

  /** A rotation preserves inner products. */
  lemma RotIsometry(g: Givens, x: Vec, y: Vec)
    requires g.j + 1 < |x| == |y| && IsRotation(g)
    ensures Dot(Rot(g, x), Rot(g, y)) == Dot(x, y)
  {
    var j, l := g.j, |x| - 1;
    var a, b := MixSub(g.c, x[j], g.s, x[l]), MixAdd(g.s, x[j], g.c, x[l]);
    var p, q := MixSub(g.c, y[j], g.s, y[l]), MixAdd(g.s, y[j], g.c, y[l]);
    DotUpdateTwo(x, y, j, l, a, b, p, q);
    PlaneProduct(g.c, g.s, x[j], x[l], y[j], y[l]);
  }

  lemma {:induction false} RotToIsometry(gs: seq<Givens>, k: nat, x: Vec, y: Vec)
    requires k <= |gs| && |x| == |y| && AreRotations(gs, |x|)
    ensures Dot(RotTo(gs, k, x), RotTo(gs, k, y)) == Dot(x, y)
  {
    if k > 0 {
      RotToIsometry(gs, k - 1, x, y);
      RotIsometry(gs[k - 1], RotTo(gs, k - 1, x), RotTo(gs, k - 1, y));
    }
  }

  lemma RotAxpy(g: Givens, t: real, y: Vec, x: Vec)
    requires g.j + 1 < |x| == |y|
    ensures Rot(g, Axpy(t, y, x)) == Axpy(t, Rot(g, y), Rot(g, x))
  {
    var u, v := Rot(g, Axpy(t, y, x)), Axpy(t, Rot(g, y), Rot(g, x));
    forall i | 0 <= i < |x|
      ensures u[i] == v[i]
    {
      RotAxpyAt(g, t, y, x, i, Rot(g, x)[i], Rot(g, y)[i]);
    }
  }

  lemma RotAxpyAt(g: Givens, t: real, y: Vec, x: Vec, i: nat, rx: real, ry: real)
    requires g.j + 1 < |x| == |y| && i < |x| && rx == Rot(g, x)[i] && ry == Rot(g, y)[i]
    ensures Rot(g, Axpy(t, y, x))[i] == rx + t * ry
  {
    hide MixSub, MixAdd;
    var j, l, z := g.j, |x| - 1, Axpy(t, y, x);
    if i == j {
      RotFirst(g, x, rx);
      RotFirst(g, y, ry);
      MixSubLinear(g.c, g.s, t, x[j], x[l], y[j], y[l], z[j], z[l], rx, ry);
    } else if i == l {
      RotLast(g, x, rx);
      RotLast(g, y, ry);
      MixAddLinear(g.s, g.c, t, x[j], x[l], y[j], y[l], z[j], z[l], rx, ry);
    }
  }

  lemma RotFirst(g: Givens, x: Vec, r: real)
    requires g.j + 1 < |x| && r == Rot(g, x)[g.j]
    ensures r == MixSub(g.c, x[g.j], g.s, x[|x| - 1])
  {
  }

  lemma RotLast(g: Givens, x: Vec, r: real)
    requires g.j + 1 < |x| && r == Rot(g, x)[|x| - 1]
    ensures r == MixAdd(g.s, x[g.j], g.c, x[|x| - 1])
  {
  }

  lemma MixSubLinear(c: real, s: real, t: real, a: real, b: real, p: real, q: real, x: real, y: real, mx: real,
                     my: real)
    requires x == a + t * p && y == b + t * q && mx == MixSub(c, a, s, b) && my == MixSub(c, p, s, q)
    ensures MixSub(c, x, s, y) == mx + t * my
  {
  }

  lemma MixAddLinear(c: real, s: real, t: real, a: real, b: real, p: real, q: real, x: real, y: real, mx: real,
                     my: real)
    requires x == a + t * p && y == b + t * q && mx == MixAdd(c, a, s, b) && my == MixAdd(c, p, s, q)
    ensures MixAdd(c, x, s, y) == mx + t * my
  {
  }

  lemma {:induction false} RotToAxpy(gs: seq<Givens>, k: nat, t: real, y: Vec, x: Vec)
    requires k <= |gs| && |x| == |y| && forall i :: 0 <= i < |gs| ==> gs[i].j + 1 < |x|
    ensures RotTo(gs, k, Axpy(t, y, x)) == Axpy(t, RotTo(gs, k, y), RotTo(gs, k, x))
  {
    if k > 0 {
      RotToAxpy(gs, k - 1, t, y, x);
      RotAxpy(gs[k - 1], t, RotTo(gs, k - 1, y), RotTo(gs, k - 1, x));
    }
  }

  lemma {:induction false} RotToZero(gs: seq<Givens>, k: nat, n: nat)
    requires k <= |gs| && forall i :: 0 <= i < |gs| ==> gs[i].j + 1 < n
    ensures RotTo(gs, k, Zero(n)) == Zero(n)
  {
    if k > 0 {
      RotToZero(gs, k - 1, n);
      RotZero(gs[k - 1], Zero(n));
    }
  }

  lemma RotZero(g: Givens, z: Vec)
    requires g.j + 1 < |z| && z == Zero(|z|)
    ensures Rot(g, z) == z
  {
    var a, b := Rot(g, z)[g.j], Rot(g, z)[|z| - 1];
    RotFirst(g, z, a);
    RotLast(g, z, b);
    MixZero(g.c, g.s, z[g.j], z[|z| - 1], a, b);
  }

  lemma MixZero(c: real, s: real, x: real, y: real, a: real, b: real)
    requires x == 0.0 && y == 0.0 && a == MixSub(c, x, s, y) && b == MixAdd(s, x, c, y)
    ensures a == 0.0 && b == 0.0
  {
  }

  /** Rotating a combination of rows is combining rotated rows. */
  lemma {:induction false} RotComb(gs: seq<Givens>, c: Vec, a: Mat, b: Mat, n: nat, k: nat)
    requires IsMat(a, |c|, n) && IsMat(b, |c|, n) && k <= |c| && forall i :: 0 <= i < |gs| ==> gs[i].j + 1 < n
    requires forall i :: 0 <= i < |c| ==> b[i] == RotAll(gs, a[i])
    ensures RotAll(gs, CombTo(c, a, n, k)) == CombTo(c, b, n, k)
  {
    if k == 0 {
      RotToZero(gs, |gs|, n);
    } else {
      RotComb(gs, c, a, b, n, k - 1);
      RotToAxpy(gs, |gs|, c[k - 1], a[k - 1], CombTo(c, a, n, k - 1));
    }
  }

  lemma {:induction false} RotToPrefix(gs: seq<Givens>, hs: seq<Givens>, k: nat, x: Vec)
    requires k <= |gs| && k <= |hs| && gs[..k] == hs[..k]
    requires forall i :: 0 <= i < |gs| ==> gs[i].j + 1 < |x|
    requires forall i :: 0 <= i < |hs| ==> hs[i].j + 1 < |x|
    ensures RotTo(gs, k, x) == RotTo(hs, k, x)
  {
    if k > 0 {
      assert gs[k - 1] == gs[..k][k - 1] == hs[..k][k - 1] == hs[k - 1];
      assert gs[..k - 1] == gs[..k][..k - 1] == hs[..k - 1];
      RotToPrefix(gs, hs, k - 1, x);
    }
  }

  lemma RotAppend(gs: seq<Givens>, g: Givens, x: Vec)
    requires g.j + 1 < |x| && forall i :: 0 <= i < |gs| ==> gs[i].j + 1 < |x|
    ensures RotAll(gs + [g], x) == Rot(g, RotAll(gs, x))
  {
    RotToPrefix(gs, gs + [g], |gs|, x);
  }

  /** Applying one list of rotations after another. */
  lemma {:induction false} RotConcat(gs: seq<Givens>, hs: seq<Givens>, k: nat, x: Vec)
    requires k <= |hs|
    requires forall i :: 0 <= i < |gs| ==> gs[i].j + 1 < |x|
    requires forall i :: 0 <= i < |hs| ==> hs[i].j + 1 < |x|
    ensures RotTo(gs + hs, |gs| + k, x) == RotTo(hs, k, RotAll(gs, x))
  {
    hide Rot;
    if k == 0 {
      RotToPrefix(gs, gs + hs, |gs|, x);
    } else {
      RotConcat(gs, hs, k - 1, x);
    }
  }

  // ---- making a rotation and recording it in one number ----

  /** The rotation that eliminates g against f, and the number it is recorded by. */
  datatype Made = Made(cos: real, sin: real, tau: real)

  /** .5 / sqrt(.25 + .25 t^2) */
  function Side(mach: Machine, t: real): real
    requires mach.Valid()
  {
    var root := mach.sqrt(0.25 + 0.25 * (t * t));
    SecondSide(mach, t, root);
    0.5 / root
  }

  predicate Invertible(mach: Machine, cos: real) {
    Larger(Abs(cos), mach.giant, 1.0)
  }

  predicate Larger(a: real, b: real, c: real) {
    a * b > c
  }

  lemma InvertibleNonzero(mach: Machine, cos: real)
    requires Invertible(mach, cos)
    ensures cos != 0.0
  {
  }

  /** The record of a rotation made from its cotangent: 1 stands for a cosine too small to invert. */
  function CosineRecord(mach: Machine, cos: real): (tau: real)
    ensures Invertible(mach, cos) ==> cos != 0.0 && tau == 1.0 / cos
    ensures !Invertible(mach, cos) ==> tau == 1.0
  {
    if Invertible(mach, cos) then
      InvertibleNonzero(mach, cos);
      1.0 / cos
    else 1.0
  }

  function FromCotangent(mach: Machine, cotan: real): Made
    requires mach.Valid()
  {
    var sin := Side(mach, cotan);
    Made(sin * cotan, sin, CosineRecord(mach, sin * cotan))
  }

  function FromTangent(mach: Machine, tan: real): Made
    requires mach.Valid()
  {
    var cos := Side(mach, tan);
    Made(cos, cos * tan, cos * tan)
  }

  function Eliminator(mach: Machine, f: real, g: real): Made
    requires mach.Valid() && g != 0.0
  {
    if Abs(f) < Abs(g) then FromCotangent(mach, f / g) else FromTangent(mach, g / f)
  }

  /** How a made rotation relates to its pair (f, g): it is a rotation, it turns g away, and one of its sides is
      positive. */
  ghost predicate Rotates(r: Made, f: real, g: real) {
    r.cos * r.cos + r.sin * r.sin == 1.0 && r.cos * g == r.sin * f
  }

  lemma EliminatorEliminates(mach: Machine, f: real, g: real)
    requires mach.Valid() && g != 0.0
    ensures Rotates(Eliminator(mach, f, g), f, g)
  {
    if Abs(f) < Abs(g) {
      DividedBack(f, g, f / g);
      CotangentRotates(mach, f / g, f, g);
    } else {
      DividedBack(g, f, g / f);
      TangentRotates(mach, g / f, f, g);
    }
  }

  /** Of the two rotations that eliminate g against f it is the one whose larger side is positive. */
  lemma EliminatorUnique(mach: Machine, f: real, g: real, c: real, s: real)
    requires mach.Valid() && g != 0.0 && c * c + s * s == 1.0 && c * g == s * f
    requires if Abs(f) < Abs(g) then s > 0.0 else c > 0.0
    ensures Eliminator(mach, f, g).cos == c && Eliminator(mach, f, g).sin == s
  {
    hide FromCotangent, FromTangent, Rotates;
    if Abs(f) < Abs(g) {
      DividedBack(f, g, f / g);
      CotangentRotates(mach, f / g, f, g);
      SameRotation(FromCotangent(mach, f / g), f, g, c, s);
    } else {
      DividedBack(g, f, g / f);
      TangentRotates(mach, g / f, f, g);
      SameRotation(FromTangent(mach, g / f), f, g, c, s);
    }
  }

  lemma SameRotation(e: Made, f: real, g: real, c: real, s: real)
    requires Rotates(e, f, g) && c * c + s * s == 1.0 && c * g == s * f
    requires (g != 0.0 && s > 0.0 && e.sin > 0.0) || (f != 0.0 && c > 0.0 && e.cos > 0.0)
    ensures e.cos == c && e.sin == s
  {
    if g != 0.0 && s > 0.0 && e.sin > 0.0 {
      SameDirection(g, f, s, c, e.sin, e.cos);
    } else {
      SameDirection(f, g, c, s, e.cos, e.sin);
    }
  }

  /** Unit vectors along (a, b) with positive first components are the same. */
  lemma SameDirection(a: real, b: real, c: real, s: real, c': real, s': real)
    requires a != 0.0 && c > 0.0 && c' > 0.0 && s * a == c * b && s' * a == c' * b
    requires c * c + s * s == 1.0 && c' * c' + s' * s' == 1.0
    ensures c == c' && s == s'
  {
    var p := c * s' - s * c';
    assert p * a == 0.0 by {
      assert (c * s') * a == c * (s' * a) && (s * c') * a == (s * a) * c';
      assert c * (c' * b) == (c * b) * c';
    }
    ZeroProduct(p, a);
    ParallelUnits(c, s, c', s');
  }

  lemma ParallelUnits(c: real, s: real, c': real, s': real)
    requires c > 0.0 && c' > 0.0 && c * s' == s * c' && c * c + s * s == 1.0 && c' * c' + s' * s' == 1.0
    ensures c == c' && s == s'
  {
    var cc, dd, ss, tt := c * c, c' * c', s * s, s' * s';
    assert cc * tt == ss * dd by {
      assert (c * s') * (c * s') == (s * c') * (s * c');
    }
    assert cc * (dd + tt) == dd * (cc + ss);
    assert cc == dd;
    SquareOrder(c, c', cc, dd);
    SquareOrder(c', c, dd, cc);
    ZeroProduct(c, s' - s);
  }

  lemma CotangentRotates(mach: Machine, cotan: real, f: real, g: real)
    requires mach.Valid() && cotan * g == f
    ensures Rotates(FromCotangent(mach, cotan), f, g) && FromCotangent(mach, cotan).sin > 0.0
  {
    var p := SideSquare(mach, cotan);
    CancelCross(p, cotan, g, f);
  }

  lemma TangentRotates(mach: Machine, tan: real, f: real, g: real)
    requires mach.Valid() && tan * f == g
    ensures Rotates(FromTangent(mach, tan), f, g) && FromTangent(mach, tan).cos > 0.0
  {
    var p := SideSquare(mach, tan);
    CancelCross(p, tan, f, g);
  }

  lemma CancelCross(p: real, t: real, f: real, g: real)
    requires t * f == g
    ensures p * g == (p * t) * f
  {
  }

  lemma SideSquare(mach: Machine, t: real) returns (p: real)
    requires mach.Valid()
    ensures p == Side(mach, t) > 0.0 && p * p + (p * t) * (p * t) == 1.0
  {
    SecondSide(mach, t, mach.sqrt(0.25 + 0.25 * (t * t)));
    p := Side(mach, t);
  }

  /** The side .5 / sqrt(.25 + .25 t^2) and its multiple by t are a sine and a cosine. */
  lemma SecondSide(mach: Machine, t: real, root: real)
    requires mach.Valid() && root == mach.sqrt(0.25 + 0.25 * (t * t))
    ensures root > 0.0
    ensures var p := 0.5 / root; 0.0 < p <= 1.0 && p * p + (p * t) * (p * t) == 1.0
  {
    var t2 := t * t;
    var q := 0.25 + 0.25 * t2;
    SquareSign(t, t2);
    SquareSign(root, q);
    var p := 0.5 / root;
    DivisionSign(0.5, root, p);
    SideSquares(p, root, t, q);
    SquareOrder(p, 1.0, p * p, 1.0);
    SquareSign(p * t, (p * t) * (p * t));
  }

  lemma SideSquares(p: real, root: real, t: real, q: real)
    requires p * root == 0.5 && root * root == q && q == 0.25 + 0.25 * (t * t)
    ensures p * p + (p * t) * (p * t) == 1.0
  {
    assert (p * p) * q == (p * root) * (p * root) == 0.25;
    assert (p * p) * q == 0.25 * (p * p) + 0.25 * ((p * p) * (t * t));
    assert (p * t) * (p * t) == (p * p) * (t * t);
  }

  /** The nonnegative side belonging to the side c. */
  function OtherSide(mach: Machine, c: real): real {
    mach.sqrt(1.0 - c * c)
  }

  /** Reading a rotation back from its record. */
  function RecoverCos(mach: Machine, tau: real): real {
    if Abs(tau) > 1.0 then 1.0 / tau else OtherSide(mach, tau)
  }

  function RecoverSin(mach: Machine, tau: real): real {
    if Abs(tau) > 1.0 then OtherSide(mach, RecoverCos(mach, tau)) else tau
  }

  lemma OtherSideSquare(mach: Machine, c: real)
    requires mach.Valid() && c * c <= 1.0
    ensures c * c + OtherSide(mach, c) * OtherSide(mach, c) == 1.0 && OtherSide(mach, c) >= 0.0
  {
  }

  lemma OtherSideUnique(mach: Machine, c: real, s: real)
    requires mach.Valid() && s >= 0.0 && c * c + s * s == 1.0
    ensures OtherSide(mach, c) == s
  {
    var q := 1.0 - c * c;
    SquareSign(s, q);
    RootUnique(mach.sqrt(q), s);
  }

  /** Any number at all reads back as a rotation. */
  lemma RecoveredIsRotation(mach: Machine, tau: real)
    requires mach.Valid()
    ensures RecoverCos(mach, tau) * RecoverCos(mach, tau) + RecoverSin(mach, tau) * RecoverSin(mach, tau) == 1.0
  {
    if Abs(tau) > 1.0 {
      var c := 1.0 / tau;
      DividedBack(1.0, tau, c);
      ReciprocalSmall(tau, c);
      OtherSideSquare(mach, c);
    } else {
      SquareAbs(tau);
      SquareOrder(Abs(tau), 1.0, tau * tau, 1.0);
      OtherSideSquare(mach, tau);
    }
  }

  lemma ReciprocalSmall(tau: real, c: real)
    requires Abs(tau) > 1.0 && c * tau == 1.0
    ensures c * c < 1.0
  {
    var t2, c2 := tau * tau, c * c;
    SquareAbs(tau);
    SquareOrder(1.0, Abs(tau), 1.0, t2);
    assert c2 * t2 == (c * tau) * (c * tau) == 1.0;
    ScaleOrder(t2, c2, 1.0, 1.0, t2);
  }

  /** The record is lossy exactly when a nonzero cosine is no larger than 1 / giant. */
  predicate Flushed(mach: Machine, cos: real) {
    cos != 0.0 && !Invertible(mach, cos)
  }

  ghost predicate Faithful(mach: Machine, r: Made) {
    RecoverCos(mach, r.tau) == r.cos && RecoverSin(mach, r.tau) == r.sin
  }

  /** What r1mpyq reads back: the rotation itself, or a quarter turn in place of one whose record is lossy. */
  ghost predicate ReadsBack(mach: Machine, r: Made) {
    if Flushed(mach, r.cos) then RecoverCos(mach, r.tau) == 0.0 && RecoverSin(mach, r.tau) == 1.0 else Faithful(mach, r)
  }

  lemma RecordReads(mach: Machine, f: real, g: real)
    requires mach.Valid() && g != 0.0
    ensures ReadsBack(mach, Eliminator(mach, f, g))
  {
    hide Rotates, Side, Invertible;
    if Abs(f) < Abs(g) {
      DividedBack(f, g, f / g);
      CotangentRotates(mach, f / g, f, g);
      CotangentRecord(mach, FromCotangent(mach, f / g));
    } else {
      DividedBack(g, f, g / f);
      TangentRotates(mach, g / f, f, g);
      TangentSmall(g / f, f, g);
      TangentRecord(mach, g / f, FromTangent(mach, g / f));
    }
  }

  lemma RecordFaithful(mach: Machine, f: real, g: real)
    requires mach.Valid() && g != 0.0
    ensures var r := Eliminator(mach, f, g); Faithful(mach, r) <==> !Flushed(mach, r.cos)
  {
    hide Eliminator, RecoverCos, RecoverSin, Invertible;
    RecordReads(mach, f, g);
  }

  /** The rotation replayed for g; sign tells which way r1mpyq turns. */
  function Replay(mach: Machine, g: Givens, sign: real): Givens {
    if Flushed(mach, g.c) then Givens(g.j, 0.0, sign) else g
  }

  /** The planes of r1updt's two sweeps, down and up again. */
  ghost predicate Planes(gs: seq<Givens>, n: nat) {
    |gs| == 2 * (n - 1) && forall k :: 0 <= k < |gs| ==> gs[k].j == if k < n - 1 then n - 2 - k else k - (n - 1)
  }

  /** What r1mpyq replays for the rotations gs of the two sweeps. */
  ghost function Replayed(mach: Machine, gs: seq<Givens>, n: nat): (rs: seq<Givens>)
    ensures |rs| == |gs|
    ensures forall k :: 0 <= k < |gs| ==> rs[k] == Replay(mach, gs[k], if k < n - 1 then 1.0 else -1.0)
  {
    seq(|gs|, k requires 0 <= k < |gs| => Replay(mach, gs[k], if k < n - 1 then 1.0 else -1.0))
  }

  ghost predicate NoneFlushed(mach: Machine, gs: seq<Givens>) {
    forall k :: 0 <= k < |gs| ==> !Flushed(mach, gs[k].c)
  }

  /** The rotations are replayed as they were made exactly when none was too small to record. */
  lemma ReplayedFaithfully(mach: Machine, gs: seq<Givens>, n: nat)
    ensures Replayed(mach, gs, n) == gs <==> NoneFlushed(mach, gs)
  {
    var rs := Replayed(mach, gs, n);
    forall k | 0 <= k < |gs|
      ensures rs[k] == gs[k] <==> !Flushed(mach, gs[k].c)
    {
    }
    if rs == gs {
      assert forall k :: 0 <= k < |gs| ==> rs[k] == gs[k];
    }
  }

  lemma CotangentRecord(mach: Machine, r: Made)
    requires mach.Valid() && r.cos * r.cos + r.sin * r.sin == 1.0 && r.sin > 0.0 && r.tau == CosineRecord(mach, r.cos)
    ensures ReadsBack(mach, r)
  {
    if Invertible(mach, r.cos) {
      DividedBack(1.0, r.cos, r.tau);
      LargeRecord(mach, r.cos, r.sin, r.tau);
    } else {
      UnitRecord(mach, r.cos, r.sin);
    }
  }

  lemma LargeRecord(mach: Machine, cos: real, sin: real, tau: real)
    requires mach.Valid() && sin > 0.0 && cos * cos + sin * sin == 1.0 && tau * cos == 1.0
    ensures RecoverCos(mach, tau) == cos && RecoverSin(mach, tau) == sin
  {
    ReciprocalLarge(cos, sin, tau);
    OtherSideUnique(mach, cos, sin);
    Quotient(1.0, tau, cos);
  }

  lemma ReciprocalLarge(cos: real, sin: real, tau: real)
    requires sin > 0.0 && cos * cos + sin * sin == 1.0 && tau * cos == 1.0
    ensures Abs(tau) > 1.0 && 1.0 - cos * cos >= 0.0
  {
    var c2, t2, s2 := cos * cos, tau * tau, sin * sin;
    PositiveProduct(sin, sin, s2);
    SquareSign(tau, t2);
    assert t2 * c2 == (tau * cos) * (tau * cos) == 1.0;
    SquareAbs(tau);
    if Abs(tau) <= 1.0 {
      SquareOrder(Abs(tau), 1.0, t2, 1.0);
      SquareSign(cos, c2);
      NonnegProduct(1.0 - t2, c2, c2 - 1.0);
    }
  }

  lemma UnitRecord(mach: Machine, cos: real, sin: real)
    requires mach.Valid() && sin > 0.0 && cos * cos + sin * sin == 1.0
    ensures RecoverCos(mach, 1.0) == 0.0 && RecoverSin(mach, 1.0) == 1.0
    ensures cos == 0.0 ==> sin == 1.0
  {
    OtherSideUnique(mach, 1.0, 0.0);
    if cos == 0.0 {
      UnitSine(cos, sin);
    }
  }

  lemma UnitSine(cos: real, sin: real)
    requires sin > 0.0 && cos * cos + sin * sin == 1.0 && cos == 0.0
    ensures sin == 1.0
  {
    SquareSign(cos, cos * cos);
    SquareOrder(sin, 1.0, sin * sin, 1.0);
  }

  lemma TangentRecord(mach: Machine, tan: real, r: Made)
    requires mach.Valid() && tan * tan <= 1.0
    requires r.cos * r.cos + r.sin * r.sin == 1.0 && r.cos > 0.0 && r.sin == r.cos * tan && r.tau == r.sin
    ensures ReadsBack(mach, r)
  {
    SineSmall(r.cos, r.sin);
    SineReadsBack(mach, r.cos, r.sin);
    CosineLarge(r.cos, r.sin, tan);
    CosineInvertible(mach, r.cos);
  }

  lemma SineReadsBack(mach: Machine, cos: real, sin: real)
    requires mach.Valid() && cos * cos + sin * sin == 1.0 && cos > 0.0 && Abs(sin) <= 1.0
    ensures RecoverCos(mach, sin) == cos && RecoverSin(mach, sin) == sin
  {
    OtherSideUnique(mach, sin, cos);
  }

  lemma SineSmall(cos: real, sin: real)
    requires cos * cos + sin * sin == 1.0
    ensures Abs(sin) <= 1.0 && sin * sin <= 1.0
  {
    var s2 := sin * sin;
    SquareSign(cos, cos * cos);
    SquareAbs(sin);
    SquareOrder(Abs(sin), 1.0, s2, 1.0);
  }

  lemma TangentSmall(tan: real, f: real, g: real)
    requires tan * f == g && Abs(f) >= Abs(g) && g != 0.0
    ensures tan * tan <= 1.0
  {
    var t2, f2, g2 := tan * tan, f * f, g * g;
    assert t2 * f2 == (tan * f) * (tan * f) == g2;
    SquareAbs(f);
    SquareAbs(g);
    SquareOrder(Abs(g), Abs(f), g2, f2);
    SquareSign(f, f2);
    SquareSign(g, g2);
    ScaleOrder(f2, t2, 1.0, g2, f2);
  }

  lemma CosineLarge(cos: real, sin: real, tan: real)
    requires 0.0 < cos && cos * cos + sin * sin == 1.0 && sin == cos * tan && tan * tan <= 1.0
    ensures cos > 0.5
  {
    var c2, t2, s2 := cos * cos, tan * tan, sin * sin;
    assert s2 == c2 * t2;
    SquareSign(cos, c2);
    NonnegProduct(c2, 1.0 - t2, c2 - s2);
    SquareOrder(0.5, cos, 0.25, c2);
  }

  lemma CosineInvertible(mach: Machine, cos: real)
    requires mach.Valid() && cos > 0.5
    ensures Invertible(mach, cos)
  {
    PositiveProduct(cos - 0.5, mach.giant, (cos - 0.5) * mach.giant);
  }

  lemma CosineFlushed(mach: Machine, cos: real, p: real)
    requires cos > 0.0 && p == cos * mach.giant && p <= 1.0
    ensures Flushed(mach, cos)
  {
    hide Larger;
    NotLarger(cos, mach.giant, p);
    assert Abs(cos) == cos;
  }

  lemma NotLarger(a: real, b: real, p: real)
    requires p == a * b && p <= 1.0
    ensures !Larger(a, b, 1.0)
  {
  }
}
