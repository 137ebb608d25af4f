/** enorm: the Euclidean norm by three scaled sums of squares. */
module Enorm {
  import opened Reals
  import opened Vectors
  import opened Machines

  datatype Size = Large | Middle | Small

  function SizeOf(t: real, agiant: real, rdwarf: real): Size {
    if Abs(t) >= agiant then Large else if Abs(t) <= rdwarf then Small else Middle
  }

  /** The sum of the squares of those of the first k components that have size s. */
  function SquaresOf(x: Vec, k: nat, s: Size, agiant: real, rdwarf: real): real
    requires k <= |x|
  {
    if k == 0 then 0.0
    else
      var square := if SizeOf(x[k - 1], agiant, rdwarf) == s then x[k - 1] * x[k - 1] else 0.0;
      SquaresOf(x, k - 1, s, agiant, rdwarf) + square
  }

  /** Every component has one size. */
  lemma {:induction false} SizesCover(x: Vec, k: nat, agiant: real, rdwarf: real)
    requires k <= |x|
    ensures DotR(x, x, 0, k)
            == SquaresOf(x, k, Large, agiant, rdwarf) + SquaresOf(x, k, Middle, agiant, rdwarf)
               + SquaresOf(x, k, Small, agiant, rdwarf)
  {
    if k > 0 {
      SizesCover(x, k - 1, agiant, rdwarf);
    }
  }

  /** p added up k times. */
  ghost function Copies(k: nat, p: real): real {
    if k == 0 then 0.0 else Copies(k - 1, p) + p
  }

  lemma {:induction false} CopiesProduct(k: nat, p: real)
    ensures Copies(k, p) == k as real * p
  {
    if k > 0 {
      CopiesProduct(k - 1, p);
    }
  }

  lemma {:induction false} SmallSum(x: Vec, k: nat, agiant: real, rdwarf: real)
    requires k <= |x| && rdwarf >= 0.0
    ensures 0.0 <= SquaresOf(x, k, Small, agiant, rdwarf) <= Copies(k, rdwarf * rdwarf)
  {
    if k > 0 {
      SmallSum(x, k - 1, agiant, rdwarf);
      SmallTerm(x[k - 1], agiant, rdwarf, x[k - 1] * x[k - 1], rdwarf * rdwarf);
    }
  }

  lemma SmallTerm(t: real, agiant: real, rdwarf: real, q: real, p: real)
    requires rdwarf >= 0.0 && q == t * t && p == rdwarf * rdwarf
    ensures 0.0 <= (if SizeOf(t, agiant, rdwarf) == Small then q else 0.0) <= p
  {
    SquareSign(t, q);
    SquareSign(rdwarf, p);
    SquareAbs(t);
    if SizeOf(t, agiant, rdwarf) == Small {
      SquareOrder(Abs(t), rdwarf, q, p);
    }
  }

  /** A sum of squares kept as s max^2: the sum, and the bounds that keep s from growing beyond the number of terms. */
  ghost predicate Kept(s: real, max: real, sum: real, k: nat) {
    && 0.0 <= s <= k as real && max >= 0.0 && (max == 0.0 <==> s == 0.0) && s * (max * max) == sum
  }

  /** One more term, larger than any before: the old sum is scaled down. */
  lemma Rescaled(s: real, max: real, sum: real, k: nat, t: real, d: real, s': real)
    requires Kept(s, max, sum, k) && t > max && d == max / t && s' == 1.0 + s * (d * d)
    ensures Kept(s', t, sum + t * t, k + 1)
  {
    DivisionSign(max, t, d);
    SquareOrder(d, 1.0, d * d, 1.0) by {
      assert d * t == max;
    }
    ScaleOrder(t, d, 1.0, max, t);
    SquareSign(d, d * d);
    NonnegProduct(s, d * d, s * (d * d));
    NonnegProduct(s, 1.0 - d * d, s * (1.0 - d * d));
    RescaledSum(s, max, t, d, s');
  }

  lemma RescaledSum(s: real, max: real, t: real, d: real, s': real)
    requires d * t == max && s' == 1.0 + s * (d * d)
    ensures s' * (t * t) == s * (max * max) + t * t
  {
    assert (d * d) * (t * t) == max * max by {
      assert (d * t) * (d * t) == (d * d) * (t * t);
    }
    Grouped(s, d * d, t * t, max * max, s');
  }

  lemma Grouped(s: real, dd: real, tt: real, mm: real, s': real)
    requires dd * tt == mm && s' == 1.0 + s * dd
    ensures s' * tt == s * mm + tt
  {
    assert (s * dd) * tt == s * (dd * tt);
  }

  /** One more term, not larger than the largest before. */
  lemma Added(s: real, max: real, sum: real, k: nat, t: real, d: real, s': real)
    requires Kept(s, max, sum, k) && 0.0 < t <= max && d == t / max && s' == s + d * d
    ensures Kept(s', max, sum + t * t, k + 1)
  {
    DivisionSign(t, max, d);
    ScaleOrder(max, d, 1.0, t, max);
    SquareOrder(d, 1.0, d * d, 1.0);
    SquareSign(d, d * d);
    assert (d * d) * (max * max) == t * t by {
      assert (d * max) * (d * max) == (d * d) * (max * max);
    }
    AddedSum(s, d * d, max * max, s');
  }

  lemma AddedSum(s: real, dd: real, mm: real, s': real)
    requires s' == s + dd
    ensures s' * mm == s * mm + dd * mm
  {
  }

  /** The accumulators. */
  datatype Sums = Sums(s1: real, s2: real, s3: real, x1max: real, x3max: real)

  ghost predicate Holds(a: Sums, x: Vec, k: nat, agiant: real, rdwarf: real)
    requires k <= |x|
  {
    && Kept(a.s1, a.x1max, SquaresOf(x, k, Large, agiant, rdwarf), k)
    && a.s2 == SquaresOf(x, k, Middle, agiant, rdwarf) && 0.0 <= a.s2 <= Copies(k, agiant * agiant)
    && Kept(a.s3, a.x3max, SquaresOf(x, k, Small, agiant, rdwarf), k)
  }

  /** The scaled sum s max^2 with t added. */
  method AddScaled(s: real, max: real, t: real, ghost sum: real, ghost k: nat) returns (s': real, max': real)
    requires Kept(s, max, sum, k) && t > 0.0
    ensures Kept(s', max', sum + t * t, k + 1)
  {
    if t > max {
      var d1 := max / t;
      s', max' := 1.0 + s * (d1 * d1), t;
      Rescaled(s, max, sum, k, t, d1, s');
    } else {
      var d1 := t / max;
      s', max' := s + d1 * d1, max;
      Added(s, max, sum, k, t, d1, s');
    }
  }

  lemma KeptLonger(s: real, max: real, sum: real, k: nat)
    requires Kept(s, max, sum, k)
    ensures Kept(s, max, sum, k + 1)
  {
  }

  /** The sums over one more component of size s and square q. */
  lemma OneMore(x: Vec, i: nat, agiant: real, rdwarf: real, q: real)
    requires i < |x| && q == Abs(x[i]) * Abs(x[i])
    ensures forall s :: SquaresOf(x, i + 1, s, agiant, rdwarf)
                        == SquaresOf(x, i, s, agiant, rdwarf) + if s == SizeOf(x[i], agiant, rdwarf) then q else 0.0
  {
    SquareAbs(x[i]);
  }

  /** The accumulators when the next component leaves one of the scaled sums alone. */
  lemma Longer(a: Sums, x: Vec, i: nat, agiant: real, rdwarf: real)
    requires i < |x| && Holds(a, x, i, agiant, rdwarf)
    ensures Kept(a.s1, a.x1max, SquaresOf(x, i, Large, agiant, rdwarf), i + 1)
    ensures Kept(a.s3, a.x3max, SquaresOf(x, i, Small, agiant, rdwarf), i + 1)
    ensures a.s2 <= Copies(i + 1, agiant * agiant)
  {
    KeptLonger(a.s1, a.x1max, SquaresOf(x, i, Large, agiant, rdwarf), i);
    KeptLonger(a.s3, a.x3max, SquaresOf(x, i, Small, agiant, rdwarf), i);
    SquareSign(agiant, agiant * agiant);
  }

  lemma MiddleSquare(t: real, agiant: real, q: real, p: real)
    requires 0.0 <= t < agiant && q == t * t && p == agiant * agiant
    ensures 0.0 <= q <= p
  {
    SquareOrder(t, agiant, q, p);
    SquareSign(t, q);
  }

  method Accumulate(a: Sums, x: Vec, i: nat, agiant: real, rdwarf: real) returns (b: Sums)
    requires i < |x| && agiant > 0.0 && rdwarf > 0.0 && Holds(a, x, i, agiant, rdwarf)
    ensures Holds(b, x, i + 1, agiant, rdwarf)
  {
    var xabs := Abs(x[i]);
    Longer(a, x, i, agiant, rdwarf);
    OneMore(x, i, agiant, rdwarf, xabs * xabs);
    b := a;
    if xabs >= agiant {
      var s1, x1max := AddScaled(a.s1, a.x1max, xabs, SquaresOf(x, i, Large, agiant, rdwarf), i);
      b := a.(s1 := s1, x1max := x1max);
    } else if xabs <= rdwarf {
      if xabs != 0.0 {
        var s3, x3max := AddScaled(a.s3, a.x3max, xabs, SquaresOf(x, i, Small, agiant, rdwarf), i);
        b := a.(s3 := s3, x3max := x3max);
      }
    } else {
      MiddleSquare(xabs, agiant, xabs * xabs, agiant * agiant);
      b := a.(s2 := a.s2 + xabs * xabs);
    }
  }

  // ---- the three final formulas ----

  lemma WithLarge(mach: Machine, s1: real, s2: real, max: real, r: real)
    requires mach.Valid() && s1 >= 0.0 && s2 >= 0.0 && max > 0.0 && r == max * mach.sqrt(s1 + s2 / max / max)
    ensures r >= 0.0 && r * r == s1 * (max * max) + s2
  {
    var a := s2 / max;
    DivisionSign(s2, max, a);
    var b := a / max;
    DivisionSign(a, max, b);
    var q := mach.sqrt(s1 + b);
    NonnegProduct(max, q, r);
    LargeSquare(s1, s2, max, a, b, q, r);
  }

  lemma LargeSquare(s1: real, s2: real, max: real, a: real, b: real, q: real, r: real)
    requires a * max == s2 && b * max == a && q * q == s1 + b && r == max * q
    ensures r * r == s1 * (max * max) + s2
  {
    assert (max * q) * (max * q) == (q * q) * (max * max);
    assert (s1 + b) * (max * max) == s1 * (max * max) + (b * max) * max;
  }

  lemma FirstForm(s2: real, s3: real, max: real, q: real)
    requires s2 > 0.0 && q == max / s2
    ensures s2 * (1.0 + q * (max * s3)) == s2 + s3 * (max * max)
  {
    assert q * s2 == max;
    FirstProduct(s2, s3, max, q);
  }

  lemma FirstProduct(s2: real, s3: real, max: real, q: real)
    requires q * s2 == max
    ensures s2 * (1.0 + q * (max * s3)) == s2 + s3 * (max * max)
  {
    assert s2 * (q * (max * s3)) == (q * s2) * (max * s3);
    assert max * (max * s3) == s3 * (max * max);
  }

  lemma SecondForm(s2: real, s3: real, max: real, q: real)
    requires max > 0.0 && q == s2 / max
    ensures max * (q + max * s3) == s2 + s3 * (max * max)
  {
    assert q * max == s2;
    assert max * (max * s3) == s3 * (max * max);
  }

  lemma SmallOnly(mach: Machine, s3: real, max: real, r: real)
    requires mach.Valid() && s3 >= 0.0 && max >= 0.0 && r == max * mach.sqrt(s3)
    ensures r >= 0.0 && r * r == s3 * (max * max)
  {
    var q := mach.sqrt(s3);
    NonnegProduct(max, q, r);
    assert (max * q) * (max * q) == (q * q) * (max * max);
  }

  method RootWithLarge(mach: Machine, s1: real, s2: real, max: real) returns (r: real)
    requires mach.Valid() && s1 >= 0.0 && s2 >= 0.0 && max > 0.0
    ensures r >= 0.0 && r * r == s1 * (max * max) + s2
  {
    r := max * mach.sqrt(s1 + s2 / max / max);
    WithLarge(mach, s1, s2, max, r);
  }

  /** The two forms of the root of s2 + s3 max^2, by the larger of s2 and max. */
  method RootWithMiddle(mach: Machine, s2: real, s3: real, max: real) returns (r: real)
    requires mach.Valid() && s2 > 0.0 && s3 >= 0.0 && max >= 0.0
    ensures r >= 0.0 && r * r == s2 + s3 * (max * max)
  {
    var t;
    if s2 >= max {
      var q := max / s2;
      t := s2 * (1.0 + q * (max * s3));
      FirstForm(s2, s3, max, q);
    } else {
      var q := s2 / max;
      t := max * (q + max * s3);
      SecondForm(s2, s3, max, q);
    }
    RadicandPositive(s2, s3, max, t);
    r := mach.sqrt(t);
  }

  lemma RadicandPositive(s2: real, s3: real, max: real, t: real)
    requires s2 > 0.0 && s3 >= 0.0 && t == s2 + s3 * (max * max)
    ensures t >= 0.0
  {
    SquareSign(max, max * max);
    NonnegProduct(s3, max * max, s3 * (max * max));
  }

  method RootOfSmall(mach: Machine, s3: real, max: real) returns (r: real)
    requires mach.Valid() && s3 >= 0.0 && max >= 0.0
    ensures r >= 0.0 && r * r == s3 * (max * max)
  {
    r := max * mach.sqrt(s3);
    SmallOnly(mach, s3, max, r);
  }

  /** The square of the result: without the small components when there are large ones. */
  ghost predicate Combined(a: Sums, q: real) {
    q == if a.s1 != 0.0 then a.s1 * (a.x1max * a.x1max) + a.s2 else a.s2 + a.s3 * (a.x3max * a.x3max)
  }

  method Combine(mach: Machine, a: Sums) returns (r: real)
    requires mach.Valid() && a.s1 >= 0.0 && a.s2 >= 0.0 && a.s3 >= 0.0 && a.x1max >= 0.0 && a.x3max >= 0.0
    requires (a.x1max == 0.0 <==> a.s1 == 0.0) && (a.x3max == 0.0 <==> a.s3 == 0.0)
    ensures r >= 0.0 && Combined(a, r * r)
  {
    if a.s1 != 0.0 {
      r := RootWithLarge(mach, a.s1, a.s2, a.x1max);
    } else if a.s2 != 0.0 {
      r := RootWithMiddle(mach, a.s2, a.s3, a.x3max);
    } else {
      r := RootOfSmall(mach, a.s3, a.x3max);
    }
  }

  /** The bound from which a component of a vector of length n counts as large. */
  function Agiant(mach: Machine, n: nat): (t: real)
    requires mach.Valid() && n > 0
    ensures t > 0.0
  {
    DivisionSign(mach.rgiant, n as real, mach.rgiant / n as real);
    mach.rgiant / n as real
  }

  /** No component is large. */
  ghost predicate NoneLarge(x: Vec, agiant: real) {
    forall i :: 0 <= i < |x| ==> Abs(x[i]) < agiant
  }

  /** Every small component is zero. */
  ghost predicate NoneSmall(x: Vec, agiant: real, rdwarf: real) {
    forall i :: 0 <= i < |x| && SizeOf(x[i], agiant, rdwarf) == Small ==> x[i] == 0.0
  }

  /** r is the norm of x exactly when x has no large component or no small one but zeros; in any case its square is low
      by at most n rdwarf^2. */
  ghost predicate NormOf(mach: Machine, x: Vec, agiant: real, r: real)
    requires mach.Valid()
  {
    && r >= 0.0
    && (r == mach.Norm(x) <==> NoneLarge(x, agiant) || NoneSmall(x, agiant, mach.rdwarf))
    && r * r <= Dot(x, x) <= r * r + |x| as real * (mach.rdwarf * mach.rdwarf)
  }

  /** No scaled sum outgrows the number of components, nor the plain one rgiant^2 / n. */
  ghost predicate SumsBounded(mach: Machine, a: Sums, n: nat)
    requires mach.Valid() && n > 0
  {
    0.0 <= a.s1 <= n as real && 0.0 <= a.s3 <= n as real && 0.0 <= a.s2 <= mach.rgiant * mach.rgiant / n as real
  }

  /** enorm. a holds its sums. */
  method Enorm(mach: Machine, x: Vec) returns (r: real, ghost a: Sums)
    requires mach.Valid() && |x| > 0
    ensures NormOf(mach, x, Agiant(mach, |x|), r) && SumsBounded(mach, a, |x|)
    ensures Holds(a, x, |x|, Agiant(mach, |x|), mach.rdwarf)
  {
    var agiant := Agiant(mach, |x|);
    var sums := Sums(0.0, 0.0, 0.0, 0.0, 0.0);
    for i := 0 to |x|
      invariant Holds(sums, x, i, agiant, mach.rdwarf)
    {
      sums := Accumulate(sums, x, i, agiant, mach.rdwarf);
    }
    r := Combine(mach, sums);
    a := sums;
    Concluded(mach, x, agiant, sums, r);
    MiddleBounded(mach, |x|, agiant, sums.s2);
  }

  lemma MiddleBounded(mach: Machine, n: nat, agiant: real, s2: real)
    requires mach.Valid() && n > 0 && agiant == Agiant(mach, n) && s2 <= Copies(n, agiant * agiant)
    ensures s2 <= mach.rgiant * mach.rgiant / n as real
  {
    CopiesProduct(n, agiant * agiant);
    ShareSquared(n as real, mach.rgiant, agiant, n as real * (agiant * agiant), mach.rgiant * mach.rgiant / n as real);
  }

  lemma ShareSquared(n: real, g: real, a: real, p: real, q: real)
    requires n > 0.0 && a == g / n && p == n * (a * a) && q == g * g / n
    ensures p == q
  {
    assert a * n == g && q * n == g * g;
    assert p * n == (a * n) * (a * n);
    assert (p - q) * n == 0.0;
    ZeroProduct(p - q, n);
  }

  lemma {:induction false} LargePositive(x: Vec, k: nat, agiant: real, rdwarf: real)
    requires k <= |x| && agiant > 0.0
    ensures SquaresOf(x, k, Large, agiant, rdwarf) >= 0.0
    ensures SquaresOf(x, k, Large, agiant, rdwarf) == 0.0 <==> forall i :: 0 <= i < k ==> Abs(x[i]) < agiant
  {
    if k > 0 {
      LargePositive(x, k - 1, agiant, rdwarf);
      SquareSign(x[k - 1], x[k - 1] * x[k - 1]);
    }
  }

  lemma {:induction false} SmallPositive(x: Vec, k: nat, agiant: real, rdwarf: real)
    requires k <= |x|
    ensures SquaresOf(x, k, Small, agiant, rdwarf) >= 0.0
    ensures SquaresOf(x, k, Small, agiant, rdwarf) == 0.0
            <==> forall i :: 0 <= i < k && SizeOf(x[i], agiant, rdwarf) == Small ==> x[i] == 0.0
  {
    if k > 0 {
      SmallPositive(x, k - 1, agiant, rdwarf);
      SquareSign(x[k - 1], x[k - 1] * x[k - 1]);
    }
  }

  lemma Concluded(mach: Machine, x: Vec, agiant: real, a: Sums, r: real)
    requires mach.Valid() && agiant > 0.0 && Holds(a, x, |x|, agiant, mach.rdwarf) && r >= 0.0 && Combined(a, r * r)
    ensures NormOf(mach, x, agiant, r)
  {
    var low := SquareOfResult(x, agiant, mach.rdwarf, a, r * r);
    LargePositive(x, |x|, agiant, mach.rdwarf);
    SmallPositive(x, |x|, agiant, mach.rdwarf);
    CopiesProduct(|x|, mach.rdwarf * mach.rdwarf);
    SameSquares(r, mach.Norm(x), r * r, Dot(x, x));
  }

  lemma SameSquares(a: real, b: real, p: real, q: real)
    requires a >= 0.0 && b >= 0.0 && p == a * a && q == b * b
    ensures a == b <==> p == q
  {
    SquareOrder(a, b, p, q);
  }

  /** How far the square of the result is low. */
  lemma SquareOfResult(x: Vec, agiant: real, rdwarf: real, a: Sums, q: real) returns (low: real)
    requires agiant > 0.0 && rdwarf > 0.0 && Holds(a, x, |x|, agiant, rdwarf) && Combined(a, q)
    ensures q + low == Dot(x, x) && 0.0 <= low <= Copies(|x|, rdwarf * rdwarf)
    ensures low == 0.0
            <==> SquaresOf(x, |x|, Large, agiant, rdwarf) == 0.0 || SquaresOf(x, |x|, Small, agiant, rdwarf) == 0.0
  {
    SizesCover(x, |x|, agiant, rdwarf);
    SmallSum(x, |x|, agiant, rdwarf);
    LargeCount(a.s1, a.x1max, SquaresOf(x, |x|, Large, agiant, rdwarf), |x|);
    low := if a.s1 != 0.0 then SquaresOf(x, |x|, Small, agiant, rdwarf) else 0.0;
  }

  lemma LargeCount(s: real, max: real, sum: real, k: nat)
    requires Kept(s, max, sum, k)
    ensures s == 0.0 <==> sum == 0.0
  {
    if s != 0.0 {
      PositiveProduct(max, max, max * max);
      PositiveProduct(s, max * max, sum);
    }
  }
}
