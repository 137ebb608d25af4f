/** Inner products do not depend on the order of the components. */
module Permutations {
  import opened Vectors
  import opened Machines
  import opened Dogleg
  import opened Qrfac
  import opened Qrsolv

  ghost function Members(p: seq<nat>, k: nat): (s: set<nat>)
    requires k <= |p|
    ensures forall i :: i in s <==> exists j :: 0 <= j < k && p[j] == i
  {
    set j | 0 <= j < k :: p[j]
  }

  lemma {:induction false} MembersCount(p: seq<nat>, k: nat)
    requires Permutation(p) && k <= |p|
    ensures |Members(p, k)| == k
  {
    if k == 0 {
      assert Members(p, 0) == {};
    } else {
      MembersCount(p, k - 1);
      assert Members(p, k) == Members(p, k - 1) + {p[k - 1]};
      assert p[k - 1] !in Members(p, k - 1);
    }
  }

  ghost function Initial(n: nat): (s: set<nat>)
    ensures forall i: nat :: i in s <==> i < n
    ensures |s| == n
  {
    if n == 0 then {} else Initial(n - 1) + {n - 1}
  }

  lemma SubsetOfSameSize(a: set<nat>, b: set<nat>)
    requires a <= b && |a| == |b|
    ensures a == b
  {
    assert |b - a| == |b| - |a|;
  }

  /** Every index occurs in a permutation. */
  lemma Onto(p: seq<nat>, i: nat) returns (j: nat)
    requires Permutation(p) && i < |p|
    ensures j < |p| && p[j] == i
  {
    MembersCount(p, |p|);
    SubsetOfSameSize(Members(p, |p|), Initial(|p|));
    assert i in Initial(|p|);
    j :| 0 <= j < |p| && p[j] == i;
  }

  /** x on the first k indices of p, zero elsewhere. */
  ghost function Masked(x: Vec, p: seq<nat>, k: nat): (y: Vec)
    requires k <= |p| == |x|
    ensures |y| == |x| && forall i :: 0 <= i < |x| ==> y[i] == if i in Members(p, k) then x[i] else 0.0
  {
    seq(|x|, i requires 0 <= i < |x| && k <= |p| => if i in Members(p, k) then x[i] else 0.0)
  }

  lemma {:induction false} MaskedDot(x: Vec, y: Vec, p: seq<nat>, k: nat)
    requires Permutation(p) && k <= |p| == |x| == |y|
    ensures DotR(Permuted(x, p), Permuted(y, p), 0, k) == Dot(Masked(x, p, k), y)
  {
    if k == 0 {
      DotRZero(Masked(x, p, 0), y, 0, |x|);
    } else {
      MaskedDot(x, y, p, k - 1);
      MaskedGrows(x, p, k);
      AddComponent(Masked(x, p, k - 1), y, p[k - 1], x[p[k - 1]]);
    }
  }

  lemma MaskedGrows(x: Vec, p: seq<nat>, k: nat)
    requires Permutation(p) && 0 < k <= |p| == |x|
    ensures Masked(x, p, k) == Masked(x, p, k - 1)[p[k - 1] := x[p[k - 1]]]
    ensures Masked(x, p, k - 1)[p[k - 1]] == 0.0
  {
    assert Members(p, k) == Members(p, k - 1) + {p[k - 1]};
    assert p[k - 1] !in Members(p, k - 1);
  }

  lemma AddComponent(x: Vec, y: Vec, i: nat, t: real)
    requires i < |x| == |y| && x[i] == 0.0
    ensures Dot(x[i := t], y) == Dot(x, y) + t * y[i]
  {
    DotUpdate(x, y, i, t, y[i]);
    assert y[i := y[i]] == y;
  }

  lemma PermutedDot(x: Vec, y: Vec, p: seq<nat>)
    requires Permutation(p) && |p| == |x| == |y|
    ensures Dot(Permuted(x, p), Permuted(y, p)) == Dot(x, y)
  {
    MaskedDot(x, y, p, |p|);
    forall i | 0 <= i < |x|
      ensures i in Members(p, |p|)
    {
      var j := Onto(p, i);
    }
    assert Masked(x, p, |p|) == x;
  }

  /** The scaled length of x can be measured in either order. */
  lemma PermutedNorm(mach: Machine, d: Vec, x: Vec, p: seq<nat>)
    requires mach.Valid() && Permutation(p) && |p| == |d| == |x|
    ensures ScaledNorm(mach, Permuted(d, p), Permuted(x, p)) == ScaledNorm(mach, d, x)
  {
    var u, v := Times(Permuted(d, p), Permuted(x, p)), Permuted(Times(d, x), p);
    forall i | 0 <= i < |x|
      ensures u[i] == v[i]
    {
      assert v[i] == Times(d, x)[p[i]];
    }
    assert u == v;
    PermutedDot(Times(d, x), Times(d, x), p);
  }
}
