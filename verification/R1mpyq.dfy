/** r1mpyq: replaying recorded rotations on the rows of a matrix. */
module R1mpyq {
  import opened Vectors
  import opened Machines
  import opened Arrays
  import opened Rotations

  /** The rotations of the planes (n-2, n-1), ..., (0, n-1) recorded in v. */
  function FirstSet(mach: Machine, n: nat, v: Vec): (gs: seq<Givens>)
    requires 1 <= n <= |v|
    ensures |gs| == n - 1
    ensures forall k :: 0 <= k < n - 1 ==>
              gs[k] == Givens(n - 2 - k, RecoverCos(mach, v[n - 2 - k]), RecoverSin(mach, v[n - 2 - k]))
  {
    seq(n - 1, k requires 0 <= k < n - 1 < |v| =>
      Givens(n - 2 - k, RecoverCos(mach, v[n - 2 - k]), RecoverSin(mach, v[n - 2 - k])))
  }

  /** The rotations of the planes (0, n-1), ..., (n-2, n-1) recorded in w; they turn the other way. */
  function SecondSet(mach: Machine, n: nat, w: Vec): (gs: seq<Givens>)
    requires 1 <= n <= |w|
    ensures |gs| == n - 1
    ensures forall k :: 0 <= k < n - 1 ==> gs[k] == Givens(k, RecoverCos(mach, w[k]), -RecoverSin(mach, w[k]))
  {
    seq(n - 1, k requires 0 <= k < n - 1 < |w| => Givens(k, RecoverCos(mach, w[k]), -RecoverSin(mach, w[k])))
  }

  /** All rotations recorded in v and w, in the order they are applied. */
  function Recorded(mach: Machine, n: nat, v: Vec, w: Vec): (gs: seq<Givens>)
    requires 1 <= n <= |v| && n <= |w|
    ensures |gs| == 2 * (n - 1) && forall k :: 0 <= k < |gs| ==> gs[k].j + 1 < n
  {
    FirstSet(mach, n, v) + SecondSet(mach, n, w)
  }

  /** Whatever v and w hold, what r1mpyq applies is a product of rotations. */
  lemma RecordedAreRotations(mach: Machine, n: nat, v: Vec, w: Vec)
    requires mach.Valid() && 1 <= n <= |v| && n <= |w|
    ensures AreRotations(Recorded(mach, n, v, w), n)
  {
    var gs := Recorded(mach, n, v, w);
    forall k | 0 <= k < |gs|
      ensures IsRotation(gs[k])
    {
      if k < n - 1 {
        RecoveredRotation(mach, n - 2 - k, v[n - 2 - k]);
      } else {
        RecoveredRotation(mach, k - (n - 1), w[k - (n - 1)]);
      }
    }
  }

  lemma RecoveredRotation(mach: Machine, j: nat, tau: real)
    requires mach.Valid()
    ensures IsRotation(Givens(j, RecoverCos(mach, tau), RecoverSin(mach, tau)))
    ensures IsRotation(Givens(j, RecoverCos(mach, tau), -RecoverSin(mach, tau)))
  {
    RecoveredIsRotation(mach, tau);
    NegatedSine(RecoverSin(mach, tau));
  }

  lemma NegatedSine(s: real)
    ensures (-s) * (-s) == s * s
  {
  }

  /** Rotates columns j and the last of every row. */
  method RotateRows(a: array2<real>, g: Givens)
    requires g.j + 1 < a.Length1
    modifies a
    ensures forall i :: 0 <= i < a.Length0 ==> RowsOf(a)[i] == Rot(g, old(RowsOf(a))[i])
  {
    ghost var rows := RowsOf(a);
    var l := a.Length1 - 1;
    for i := 0 to a.Length0
      invariant forall k :: 0 <= k < i ==> RowOf(a, k) == Rot(g, rows[k])
      invariant forall k :: i <= k < a.Length0 ==> RowOf(a, k) == rows[k]
    {
      RotateRow(a, i, g);
    }
  }

  method RotateRow(a: array2<real>, i: nat, g: Givens)
    requires i < a.Length0 && g.j + 1 < a.Length1
    modifies a
    ensures RowOf(a, i) == Rot(g, old(RowOf(a, i)))
    ensures forall k :: 0 <= k < a.Length0 && k != i ==> RowOf(a, k) == old(RowOf(a, k))
  {
    var l := a.Length1 - 1;
    var temp := MixSub(g.c, a[i, g.j], g.s, a[i, l]);
    a[i, l] := MixAdd(g.s, a[i, g.j], g.c, a[i, l]);
    a[i, g.j] := temp;
    assert RowOf(a, i) == Rot(g, old(RowOf(a, i)));
    forall k | 0 <= k < a.Length0 && k != i
      ensures RowOf(a, k) == old(RowOf(a, k))
    {
    }
  }

  method ReplayFirst(mach: Machine, n: nat, a: array2<real>, v: Vec)
    requires 1 <= n == a.Length1 && n <= |v|
    modifies a
    ensures forall i :: 0 <= i < a.Length0 ==> RowsOf(a)[i] == RotAll(FirstSet(mach, n, v), old(RowsOf(a))[i])
  {
    ghost var gs := FirstSet(mach, n, v);
    for k := 0 to n - 1
      invariant forall i :: 0 <= i < a.Length0 ==> RowsOf(a)[i] == RotTo(gs, k, old(RowsOf(a))[i])
    {
      var j := n - 2 - k;
      var g := Givens(j, RecoverCos(mach, v[j]), RecoverSin(mach, v[j]));
      assert g == gs[k];
      RotateRows(a, g);
    }
  }

  method ReplaySecond(mach: Machine, n: nat, a: array2<real>, w: Vec)
    requires 1 <= n == a.Length1 && n <= |w|
    modifies a
    ensures forall i :: 0 <= i < a.Length0 ==> RowsOf(a)[i] == RotAll(SecondSet(mach, n, w), old(RowsOf(a))[i])
  {
    ghost var gs := SecondSet(mach, n, w);
    for j := 0 to n - 1
      invariant forall i :: 0 <= i < a.Length0 ==> RowsOf(a)[i] == RotTo(gs, j, old(RowsOf(a))[i])
    {
      var g := Givens(j, RecoverCos(mach, w[j]), -RecoverSin(mach, w[j]));
      assert g == gs[j];
      RotateRows(a, g);
    }
  }

  /** Multiplies every row of a by the rotations recorded in v and w. */
  method R1mpyq(mach: Machine, n: nat, a: array2<real>, v: Vec, w: Vec)
    requires 1 <= n == a.Length1 && n <= |v| && n <= |w|
    modifies a
    ensures forall i :: 0 <= i < a.Length0 ==> RowsOf(a)[i] == RotAll(Recorded(mach, n, v, w), old(RowsOf(a))[i])
  {
    hide RotTo, RecoverCos, RecoverSin;
    ghost var rows := RowsOf(a);
    ReplayFirst(mach, n, a, v);
    ReplaySecond(mach, n, a, w);
    forall i | 0 <= i < a.Length0
      ensures RowsOf(a)[i] == RotAll(Recorded(mach, n, v, w), rows[i])
    {
      RotConcat(FirstSet(mach, n, v), SecondSet(mach, n, w), n - 1, rows[i]);
    }
  }

  method RotateVector(a: array<real>, g: Givens)
    requires g.j + 1 < a.Length
    modifies a
    ensures a[..] == Rot(g, old(a[..]))
  {
    var l := a.Length - 1;
    var temp := MixSub(g.c, a[g.j], g.s, a[l]);
    a[l] := MixAdd(g.s, a[g.j], g.c, a[l]);
    a[g.j] := temp;
  }

  method ReplayFirstRow(mach: Machine, n: nat, a: array<real>, v: Vec)
    requires 1 <= n == a.Length && n <= |v|
    modifies a
    ensures a[..] == RotAll(FirstSet(mach, n, v), old(a[..]))
  {
    ghost var gs := FirstSet(mach, n, v);
    for k := 0 to n - 1
      invariant a[..] == RotTo(gs, k, old(a[..]))
    {
      var j := n - 2 - k;
      var g := Givens(j, RecoverCos(mach, v[j]), RecoverSin(mach, v[j]));
      assert g == gs[k];
      RotateVector(a, g);
    }
  }

  method ReplaySecondRow(mach: Machine, n: nat, a: array<real>, w: Vec)
    requires 1 <= n == a.Length && n <= |w|
    modifies a
    ensures a[..] == RotAll(SecondSet(mach, n, w), old(a[..]))
  {
    ghost var gs := SecondSet(mach, n, w);
    for j := 0 to n - 1
      invariant a[..] == RotTo(gs, j, old(a[..]))
    {
      var g := Givens(j, RecoverCos(mach, w[j]), -RecoverSin(mach, w[j]));
      assert g == gs[j];
      RotateVector(a, g);
    }
  }

  /** The call for a matrix of one row. */
  method R1mpyqRow(mach: Machine, n: nat, a: array<real>, v: Vec, w: Vec)
    requires 1 <= n == a.Length && n <= |v| && n <= |w|
    modifies a
    ensures a[..] == RotAll(Recorded(mach, n, v, w), old(a[..]))
  {
    hide SecondSet, RotTo;
    ghost var row := a[..];
    ReplayFirstRow(mach, n, a, v);
    ReplaySecondRow(mach, n, a, w);
    RotConcat(FirstSet(mach, n, v), SecondSet(mach, n, w), n - 1, row);
  }
}
