/** r1updt: the rank-one update of a lower trapezoidal matrix, S + u transpose(v), brought back to lower trapezoidal
    form by rotations from the right, with the rotations recorded for r1mpyq. */
module R1updt {
  import opened Vectors
  import opened Machines
  import opened Packed
  import opened Rotations
  import opened R1mpyq

  /** Row i of the working matrix: the packed strips, with the last column held in w from entry lo on. */
  function SpikedRow(s: seq<real>, w: Vec, m: nat, n: nat, lo: nat, i: nat): (v: Vec)
    requires 1 <= n <= m && |s| >= Off(m, n) && |w| == m && i < m
    ensures |v| == n
    ensures forall j :: 0 <= j < n - 1 ==> v[j] == if i < j then 0.0 else s[StripSlot(m, n, i, j)]
    ensures v[n - 1] == if i < lo then 0.0 else w[i]
  {
    seq(n, j requires 0 <= j < n <= m && |s| >= Off(m, n) && |w| == m && i < m =>
      if j == n - 1 then (if i < lo then 0.0 else w[i]) else if i < j then 0.0 else s[StripSlot(m, n, i, j)])
  }

  /** The slot of entry (i, j) of a trapezoid with n strips. */
  function StripSlot(m: nat, n: nat, i: nat, j: nat): (p: nat)
    requires j < n <= m && j <= i < m
    ensures Off(m, j) <= p < Off(m, n) && p == Off(m, j) + (i - j)
  {
    OffMonotone(m, j + 1, n);
    OffMonotone(m, 0, j);
    Slot(m, i, j)
  }

  /** Row i of the m by n lower trapezoid stored by columns in s. */
  function LowerRow(s: seq<real>, m: nat, n: nat, i: nat): (v: Vec)
    requires 1 <= n <= m && |s| >= Off(m, n) && i < m
    ensures |v| == n
    ensures forall j :: 0 <= j < n ==> v[j] == if i < j then 0.0 else s[StripSlot(m, n, i, j)]
  {
    seq(n, j requires 0 <= j < n <= m && |s| >= Off(m, n) && i < m => if i < j then 0.0 else s[StripSlot(m, n, i, j)])
  }

  /** Slots of other strips lie outside strip j. */
  lemma OtherStrip(m: nat, n: nat, i: nat, k: nat, j: nat)
    requires k < n <= m && k <= i < m && j < n && k != j
    ensures StripSlot(m, n, i, k) < Off(m, j) || StripSlot(m, n, i, k) >= Off(m, j) + (m - j)
  {
    if k < j {
      OffMonotone(m, k, j);
    } else {
      OffMonotone(m, j, k);
    }
  }

  /** Rotates strip j against the spike, over the rows from j on. */
  method RotateStrip(m: nat, n: nat, s: array<real>, w: array<real>, jj: nat, g: Givens)
    requires 1 <= n <= m == w.Length && s.Length >= Off(m, n) && s != w && g.j + 1 < n && jj == Off(m, g.j)
    modifies s, w
    ensures forall i :: 0 <= i < m ==>
              SpikedRow(s[..], w[..], m, n, g.j, i) == Rot(g, old(SpikedRow(s[..], w[..], m, n, g.j, i)))
    ensures forall p :: 0 <= p < s.Length && !(jj <= p < jj + (m - g.j)) ==> s[p] == old(s[p])
    ensures forall i :: 0 <= i < g.j ==> w[i] == old(w[i])
  {
    hide SpikedRow, Rot, MixSub;
    ghost var s0, w0, j := s[..], w[..], g.j;
    OffMonotone(m, j + 1, n);
    var l := jj;
    for i := g.j to m
      invariant l == jj + (i - j)
      invariant forall k :: j <= k < i ==> s[jj + (k - j)] == MixSub(g.c, s0[jj + (k - j)], g.s, w0[k])
      invariant forall k :: j <= k < i ==> w[k] == MixAdd(g.s, s0[jj + (k - j)], g.c, w0[k])
      invariant forall k :: 0 <= k < j || i <= k < m ==> w[k] == w0[k]
      invariant forall p :: 0 <= p < s.Length && !(jj <= p < l) ==> s[p] == s0[p]
    {
      var temp := MixSub(g.c, s[l], g.s, w[i]);
      w[i] := MixAdd(g.s, s[l], g.c, w[i]);
      s[l] := temp;
      l := l + 1;
    }
    forall i | 0 <= i < m
      ensures SpikedRow(s[..], w[..], m, n, j, i) == Rot(g, SpikedRow(s0, w0, m, n, j, i))
    {
      StripRotated(s0, w0, s[..], w[..], m, n, g, i);
    }
  }

  lemma StripRotated(s0: seq<real>, w0: Vec, s: seq<real>, w: Vec, m: nat, n: nat, g: Givens, i: nat)
    requires 1 <= n <= m == |w| == |w0| && |s| == |s0| >= Off(m, n) && g.j + 1 < n && i < m
    requires forall k :: g.j <= k < m ==>
               s[StripSlot(m, n, k, g.j)] == MixSub(g.c, s0[StripSlot(m, n, k, g.j)], g.s, w0[k])
    requires forall k :: g.j <= k < m ==> w[k] == MixAdd(g.s, s0[StripSlot(m, n, k, g.j)], g.c, w0[k])
    requires forall p :: 0 <= p < |s| && !(Off(m, g.j) <= p < Off(m, g.j) + (m - g.j)) ==> s[p] == s0[p]
    ensures SpikedRow(s, w, m, n, g.j, i) == Rot(g, SpikedRow(s0, w0, m, n, g.j, i))
  {
    var x, y := SpikedRow(s0, w0, m, n, g.j, i), SpikedRow(s, w, m, n, g.j, i);
    if i < g.j {
      MixZero(g.c, g.s);
    }
    forall k | 0 <= k < n
      ensures y[k] == Rot(g, x)[k]
    {
      if k != g.j && k != n - 1 && i >= k {
        OtherStrip(m, n, i, k, g.j);
      }
    }
  }

  lemma MixZero(c: real, s: real)
    ensures MixSub(c, 0.0, s, 0.0) == 0.0 && MixAdd(s, 0.0, c, 0.0) == 0.0
  {
  }

  // ---- the vector v, rotated into a multiple of the last unit vector ----

  /** v with the components from lo on eliminated, except the last, which carries their length. */
  function Condensed(v: Vec, lo: nat): (x: Vec)
    requires 1 <= |v|
    ensures |x| == |v|
    ensures forall i :: 0 <= i < |v| ==> x[i] == if lo <= i < |v| - 1 then 0.0 else v[i]
  {
    seq(|v|, i requires 0 <= i < |v| => if lo <= i < |v| - 1 then 0.0 else v[i])
  }

  /** tau reads back as what is replayed for g. */
  ghost predicate RecordedBy(mach: Machine, g: Givens, tau: real) {
    Givens(g.j, RecoverCos(mach, tau), RecoverSin(mach, tau)) == Replay(mach, g, 1.0)
  }

  /** The same for a rotation that is replayed the other way. */
  ghost predicate RecordedTurned(mach: Machine, g: Givens, tau: real) {
    Givens(g.j, RecoverCos(mach, tau), -RecoverSin(mach, tau)) == Replay(mach, g, -1.0)
  }

  lemma MadeRecorded(mach: Machine, f: real, h: real, j: nat)
    requires mach.Valid() && h != 0.0
    ensures var r := Eliminator(mach, f, h);
      Rotates(r, f, h)
      && IsRotation(Givens(j, r.cos, r.sin)) && RecordedBy(mach, Givens(j, r.cos, r.sin), r.tau)
      && IsRotation(Givens(j, r.cos, -r.sin)) && RecordedTurned(mach, Givens(j, r.cos, -r.sin), r.tau)
  {
    EliminatorEliminates(mach, f, h);
    RecordReads(mach, f, h);
    RecordedBothWays(mach, Eliminator(mach, f, h), f, h, j);
  }

  lemma RecordedBothWays(mach: Machine, r: Made, f: real, h: real, j: nat)
    requires Rotates(r, f, h) && ReadsBack(mach, r)
    ensures IsRotation(Givens(j, r.cos, r.sin)) && RecordedBy(mach, Givens(j, r.cos, r.sin), r.tau)
    ensures IsRotation(Givens(j, r.cos, -r.sin)) && RecordedTurned(mach, Givens(j, r.cos, -r.sin), r.tau)
  {
    NegatedSine(r.sin);
  }

  /** State of the first sweep: rotations gs have been applied to the rows of s and to v, down to plane lo. */
  ghost predicate FirstSweep(mach: Machine, s: seq<real>, w: Vec, v: Vec, s0: seq<real>, v0: Vec, m: nat, n: nat,
                             lo: nat, gs: seq<Givens>) {
    && 1 <= n <= m == |w| && |s| == |s0| >= Off(m, n) && |v| == |v0| == n && lo <= n - 1
    && |gs| == n - 1 - lo && AreRotations(gs, n)
    && (forall k :: 0 <= k < |gs| ==> gs[k].j == n - 2 - k && RecordedBy(mach, gs[k], v[n - 2 - k]))
    && (forall i :: 0 <= i < lo ==> v[i] == v0[i])
    && (forall i :: 0 <= i < m ==> SpikedRow(s, w, m, n, lo, i) == RotAll(gs, LowerRow(s0, m, n, i)))
    && Condensed(v, lo) == RotAll(gs, v0)
  }

  /** The identity rotation, recorded by zero. */
  lemma IdentityRotation(mach: Machine, j: nat, x: Vec)
    requires mach.Valid() && j + 1 < |x|
    ensures Rot(Givens(j, 1.0, 0.0), x) == x
    ensures IsRotation(Givens(j, 1.0, 0.0)) && RecordedBy(mach, Givens(j, 1.0, 0.0), 0.0)
    ensures RecordedTurned(mach, Givens(j, 1.0, 0.0), 0.0)
  {
    OtherSideUnique(mach, 0.0, 1.0);
    CosineInvertible(mach, 1.0);
    IdentityMix(x[j], x[|x| - 1]);
  }

  lemma IdentityMix(a: real, b: real)
    ensures MixSub(1.0, a, 0.0, b) == a && MixAdd(0.0, a, 1.0, b) == b
  {
  }

  /** A zero put into the spike at entry lo - 1 is what the row already showed there. */
  lemma SpikeExtends(s: seq<real>, w: Vec, m: nat, n: nat, j: nat, i: nat)
    requires 1 <= n <= m == |w| && |s| >= Off(m, n) && i < m && j < m
    ensures SpikedRow(s, w[j := 0.0], m, n, j, i) == SpikedRow(s, w, m, n, j + 1, i)
  {
  }

  /** The rotation that eliminates v[j] condenses v one component further. */
  lemma CondenseStep(mach: Machine, v: Vec, v': Vec, j: nat, r: Made)
    requires mach.Valid() && j + 1 < |v| == |v'| && Rotates(r, v[|v| - 1], v[j])
    requires v' == v[|v| - 1 := MixAdd(r.sin, v[j], r.cos, v[|v| - 1])][j := r.tau]
    ensures Condensed(v', j) == Rot(Givens(j, r.cos, r.sin), Condensed(v, j + 1))
  {
    var x := Condensed(v, j + 1);
    assert x[j] == v[j] && x[|v| - 1] == v[|v| - 1];
    assert MixSub(r.cos, v[j], r.sin, v[|v| - 1]) == 0.0;
  }

  lemma CondenseZero(v: Vec, j: nat)
    requires j + 1 < |v| && v[j] == 0.0
    ensures Condensed(v, j) == Condensed(v, j + 1)
  {
  }

  lemma FirstSweepStep(mach: Machine, s: seq<real>, w: Vec, v: Vec, s': seq<real>, w': Vec, v': Vec, s0: seq<real>,
                       v0: Vec, m: nat, n: nat, j: nat, gs: seq<Givens>, g: Givens)
    requires FirstSweep(mach, s, w, v, s0, v0, m, n, j + 1, gs) && |s'| == |s| && |w'| == m && |v'| == n
    requires g.j == j && IsRotation(g) && RecordedBy(mach, g, v'[j])
    requires forall k :: 0 <= k < n - 1 && k != j ==> v'[k] == v[k]
    requires Condensed(v', j) == Rot(g, Condensed(v, j + 1))
    requires forall i :: 0 <= i < m ==> SpikedRow(s', w', m, n, j, i) == Rot(g, SpikedRow(s, w, m, n, j + 1, i))
    ensures FirstSweep(mach, s', w', v', s0, v0, m, n, j, gs + [g])
  {
    hide IsRotation, RecordedBy, Rot, RotAll, LowerRow, Slot;
    forall i | 0 <= i < m
      ensures SpikedRow(s', w', m, n, j, i) == RotAll(gs + [g], LowerRow(s0, m, n, i))
    {
      RotAppend(gs, g, LowerRow(s0, m, n, i));
    }
    RotAppend(gs, g, v0);
  }

  /** Puts a zero into entry j of the spike. */
  method ExtendSpike(m: nat, n: nat, s: array<real>, w: array<real>, j: nat)
    requires 1 <= n <= m == w.Length && s.Length >= Off(m, n) && s != w && j < m
    modifies w
    ensures forall i :: 0 <= i < m ==>
              SpikedRow(s[..], w[..], m, n, j, i) == old(SpikedRow(s[..], w[..], m, n, j + 1, i))
  {
    ghost var w1 := w[..];
    w[j] := 0.0;
    forall i | 0 <= i < m
      ensures SpikedRow(s[..], w[..], m, n, j, i) == SpikedRow(s[..], w1, m, n, j + 1, i)
    {
      SpikeExtends(s[..], w1, m, n, j, i);
    }
  }

  /** The rotation of plane (j, n-1) for a nonzero v[j], applied to v and recorded in it. */
  method TurnV(mach: Machine, n: nat, v: array<real>, j: nat) returns (g: Givens)
    requires mach.Valid() && v.Length == n && j + 1 < n && v[j] != 0.0
    modifies v
    ensures g.j == j && IsRotation(g) && RecordedBy(mach, g, v[j])
    ensures forall k :: 0 <= k < n - 1 && k != j ==> v[k] == old(v[k])
    ensures Condensed(v[..], j) == Rot(g, old(Condensed(v[..], j + 1)))
  {
    ghost var v1 := v[..];
    var r := Eliminator(mach, v[n - 1], v[j]);
    MadeRecorded(mach, v[n - 1], v[j], j);
    v[n - 1] := MixAdd(r.sin, v[j], r.cos, v[n - 1]);
    v[j] := r.tau;
    CondenseStep(mach, v1, v[..], j, r);
    g := Givens(j, r.cos, r.sin);
  }

  /** Eliminates v[j] against v[n-1], turning strip j into the spike. */
  method EliminateV(mach: Machine, m: nat, n: nat, s: array<real>, v: array<real>, w: array<real>, j: nat, jj: nat,
                    ghost s0: seq<real>, ghost v0: Vec, ghost gs: seq<Givens>)
    returns (ghost g: Givens)
    requires mach.Valid() && s != v && s != w && v != w && w.Length == m && v.Length == n <= m && j + 1 < n
    requires jj == Off(m, j)
    requires FirstSweep(mach, s[..], w[..], v[..], s0, v0, m, n, j + 1, gs)
    modifies s, v, w
    ensures FirstSweep(mach, s[..], w[..], v[..], s0, v0, m, n, j, gs + [g])
  {
    ghost var s1, w1, v1 := s[..], w[..], v[..];
    ExtendSpike(m, n, s, w, j);
    if v[j] != 0.0 {
      var h := TurnV(mach, n, v, j);
      g := h;
      RotateStrip(m, n, s, w, jj, h);
    } else {
      g := Givens(j, 1.0, 0.0);
      assert s[..] == s1;
      SkipV(mach, s1, w1, v1, w[..], m, n, j);
    }
    FirstSweepStep(mach, s1, w1, v1, s[..], w[..], v[..], s0, v0, m, n, j, gs, g);
  }

  lemma SkipV(mach: Machine, s: seq<real>, w: Vec, v: Vec, w': Vec, m: nat, n: nat, j: nat)
    requires mach.Valid() && 1 <= n <= m == |w| == |w'| && |s| >= Off(m, n) && |v| == n && j + 1 < n && v[j] == 0.0
    requires forall i :: 0 <= i < m ==> SpikedRow(s, w', m, n, j, i) == SpikedRow(s, w, m, n, j + 1, i)
    ensures var g := Givens(j, 1.0, 0.0);
      IsRotation(g) && RecordedBy(mach, g, v[j]) && Condensed(v, j) == Rot(g, Condensed(v, j + 1))
      && forall i :: 0 <= i < m ==> SpikedRow(s, w', m, n, j, i) == Rot(g, SpikedRow(s, w, m, n, j + 1, i))
  {
    IdentityRotation(mach, j, Condensed(v, j + 1));
    CondenseZero(v, j);
    forall i | 0 <= i < m
      ensures SpikedRow(s, w', m, n, j, i) == Rot(Givens(j, 1.0, 0.0), SpikedRow(s, w, m, n, j + 1, i))
    {
      IdentityRotation(mach, j, SpikedRow(s, w, m, n, j + 1, i));
    }
  }

  // ---- the second sweep ----

  /** State of the second sweep: rotations hs have been applied to the given rows, up to plane lo. */
  ghost predicate SecondSweep(mach: Machine, s: seq<real>, w: Vec, rows: Mat, m: nat, n: nat, lo: nat, hs: seq<Givens>,
                              sing: bool) {
    && 1 <= n <= m == |w| && |s| >= Off(m, n) && IsMat(rows, m, n) && lo <= n - 1
    && |hs| == lo && AreRotations(hs, n)
    && (forall k :: 0 <= k < lo ==> hs[k].j == k && RecordedTurned(mach, hs[k], w[k]))
    && (forall i :: 0 <= i < m ==> SpikedRow(s, w, m, n, lo, i) == RotAll(hs, rows[i]))
    && (sing <==> ZeroDiagonal(s, m, n, lo))
  }

  /** Overwriting the eliminated entry of the spike by its record does not show. */
  lemma SpikeShrinks(s: seq<real>, w: Vec, m: nat, n: nat, j: nat, i: nat, tau: real)
    requires 1 <= n <= m == |w| && |s| >= Off(m, n) && i < m && j < m && SpikedRow(s, w, m, n, j, j)[n - 1] == 0.0
    ensures SpikedRow(s, w[j := tau], m, n, j + 1, i) == SpikedRow(s, w, m, n, j, i)
  {
  }

  /** Eliminates entry j of the spike against the diagonal entry of strip j. */
  method TurnSpike(mach: Machine, m: nat, n: nat, s: array<real>, w: array<real>, j: nat, jj: nat)
    returns (ghost g: Givens)
    requires mach.Valid() && s != w && 1 <= n <= m == w.Length && s.Length >= Off(m, n) && j + 1 < n && jj == Off(m, j)
    requires w[j] != 0.0
    modifies s, w
    ensures g.j == j && IsRotation(g) && RecordedTurned(mach, g, w[j])
    ensures forall i :: 0 <= i < j ==> w[i] == old(w[i])
    ensures forall p :: 0 <= p < s.Length && !(jj <= p < jj + (m - j)) ==> s[p] == old(s[p])
    ensures forall i :: 0 <= i < m ==>
              SpikedRow(s[..], w[..], m, n, j + 1, i) == Rot(g, old(SpikedRow(s[..], w[..], m, n, j, i)))
  {
    assert jj == StripSlot(m, n, j, j);
    var f, h := s[jj], w[j];
    ghost var x := SpikedRow(s[..], w[..], m, n, j, j);
    var r := Eliminator(mach, f, h);
    MadeRecorded(mach, f, h, j);
    var turn := Givens(j, r.cos, -r.sin);
    g := turn;
    RotateStrip(m, n, s, w, jj, turn);
    SpikeEliminated(r, f, h, x, j);
    ghost var w1 := w[..];
    w[j] := r.tau;
    forall i | 0 <= i < m
      ensures SpikedRow(s[..], w[..], m, n, j + 1, i) == SpikedRow(s[..], w1, m, n, j, i)
    {
      SpikeShrinks(s[..], w1, m, n, j, i, r.tau);
    }
  }

  lemma SpikeEliminated(r: Made, f: real, h: real, x: Vec, j: nat)
    requires Rotates(r, f, h) && j + 1 < |x| && x[j] == f && x[|x| - 1] == h
    ensures Rot(Givens(j, r.cos, -r.sin), x)[|x| - 1] == 0.0
  {
    assert MixAdd(-r.sin, f, r.cos, h) == 0.0;
  }

  lemma SecondSweepStep(mach: Machine, s: seq<real>, w: Vec, s': seq<real>, w': Vec, rows: Mat, m: nat, n: nat, j: nat,
                        hs: seq<Givens>, g: Givens, sing: bool, sing': bool)
    requires SecondSweep(mach, s, w, rows, m, n, j, hs, sing) && j + 1 < n && |s'| == |s| && |w'| == m
    requires g.j == j && IsRotation(g) && RecordedTurned(mach, g, w'[j])
    requires forall k :: 0 <= k < j ==> w'[k] == w[k]
    requires forall p :: 0 <= p < |s| && p < Off(m, j) ==> s'[p] == s[p]
    requires forall i :: 0 <= i < m ==> SpikedRow(s', w', m, n, j + 1, i) == Rot(g, SpikedRow(s, w, m, n, j, i))
    requires sing' <==> sing || s'[StripSlot(m, n, j, j)] == 0.0
    ensures SecondSweep(mach, s', w', rows, m, n, j + 1, hs + [g], sing')
  {
    forall i | 0 <= i < m
      ensures SpikedRow(s', w', m, n, j + 1, i) == RotAll(hs + [g], rows[i])
    {
      RotAppend(hs, g, rows[i]);
    }
    forall k | 0 <= k < j
      ensures s'[StripSlot(m, n, k, k)] == s[StripSlot(m, n, k, k)]
    {
      OffMonotone(m, k + 1, j);
    }
  }

  lemma SkipSpike(mach: Machine, s: seq<real>, w: Vec, m: nat, n: nat, j: nat)
    requires mach.Valid() && 1 <= n <= m == |w| && |s| >= Off(m, n) && j + 1 < n && w[j] == 0.0
    ensures var g := Givens(j, 1.0, 0.0);
      IsRotation(g) && RecordedTurned(mach, g, w[j])
      && forall i :: 0 <= i < m ==> SpikedRow(s, w, m, n, j + 1, i) == Rot(g, SpikedRow(s, w, m, n, j, i))
  {
    forall i | 0 <= i < m
      ensures SpikedRow(s, w, m, n, j + 1, i) == Rot(Givens(j, 1.0, 0.0), SpikedRow(s, w, m, n, j, i))
    {
      SpikeShrinks(s, w, m, n, j, i, 0.0);
      assert w == w[j := 0.0];
      IdentityRotation(mach, j, SpikedRow(s, w, m, n, j, i));
    }
    IdentityRotation(mach, j, SpikedRow(s, w, m, n, j, j));
  }

  method EliminateSpike(mach: Machine, m: nat, n: nat, s: array<real>, w: array<real>, j: nat, jj: nat, ghost rows: Mat,
                        ghost hs: seq<Givens>, sing: bool)
    returns (ghost g: Givens, sing': bool)
    requires mach.Valid() && s != w && w.Length == m && 1 <= n <= m && j + 1 < n && jj == Off(m, j)
    requires SecondSweep(mach, s[..], w[..], rows, m, n, j, hs, sing)
    modifies s, w
    ensures SecondSweep(mach, s[..], w[..], rows, m, n, j + 1, hs + [g], sing')
  {
    ghost var s1, w1 := s[..], w[..];
    if w[j] != 0.0 {
      g := TurnSpike(mach, m, n, s, w, j, jj);
    } else {
      g := Givens(j, 1.0, 0.0);
      SkipSpike(mach, s1, w1, m, n, j);
    }
    assert jj == StripSlot(m, n, j, j);
    sing' := sing;
    if s[jj] == 0.0 {
      sing' := true;
    }
    SecondSweepStep(mach, s1, w1, s[..], w[..], rows, m, n, j, hs, g, sing, sing');
  }

  // ---- the update ----

  /** Moves the last column of s into the spike. */
  method LoadSpike(m: nat, n: nat, s: array<real>, w: array<real>, jj: nat)
    requires s != w && 1 <= n <= m == w.Length && s.Length >= Off(m, n) && jj == Off(m, n - 1)
    modifies w
    ensures forall i :: 0 <= i < m ==> SpikedRow(s[..], w[..], m, n, n - 1, i) == LowerRow(s[..], m, n, i)
  {
    OffMonotone(m, n - 1, n);
    var l := jj;
    for i := n - 1 to m
      invariant l == jj + (i - (n - 1))
      invariant forall k :: n - 1 <= k < i ==> w[k] == s[StripSlot(m, n, k, n - 1)]
    {
      w[i] := s[l];
      l := l + 1;
    }
  }

  /** Moves the spike back into the last column of s. */
  method StoreSpike(m: nat, n: nat, s: array<real>, w: array<real>, jj: nat)
    requires s != w && 1 <= n <= m == w.Length && s.Length >= Off(m, n) && jj == Off(m, n - 1)
    modifies s
    ensures forall i :: 0 <= i < m ==> LowerRow(s[..], m, n, i) == old(SpikedRow(s[..], w[..], m, n, n - 1, i))
    ensures forall p :: 0 <= p < jj ==> s[p] == old(s[p])
    ensures s[StripSlot(m, n, n - 1, n - 1)] == w[n - 1]
  {
    ghost var s1 := s[..];
    OffMonotone(m, n - 1, n);
    var l := jj;
    for i := n - 1 to m
      invariant l == jj + (i - (n - 1))
      invariant forall k :: n - 1 <= k < i ==> s[StripSlot(m, n, k, n - 1)] == w[k]
      invariant forall p :: 0 <= p < jj ==> s[p] == s1[p]
    {
      s[l] := w[i];
      l := l + 1;
    }
    forall i | 0 <= i < m
      ensures LowerRow(s[..], m, n, i) == SpikedRow(s1, w[..], m, n, n - 1, i)
    {
      SpikeStored(s1, s[..], w[..], m, n, i);
    }
  }

  lemma SpikeStored(s: seq<real>, s': seq<real>, w: Vec, m: nat, n: nat, i: nat)
    requires 1 <= n <= m == |w| && |s| == |s'| >= Off(m, n) && i < m
    requires forall k :: n - 1 <= k < m ==> s'[StripSlot(m, n, k, n - 1)] == w[k]
    requires forall p :: 0 <= p < |s| && p < Off(m, n - 1) ==> s'[p] == s[p]
    ensures LowerRow(s', m, n, i) == SpikedRow(s, w, m, n, n - 1, i)
  {
    hide LowerRow, SpikedRow;
    forall j | 0 <= j < n
      ensures LowerRow(s', m, n, i)[j] == SpikedRow(s, w, m, n, n - 1, i)[j]
    {
      if j < n - 1 && i >= j {
        OffMonotone(m, j + 1, n - 1);
      }
    }
  }

  /** Adds the spike of the rank-one term. */
  method AddSpike(m: nat, n: nat, s: array<real>, w: array<real>, u: Vec, t: real)
    requires s != w && 1 <= n <= m == w.Length == |u| && s.Length >= Off(m, n)
    modifies w
    ensures forall i :: 0 <= i < m ==>
              SpikedRow(s[..], w[..], m, n, 0, i) == Axpy(u[i], Scale(t, Unit(n, n - 1)),
                                                          old(SpikedRow(s[..], w[..], m, n, 0, i)))
  {
    ghost var w1 := w[..];
    for i := 0 to m
      invariant forall k :: 0 <= k < i ==> w[k] == w1[k] + t * u[k]
      invariant forall k :: i <= k < m ==> w[k] == w1[k]
    {
      w[i] := w[i] + t * u[i];
    }
    forall i | 0 <= i < m
      ensures SpikedRow(s[..], w[..], m, n, 0, i) == Axpy(u[i], Scale(t, Unit(n, n - 1)),
                                                          SpikedRow(s[..], w1, m, n, 0, i))
    {
      SpikeAdded(s[..], w1, w[..], u[i], t, m, n, i);
    }
  }

  lemma SpikeAdded(s: seq<real>, w: Vec, w': Vec, ui: real, t: real, m: nat, n: nat, i: nat)
    requires 1 <= n <= m == |w| == |w'| && |s| >= Off(m, n) && i < m && w'[i] == w[i] + t * ui
    ensures SpikedRow(s, w', m, n, 0, i) == Axpy(ui, Scale(t, Unit(n, n - 1)), SpikedRow(s, w, m, n, 0, i))
  {
    var e := Scale(t, Unit(n, n - 1));
    forall j | 0 <= j < n
      ensures SpikedRow(s, w', m, n, 0, i)[j] == Axpy(ui, e, SpikedRow(s, w, m, n, 0, i))[j]
    {
      assert e[j] == if j == n - 1 then t else 0.0;
    }
  }

  /** What the update computes: every row of S + u transpose(v), turned by the rotations gs of the two sweeps, and the
      records of them in v and w. */
  ghost predicate Updated(mach: Machine, s: seq<real>, v: Vec, w: Vec, s0: seq<real>, v0: Vec, u: Vec, m: nat, n: nat,
                          gs: seq<Givens>) {
    && 1 <= n <= m == |w| == |u| && |s| == |s0| >= Off(m, n) && |v| == |v0| == n
    && Planes(gs, n) && AreRotations(gs, n)
    && (forall i :: 0 <= i < m ==> LowerRow(s, m, n, i) == RotAll(gs, Axpy(u[i], v0, LowerRow(s0, m, n, i))))
    && Recorded(mach, n, v, w) == Replayed(mach, gs, n)
  }

  lemma RecordsCombine(mach: Machine, v: Vec, w: Vec, n: nat, gs: seq<Givens>, hs: seq<Givens>)
    requires 1 <= n == |v| && n <= |w| && |gs| == n - 1 && |hs| == n - 1
    requires forall k :: 0 <= k < n - 1 ==> gs[k].j == n - 2 - k && RecordedBy(mach, gs[k], v[n - 2 - k])
    requires forall k :: 0 <= k < n - 1 ==> hs[k].j == k && RecordedTurned(mach, hs[k], w[k])
    ensures Planes(gs + hs, n) && Recorded(mach, n, v, w) == Replayed(mach, gs + hs, n)
  {
    var all, rec := gs + hs, Recorded(mach, n, v, w);
    forall k | 0 <= k < |all|
      ensures rec[k] == Replayed(mach, all, n)[k] && all[k].j == if k < n - 1 then n - 2 - k else k - (n - 1)
    {
      if k < n - 1 {
        assert all[k] == gs[k] && rec[k] == FirstSet(mach, n, v)[k];
      } else {
        var l := k - (n - 1);
        assert all[k] == hs[l] && rec[k] == SecondSet(mach, n, w)[l];
        assert hs[l].j == l && RecordedTurned(mach, hs[l], w[l]);
      }
    }
  }

  /** The rows after both sweeps. */
  lemma SweepsCombine(gs: seq<Givens>, hs: seq<Givens>, x: Vec, v0: Vec, ui: real, t: real, n: nat)
    requires 1 <= n == |x| == |v0| && AreRotations(gs, n) && AreRotations(hs, n)
    requires Condensed(v0, n - 1) == v0 && RotAll(gs, v0) == Scale(t, Unit(n, n - 1))
    ensures RotAll(hs, Axpy(ui, Scale(t, Unit(n, n - 1)), RotAll(gs, x))) == RotAll(gs + hs, Axpy(ui, v0, x))
  {
    RotToAxpy(gs, |gs|, ui, v0, x);
    RotConcat(gs, hs, |hs|, Axpy(ui, v0, x));
  }

  /** Between the sweeps the spike of the rank-one term joins the rows. */
  lemma StartSecondSweep(mach: Machine, s: seq<real>, w: Vec, v: Vec, w': Vec, s0: seq<real>, v0: Vec, u: Vec, m: nat,
                         n: nat, gs: seq<Givens>, rows: Mat)
    requires FirstSweep(mach, s, w, v, s0, v0, m, n, 0, gs) && |u| == |w'| == m && IsMat(rows, m, n)
    requires forall i :: 0 <= i < m ==>
              rows[i] == Axpy(u[i], Scale(v[n - 1], Unit(n, n - 1)), RotAll(gs, LowerRow(s0, m, n, i)))
    requires forall i :: 0 <= i < m ==>
               SpikedRow(s, w', m, n, 0, i) == Axpy(u[i], Scale(v[n - 1], Unit(n, n - 1)), SpikedRow(s, w, m, n, 0, i))
    ensures SecondSweep(mach, s, w', rows, m, n, 0, [], false)
    ensures RotAll(gs, v0) == Scale(v[n - 1], Unit(n, n - 1))
  {
    assert Condensed(v, 0) == Scale(v[n - 1], Unit(n, n - 1));
  }

  lemma FinishUpdate(mach: Machine, s: seq<real>, w: Vec, v: Vec, s': seq<real>, s0: seq<real>, v0: Vec, u: Vec, m: nat,
                     n: nat, gs: seq<Givens>, hs: seq<Givens>, rows: Mat, t: real, sing: bool)
    requires 1 <= n <= m && SecondSweep(mach, s, w, rows, m, n, n - 1, hs, sing)
    requires |s'| == |s| == |s0| && |u| == m && |v| == |v0| == n
    requires |gs| == n - 1 && AreRotations(gs, n)
    requires forall k :: 0 <= k < n - 1 ==> gs[k].j == n - 2 - k && RecordedBy(mach, gs[k], v[n - 2 - k])
    requires RotAll(gs, v0) == Scale(t, Unit(n, n - 1))
    requires forall i :: 0 <= i < m ==>
              rows[i] == Axpy(u[i], Scale(t, Unit(n, n - 1)), RotAll(gs, LowerRow(s0, m, n, i)))
    requires forall i :: 0 <= i < m ==> LowerRow(s', m, n, i) == SpikedRow(s, w, m, n, n - 1, i)
    ensures Updated(mach, s', v, w, s0, v0, u, m, n, gs + hs)
  {
    forall i | 0 <= i < m
      ensures LowerRow(s', m, n, i) == RotAll(gs + hs, Axpy(u[i], v0, LowerRow(s0, m, n, i)))
    {
      SweepsCombine(gs, hs, LowerRow(s0, m, n, i), v0, u[i], t, n);
    }
    RecordsCombine(mach, v, w, n, gs, hs);
  }

  /** The rotations that turn v into a multiple of the last unit vector, from the last but one component to the
      first. */
  method SweepDown(mach: Machine, m: nat, n: nat, s: array<real>, v: array<real>, w: array<real>)
    returns (jj: nat, ghost gs: seq<Givens>)
    requires mach.Valid() && 1 <= n <= m == w.Length && v.Length == n && s.Length >= Off(m, n)
    requires s != v && s != w && v != w
    modifies s, v, w
    ensures jj == Off(m, 0) && FirstSweep(mach, s[..], w[..], v[..], old(s[..]), old(v[..]), m, n, 0, gs)
  {
    hide RecordedBy, SpikedRow, LowerRow;
    ghost var s0, v0 := s[..], v[..];
    jj := LastStrip(m, n);
    LoadSpike(m, n, s, w, jj);
    gs := [];
    assert Condensed(v0, n - 1) == v0;
    for j := n - 1 downto 0
      invariant jj == Off(m, j)
      invariant FirstSweep(mach, s[..], w[..], v[..], s0, v0, m, n, j, gs)
    {
      jj := jj - (m - j);
      ghost var g := EliminateV(mach, m, n, s, v, w, j, jj, s0, v0, gs);
      gs := gs + [g];
    }
  }

  /** The slot where the last strip starts. */
  method LastStrip(m: nat, n: nat) returns (jj: nat)
    requires 1 <= n <= m
    ensures jj == Off(m, n - 1)
  {
    OffClosed(m, n);
    jj := n * (2 * m - n + 1) / 2 - (m - n) - 1;
  }

  /** The rotations that turn the spike in w back into the triangle, from the first strip on. */
  method SweepUp(mach: Machine, m: nat, n: nat, s: array<real>, v: Vec, w: array<real>, jj0: nat, ghost rows: Mat)
    returns (sing: bool, jj: nat, ghost hs: seq<Givens>)
    requires mach.Valid() && 1 <= n <= m == w.Length && |v| == n && s.Length >= Off(m, n) && s != w
    requires jj0 == Off(m, 0) && SecondSweep(mach, s[..], w[..], rows, m, n, 0, [], false)
    modifies s, w
    ensures jj == Off(m, n - 1) && SecondSweep(mach, s[..], w[..], rows, m, n, n - 1, hs, sing)
  {
    sing, hs, jj := false, [], jj0;
    for j := 0 to n - 1
      invariant jj == Off(m, j)
      invariant SecondSweep(mach, s[..], w[..], rows, m, n, j, hs, sing)
    {
      ghost var g;
      g, sing := EliminateSpike(mach, m, n, s, w, j, jj, rows, hs, sing);
      hs := hs + [g];
      jj := jj + (m - j);
    }
  }

  /** Overwrites the packed lower trapezoid s by that of (s + u transpose(v)) q, q a product of rotations recorded in v
      and w. sing tells whether the result has a zero on its diagonal. */
  method R1updt(mach: Machine, m: nat, n: nat, s: array<real>, u: Vec, v: array<real>, w: array<real>)
    returns (sing: bool, ghost gs: seq<Givens>)
    requires mach.Valid() && 1 <= n <= m == w.Length == |u| && v.Length == n && s.Length >= Off(m, n)
    requires s != v && s != w && v != w
    modifies s, v, w
    ensures Updated(mach, s[..], v[..], w[..], old(s[..]), old(v[..]), u, m, n, gs)
    ensures sing <==> ZeroDiagonal(s[..], m, n, n)
  {
    hide Off, ZeroDiagonal, Axpy, Scale, RotAll, LowerRow, Recorded;
    ghost var s0, v0 := s[..], v[..];
    var jj;
    jj, gs := SweepDown(mach, m, n, s, v, w);
    ghost var w1, v1, t := w[..], v[..], v[n - 1];
    AddSpike(m, n, s, w, u, v[n - 1]);
    ghost var rows: Mat := seq(m, i requires 0 <= i < m => Axpy(u[i], Scale(t, Unit(n, n - 1)),
                                                                RotAll(gs, LowerRow(s0, m, n, i))));
    StartSecondSweep(mach, s[..], w1, v[..], w[..], s0, v0, u, m, n, gs, rows);
    ghost var hs;
    sing, jj, hs := SweepUp(mach, m, n, s, v[..], w, jj, rows);
    ghost var s1 := s[..];
    StoreSpike(m, n, s, w, jj);
    FinishUpdate(mach, s1, w[..], v1, s[..], s0, v0, u, m, n, gs, hs, rows, t, sing);
    gs := gs + hs;
    assert jj == StripSlot(m, n, n - 1, n - 1);
    SingularSplits(s1, s[..], m, n);
    if s[jj] == 0.0 {
      sing := true;
    }
  }

  /** The stored triangle has a zero on its diagonal. */
  ghost predicate ZeroDiagonal(s: seq<real>, m: nat, n: nat, k: nat)
    requires k <= n <= m && |s| >= Off(m, n)
  {
    exists j :: 0 <= j < k && s[StripSlot(m, n, j, j)] == 0.0
  }

  lemma SingularSplits(s: seq<real>, s': seq<real>, m: nat, n: nat)
    requires 1 <= n <= m && |s| == |s'| >= Off(m, n)
    requires forall p :: 0 <= p < |s| && p < Off(m, n - 1) ==> s'[p] == s[p]
    ensures ZeroDiagonal(s', m, n, n) <==> ZeroDiagonal(s, m, n, n - 1) || s'[StripSlot(m, n, n - 1, n - 1)] == 0.0
  {
    forall j | 0 <= j < n - 1
      ensures s'[StripSlot(m, n, j, j)] == s[StripSlot(m, n, j, j)]
    {
      OffMonotone(m, j + 1, n - 1);
    }
  }
}
