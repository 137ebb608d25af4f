/** Packed storage of triangular matrices: strip j of a matrix of order m holds m - j entries, and the
    strips follow one another. dogleg reads the strips as rows of an upper triangle, r1updt as columns of
    a lower trapezoid; they are the same layout. */
module Packed {
  import opened Vectors

  /** The slot where strip j starts. */
  function Off(m: nat, j: nat): nat
    requires j <= m
  {
    if j == 0 then 0 else Off(m, j - 1) + (m - (j - 1))
  }

  /** The closed form behind the cursors' starting values. */
  lemma {:induction false} OffClosed(m: nat, j: nat)
    requires j <= m
    ensures 2 * Off(m, j) == j * (2 * m - j + 1)
  {
    if j > 0 {
      OffClosed(m, j - 1);
    }
  }

  /** The slots needed for a triangle of order n. */
  function Slots(n: nat): (s: nat)
    ensures s == Off(n, n)
  {
    OffClosed(n, n);
    n * (n + 1) / 2
  }

  lemma {:induction false} OffMonotone(m: nat, j: nat, k: nat)
    requires j <= k <= m
    ensures Off(m, j) <= Off(m, k)
    ensures j < k ==> Off(m, j) + (m - j) <= Off(m, k)
    decreases k
  {
    if j < k {
      OffMonotone(m, j, k - 1);
    }
  }

  /** The slot of entry i of strip j, i >= j. */
  function Slot(m: nat, i: nat, j: nat): (s: nat)
    requires j <= i < m
    ensures s < Off(m, m)
  {
    OffMonotone(m, j + 1, m);
    Off(m, j) + (i - j)
  }

  /** Different entries have different slots. */
  lemma SlotInjective(m: nat, i: nat, j: nat, k: nat, l: nat)
    requires j <= i < m && l <= k < m
    ensures Slot(m, i, j) == Slot(m, k, l) ==> i == k && j == l
  {
    if j < l {
      OffMonotone(m, j, l);
    } else if l < j {
      OffMonotone(m, l, j);
    }
  }

  /** Row j of the upper triangle stored by rows in r. */
  function UpperRow(r: seq<real>, n: nat, j: nat): (v: Vec)
    requires j < n && |r| >= Slots(n)
    ensures |v| == n
    ensures forall i :: 0 <= i < n ==> v[i] == if i < j then 0.0 else r[Slot(n, i, j)]
  {
    seq(n, i requires 0 <= i < n && j < n && |r| >= Off(n, n) => if i < j then 0.0 else r[Slot(n, i, j)])
  }

  /** The upper triangular matrix stored by rows in r. */
  function Upper(r: seq<real>, n: nat): (a: Mat)
    requires |r| >= Slots(n)
    ensures IsMat(a, n, n)
    ensures forall j :: 0 <= j < n ==> a[j] == UpperRow(r, n, j)
  {
    seq(n, j requires 0 <= j < n && |r| >= Off(n, n) => UpperRow(r, n, j))
  }
}
