/** The mutable matrices of the routines, read as vectors. */
module Arrays {
  import opened Vectors

  /** Column j of a, as a vector. */
  function ColOf(a: array2<real>, j: nat): (v: Vec)
    requires j < a.Length1
    reads a
    ensures |v| == a.Length0
    ensures forall i :: 0 <= i < a.Length0 ==> v[i] == a[i, j]
  {
    seq(a.Length0, i requires 0 <= i < a.Length0 && j < a.Length1 reads a => a[i, j])
  }

  /** Row i of a, as a vector. */
  function RowOf(a: array2<real>, i: nat): (v: Vec)
    requires i < a.Length0
    reads a
    ensures |v| == a.Length1
    ensures forall j :: 0 <= j < a.Length1 ==> v[j] == a[i, j]
  {
    seq(a.Length1, j requires 0 <= j < a.Length1 && i < a.Length0 reads a => a[i, j])
  }

  /** The rows of a. */
  function RowsOf(a: array2<real>): (b: Mat)
    reads a
    ensures IsMat(b, a.Length0, a.Length1)
    ensures forall i :: 0 <= i < a.Length0 ==> b[i] == RowOf(a, i)
  {
    seq(a.Length0, i requires 0 <= i < a.Length0 reads a => RowOf(a, i))
  }

  /** The columns of a. */
  function ColsOf(a: array2<real>): (b: Mat)
    reads a
    ensures IsMat(b, a.Length1, a.Length0)
    ensures forall j :: 0 <= j < a.Length1 ==> b[j] == ColOf(a, j)
  {
    seq(a.Length1, j requires 0 <= j < a.Length1 reads a => ColOf(a, j))
  }

  method CopyVector(src: Vec, dst: array<real>)
    requires dst.Length == |src|
    modifies dst
    ensures dst[..] == src
  {
    for i := 0 to |src|
      invariant forall l :: 0 <= l < i ==> dst[l] == src[l]
    {
      dst[i] := src[i];
    }
  }

  /** out = D x */
  method FormScaled(d: Vec, x: Vec, out: array<real>)
    requires |d| == |x| == out.Length
    modifies out
    ensures out[..] == Times(d, x)
  {
    for j := 0 to |x|
      invariant forall i :: 0 <= i < j ==> out[i] == Times(d, x)[i]
    {
      out[j] := d[j] * x[j];
    }
  }
}
