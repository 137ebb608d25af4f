/** The matrix qform builds, seen from outside: its action, its transpose, and its orthogonality. */
module OrthogonalFactor {
  import opened Vectors
  import opened Reflectors

  /** q is the m by m matrix with columns H_0 H_1 ... e_j. */
  ghost predicate ProductOf(q: Mat, us: Mat, m: nat) {
    && IsMat(q, m, m) && IsMat(us, |us|, m) && |us| <= m
    && forall j :: 0 <= j < m ==> Col(q, j) == Backward(us, 0, Unit(m, j))
  }

  /** Q x = H_0 H_1 ... x, and row i of Q is ... H_1 H_0 e_i. */
  lemma ProductActs(q: Mat, us: Mat, m: nat, x: Vec)
    requires ProductOf(q, us, m) && |x| == m
    ensures Mul(q, x) == Backward(us, 0, x)
    ensures forall i :: 0 <= i < m ==> q[i] == Forward(us, |us|, Unit(m, i))
  {
    forall i | 0 <= i < m
      ensures q[i] == Forward(us, |us|, Unit(m, i)) && Mul(q, x)[i] == Backward(us, 0, x)[i]
    {
      ProductRow(q, us, m, i);
      ForwardIsTranspose(us, Unit(m, i), x);
      DotUnit(Backward(us, 0, x), i);
    }
  }

  lemma ProductRow(q: Mat, us: Mat, m: nat, i: nat)
    requires ProductOf(q, us, m) && i < m
    ensures q[i] == Forward(us, |us|, Unit(m, i))
  {
    forall j | 0 <= j < m
      ensures q[i][j] == Forward(us, |us|, Unit(m, i))[j]
    {
      ForwardIsTranspose(us, Unit(m, i), Unit(m, j));
      DotUnit(Forward(us, |us|, Unit(m, i)), j);
      DotUnit(Backward(us, 0, Unit(m, j)), i);
      assert q[i][j] == Col(q, j)[i];
    }
  }

  /** Forming transpose(Q) f by forward reflections agrees with multiplying by the accumulated Q. */
  lemma ForwardIsTransposeTimes(q: Mat, us: Mat, m: nat, f: Vec)
    requires ProductOf(q, us, m) && |f| == m
    ensures Comb(f, q, m) == Forward(us, |us|, f)
  {
    forall j | 0 <= j < m
      ensures Comb(f, q, m)[j] == Forward(us, |us|, f)[j]
    {
      CombAt(f, q, m, j);
      ForwardIsTranspose(us, f, Unit(m, j));
      DotUnit(Forward(us, |us|, f), j);
    }
  }

  /** With proper reflections Q is orthogonal: Q transpose(Q) = I = transpose(Q) Q. */
  lemma ProductOrthogonal(q: Mat, us: Mat, m: nat)
    requires ProductOf(q, us, m) && AllProper(us, m)
    ensures OrthonormalRows(q, m)
    ensures forall i, j :: 0 <= i < m && 0 <= j < m ==> Dot(Col(q, i), Col(q, j)) == if i == j then 1.0 else 0.0
  {
    forall i, j | 0 <= i < m && 0 <= j < m
      ensures Dot(q[i], q[j]) == if i == j then 1.0 else 0.0
      ensures Dot(Col(q, i), Col(q, j)) == if i == j then 1.0 else 0.0
    {
      ProductRow(q, us, m, i);
      ProductRow(q, us, m, j);
      ForwardIsometry(us, |us|, Unit(m, i), Unit(m, j));
      BackwardIsometry(us, 0, Unit(m, i), Unit(m, j));
      DotUnit(Unit(m, i), j);
    }
  }
}
