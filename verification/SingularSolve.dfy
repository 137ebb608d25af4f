/** qrsolv on a singular system: it promises a least-squares solution, and on this input it leaves another vector. */
module SingularSolve {
  import opened Reals
  import opened Vectors
  import opened Dogleg
  import opened Qrsolv

  const R: Mat := [[1.0, 0.0, 1.0], [0.0, 0.0, 0.0], [0.0, 0.0, 0.0]]
  const D: Vec := [1.0, 0.0, 0.0]
  const B: Vec := [1.0, 0.0, 0.0]

  /** The product of two vectors of length three, the terms by their factors. */
  lemma Product(u: Vec, v: Vec, a: real, b: real, c: real, x: real, y: real, z: real)
    requires |u| == |v| == 3 && u[0] == a && u[1] == b && u[2] == c && v[0] == x && v[1] == y && v[2] == z
    ensures Dot(u, v) == a * x + b * y + c * z
  {
    assert u == [a, b, c] && v == [x, y, z];
    Dot3([a, b, c], [x, y, z]);
  }

  lemma CrossAt(s: Mat, i: nat, j: nat, a: real, b: real, c: real, x: real, y: real, z: real, g: real)
    requires IsMat(s, 3, 3) && i < 3 && j < 3 && g == a * x + b * y + c * z
    requires s[0][i] == a && s[1][i] == b && s[2][i] == c && s[0][j] == x && s[1][j] == y && s[2][j] == z
    ensures Cross(s, 3)[i][j] == g
  {
    hide Dot;
    CombAt(Col(s, i), s, 3, j);
    Product(Col(s, i), Col(s, j), a, b, c, x, y, z);
  }

  /** The entries of transpose(R) R + D^2 in the first two columns. */
  lemma DampedEntries(g: Mat)
    requires g == PlusDiagonal(Cross(R, 3), Times(D, D), 3, 3)
    ensures g[0][0] == 2.0 && g[0][1] == 0.0 && g[1][1] == 0.0
  {
    hide Cross;
    CrossAt(R, 0, 0, 1.0, 0.0, 0.0, 1.0, 0.0, 0.0, 1.0);
    CrossAt(R, 0, 1, 1.0, 0.0, 0.0, 0.0, 0.0, 0.0, 0.0);
    CrossAt(R, 1, 1, 0.0, 0.0, 0.0, 0.0, 0.0, 0.0, 0.0);
    assert g[0] == Cross(R, 3)[0][0 := Cross(R, 3)[0][0] + Times(D, D)[0]];
    assert g[1] == Cross(R, 3)[1][1 := Cross(R, 3)[1][1] + Times(D, D)[1]];
  }

  /** An upper triangle S with transpose(S) S = transpose(R) R + D^2 has the first row (s, 0, ..) with s^2 = 2, and a
      zero second pivot. */
  lemma TriangleIs(s: Mat, a: real, b: real, c: real)
    requires IsMat(s, 3, 3) && UpperTriangular(s) && s[0][0] == a && s[0][1] == b && s[1][1] == c
    requires Cross(s, 3) == PlusDiagonal(Cross(R, 3), Times(D, D), 3, 3)
    ensures a * a == 2.0 && b == 0.0 && c == 0.0
  {
    hide Cross, PlusDiagonal, Times;
    assert s[1][0] == 0.0 && s[2][0] == 0.0 && s[2][1] == 0.0;
    DampedEntries(Cross(s, 3));
    FirstEntries(s, a, b, c);
  }

  lemma FirstEntries(s: Mat, a: real, b: real, c: real)
    requires IsMat(s, 3, 3) && s[0][0] == a && s[0][1] == b && s[1][1] == c && s[1][0] == s[2][0] == s[2][1] == 0.0
    requires var g := Cross(s, 3); g[0][0] == 2.0 && g[0][1] == 0.0 && g[1][1] == 0.0
    ensures a * a == 2.0 && b == 0.0 && c == 0.0
  {
    hide Cross;
    var p, q, t := a * a, a * b, b * b + c * c;
    CrossAt(s, 0, 0, a, 0.0, 0.0, a, 0.0, 0.0, p);
    CrossAt(s, 0, 1, a, 0.0, 0.0, b, c, 0.0, q);
    CrossAt(s, 1, 1, b, c, 0.0, b, c, 0.0, t);
    SolveEntries(a, b, c, p, q, t);
  }

  lemma SolveEntries(a: real, b: real, c: real, p: real, q: real, t: real)
    requires p == a * a == 2.0 && q == a * b == 0.0 && t == b * b + c * c == 0.0
    ensures b == 0.0 && c == 0.0
  {
    ZeroProduct(a, b);
    ZeroProduct(c, c);
  }

  /** The leading block has order one, and its solution is a half. */
  lemma LeadingHalf(s: Mat, w: Vec, z: Vec, nsing: nat)
    requires Completed(s, w, R, B, D, 3) && LeadingSolve(s, w, z, nsing) && |z| == 3
    ensures nsing == 1 && z == [0.5, 0.0, 0.0]
  {
    hide Cross, PlusDiagonal, Comb, Dot;
    TriangleIs(s, s[0][0], s[0][1], s[1][1]);
    NonzeroRoot(s[0][0]);
    assert nsing == 1;
    var a, k := s[0][0], z[0];
    Product(s[0], z, a, 0.0, s[0][2], k, 0.0, 0.0);
    FirstRightSide(s, w, a, w[0]);
    HalfOf(a, w[0], k);
  }

  lemma NonzeroRoot(a: real)
    requires a * a == 2.0
    ensures a != 0.0
  {
  }

  lemma FirstRightSide(s: Mat, w: Vec, a: real, u: real)
    requires IsMat(s, 3, 3) && UpperTriangular(s) && |w| == 3 && Comb(w, s, 3) == Comb(B, R, 3)
    requires a == s[0][0] && u == w[0]
    ensures u * a == 1.0
  {
    hide Comb, Dot;
    CombAt(w, s, 3, 0);
    CombAt(B, R, 3, 0);
    Product(w, Col(s, 0), u, w[1], w[2], a, 0.0, 0.0);
    Product(B, Col(R, 0), 1.0, 0.0, 0.0, 1.0, 0.0, 0.0);
  }

  lemma HalfOf(a: real, w: real, z: real)
    requires a * a == 2.0 && w * a == 1.0 && a * z == w
    ensures z == 0.5
  {
    assert (a * a) * z == a * (a * z);
  }

  /** Whatever signs the rotations take, the result does not solve the normal equations of R x = b with the rows of D,
      although they have a solution. */
  lemma LeastSquaresCanFail(s: Mat, w: Vec, z: Vec, nsing: nat)
    requires Completed(s, w, R, B, D, 3) && LeadingSolve(s, w, z, nsing) && |z| == 3
    ensures !Augmented(R, D, B, z) && Augmented(R, D, B, [0.0, 0.0, 1.0])
  {
    hide Completed, LeadingSolve;
    LeadingHalf(s, w, z, nsing);
    NotTheHalf(z);
    TheUnit([0.0, 0.0, 1.0]);
  }

  lemma NotTheHalf(z: Vec)
    requires z == [0.5, 0.0, 0.0]
    ensures !Augmented(R, D, B, z)
  {
    hide Comb, Mul;
    AugmentedAt(z, 2, 0.5, 0.0);
  }

  lemma TheUnit(y: Vec)
    requires y == [0.0, 0.0, 1.0]
    ensures Augmented(R, D, B, y)
  {
    hide Comb, Mul;
    AugmentedAt(y, 0, 0.0, 1.0);
    AugmentedAt(y, 1, 0.0, 1.0);
    AugmentedAt(y, 2, 0.0, 1.0);
    assert Axpy(1.0, Times(Times(D, D), y), Comb(Mul(R, y), R, 3)) == Comb(B, R, 3);
  }

  /** Component i of transpose(R) b and of transpose(R) R z. */
  lemma AugmentedAt(z: Vec, i: nat, a: real, c: real)
    requires |z| == 3 && i < 3 && a == z[0] && c == z[2]
    ensures Comb(B, R, 3)[i] == R[0][i] && Comb(Mul(R, z), R, 3)[i] == (a + c) * R[0][i]
  {
    hide Comb, Dot;
    CombAt(B, R, 3, i);
    Product(B, Col(R, i), 1.0, 0.0, 0.0, R[0][i], 0.0, 0.0);
    Product(R[0], z, 1.0, 0.0, 1.0, a, z[1], c);
    Product(R[1], z, 0.0, 0.0, 0.0, a, z[1], c);
    CombAt(Mul(R, z), R, 3, i);
    Product(Mul(R, z), Col(R, i), a + c, 0.0, Mul(R, z)[2], R[0][i], 0.0, 0.0);
  }
}
