/** A square matrix with orthonormal rows has orthonormal columns. */
module Orthonormal {
  import opened Reals
  import opened Vectors

  /** The squares of the first k columns, as far as their first m components. */
  function ColumnSquares(q: Mat, n: nat, k: nat, m: nat): real
    requires IsMat(q, n, n) && k <= n && m <= n
  {
    if k == 0 then 0.0 else ColumnSquares(q, n, k - 1, m) + DotR(Col(q, k - 1), Col(q, k - 1), 0, m)
  }

  /** One more row. */
  lemma {:induction false} RowAdded(q: Mat, n: nat, k: nat, m: nat)
    requires IsMat(q, n, n) && k <= n && m < n
    ensures ColumnSquares(q, n, k, m + 1) == ColumnSquares(q, n, k, m) + DotR(q[m], q[m], 0, k)
  {
    if k > 0 {
      RowAdded(q, n, k - 1, m);
      assert Col(q, k - 1)[m] == q[m][k - 1];
    }
  }

  lemma {:induction false} NoRows(q: Mat, n: nat, k: nat)
    requires IsMat(q, n, n) && k <= n
    ensures ColumnSquares(q, n, k, 0) == 0.0
  {
    if k > 0 {
      NoRows(q, n, k - 1);
    }
  }

  /** With orthonormal rows the squares of the columns add up to the number of rows. */
  lemma {:induction false} SquaresOfRows(q: Mat, n: nat, m: nat)
    requires |q| == n && OrthonormalRows(q, n) && m <= n
    ensures ColumnSquares(q, n, n, m) == m as real
  {
    if m == 0 {
      NoRows(q, n, n);
    } else {
      SquaresOfRows(q, n, m - 1);
      RowAdded(q, n, n, m - 1);
      assert Dot(q[m - 1], q[m - 1]) == 1.0;
    }
  }

  /** The products of column i with all columns. */
  function Products(q: Mat, n: nat, i: nat): (v: Vec)
    requires IsMat(q, n, n) && i < n
    ensures |v| == n
  {
    Comb(Col(q, i), q, n)
  }

  /** They are a vector whose square is its own component i; so that is at most one. */
  lemma ProductsSquare(q: Mat, n: nat, i: nat)
    requires |q| == n && OrthonormalRows(q, n) && i < n
    ensures var v := Products(q, n, i);
      Dot(v, v) == v[i] == Dot(Col(q, i), Col(q, i)) && Square(v[i]) <= v[i] && v[i] <= 1.0
    ensures forall j :: 0 <= j < n ==> Products(q, n, i)[j] == Dot(Col(q, i), Col(q, j))
  {
    var c, v := Col(q, i), Products(q, n, i);
    forall j | 0 <= j < n
      ensures v[j] == Dot(c, Col(q, j))
    {
      CombAt(c, q, n, j);
    }
    OrthonormalIsometry(q, n, c);
    OthersSquare(v, i);
    AtMostOne(v[i]);
  }

  function Square(t: real): real {
    t * t
  }

  lemma AtMostOne(t: real)
    requires Square(t) <= t
    ensures t <= 1.0
  {
    if t > 1.0 {
      PositiveProduct(t - 1.0, t, (t - 1.0) * t);
    }
  }

  /** |v|^2 is at least the square of one component, and equal only when the others vanish. */
  lemma OthersSquare(v: Vec, i: nat)
    requires i < |v|
    ensures Square(v[i]) <= Dot(v, v)
    ensures Square(v[i]) == Dot(v, v) ==> forall j :: 0 <= j < |v| && j != i ==> v[j] == 0.0
  {
    var w := v[i := 0.0];
    DotUpdate(v, v, i, 0.0, 0.0);
    DotNonneg(w);
    if Square(v[i]) == Dot(v, v) {
      forall j | 0 <= j < |v| && j != i
        ensures v[j] == 0.0
      {
        assert w[j] == Zero(|v|)[j];
      }
    }
  }

  lemma {:induction false} SumOfOnes(q: Mat, n: nat, k: nat)
    requires |q| == n && OrthonormalRows(q, n) && k <= n
    ensures ColumnSquares(q, n, k, n) <= k as real
    ensures ColumnSquares(q, n, k, n) == k as real ==> forall i :: 0 <= i < k ==> Dot(Col(q, i), Col(q, i)) == 1.0
  {
    if k > 0 {
      SumOfOnes(q, n, k - 1);
      ProductsSquare(q, n, k - 1);
    }
  }

  lemma OrthonormalColumns(q: Mat, n: nat)
    requires |q| == n && OrthonormalRows(q, n)
    ensures forall i, j :: 0 <= i < n && 0 <= j < n ==> Dot(Col(q, i), Col(q, j)) == if i == j then 1.0 else 0.0
  {
    hide ColumnSquares, Products;
    SquaresOfRows(q, n, n);
    SumOfOnes(q, n, n);
    forall i, j | 0 <= i < n && 0 <= j < n
      ensures Dot(Col(q, i), Col(q, j)) == if i == j then 1.0 else 0.0
    {
      ProductsSquare(q, n, i);
      OthersSquare(Products(q, n, i), i);
    }
  }

  /** transpose(Q) Q y = y */
  lemma RowsRecover(q: Mat, n: nat, y: Vec)
    requires |q| == n == |y| && OrthonormalRows(q, n)
    ensures Comb(Mul(q, y), q, n) == y
  {
    hide Products;
    OrthonormalColumns(q, n);
    var z := Comb(Mul(q, y), q, n);
    forall i | 0 <= i < n
      ensures z[i] == y[i]
    {
      CombAt(Mul(q, y), q, n, i);
      DotCommutes(Mul(q, y), Col(q, i));
      Adjoint(Col(q, i), q, y);
      ProductsSquare(q, n, i);
      assert Products(q, n, i) == Unit(n, i);
      DotUnit(y, i);
      ProductsAre(q, n, i);
    }
    assert z == y;
  }

  lemma ProductsAre(q: Mat, n: nat, i: nat)
    requires IsMat(q, n, n) && i < n
    ensures Products(q, n, i) == Comb(Col(q, i), q, n)
  {
  }
}
