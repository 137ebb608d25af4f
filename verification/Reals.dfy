/** Signs and orders of real products. Each lemma names the product it speaks about. */
module Reals {

  function Abs(t: real): real {
    if t < 0.0 then -t else t
  }

  function Max(a: real, b: real): real {
    if a >= b then a else b
  }

  function Min(a: real, b: real): real {
    if a <= b then a else b
  }

  function NonzeroOr(a: real, b: real): real {
    if a == 0.0 then b else a
  }

  function MaxInt(a: int, b: int): int {
    if a >= b then a else b
  }

  lemma PositiveProduct(a: real, b: real, p: real)
    requires a > 0.0 && b > 0.0 && p == a * b
    ensures p > 0.0
  {
  }

  lemma NonnegProduct(a: real, b: real, p: real)
    requires a >= 0.0 && b >= 0.0 && p == a * b
    ensures p >= 0.0
  {
  }

  lemma SquareSign(t: real, p: real)
    requires p == t * t
    ensures p >= 0.0
    ensures p == 0.0 <==> t == 0.0
  {
    if t > 0.0 {
      PositiveProduct(t, t, p);
    } else if t < 0.0 {
      PositiveProduct(-t, -t, p);
    }
  }

  /** Multiplying by a positive number keeps the order. */
  lemma ScaleOrder(c: real, a: real, b: real, p: real, q: real)
    requires c > 0.0 && p == c * a && q == c * b
    ensures p <= q <==> a <= b
    ensures p < q <==> a < b
  {
    if a < b {
      PositiveProduct(c, b - a, q - p);
    } else if b < a {
      PositiveProduct(c, a - b, p - q);
    }
  }

  /** Nonnegative numbers are ordered as their squares. */
  lemma SquareOrder(a: real, b: real, p: real, q: real)
    requires a >= 0.0 && b >= 0.0 && p == a * a && q == b * b
    ensures p <= q <==> a <= b
    ensures p < q <==> a < b
    ensures p == q <==> a == b
  {
    if a < b {
      PositiveProduct(b - a, b + a, q - p);
    } else if b < a {
      PositiveProduct(a - b, a + b, p - q);
    }
  }

  lemma SquareAbs(t: real)
    ensures Abs(t) * Abs(t) == t * t
  {
  }

  /** A square root is the only nonnegative number with its square. */
  lemma RootUnique(a: real, b: real)
    requires a >= 0.0 && b >= 0.0 && a * a == b * b
    ensures a == b
  {
    SquareOrder(a, b, a * a, b * b);
  }

  lemma ZeroProduct(a: real, b: real)
    requires a * b == 0.0
    ensures a == 0.0 || b == 0.0
  {
    if a > 0.0 && b > 0.0 {
      PositiveProduct(a, b, 0.0);
    } else if a > 0.0 && b < 0.0 {
      PositiveProduct(a, -b, 0.0);
    } else if a < 0.0 && b > 0.0 {
      PositiveProduct(-a, b, 0.0);
    } else if a < 0.0 && b < 0.0 {
      PositiveProduct(-a, -b, 0.0);
    }
  }

  /** p is the quotient a / b exactly when p b = a. */
  lemma Quotient(a: real, b: real, p: real)
    requires b != 0.0
    ensures p * b == a <==> p == a / b
  {
    var q := a / b;
    assert q * b == a;
    if p * b == a {
      assert (p - q) * b == 0.0;
      ZeroProduct(p - q, b);
    }
  }

  lemma NegatedQuotient(a: real, b: real)
    requires b != 0.0
    ensures -a / b == -(a / b)
  {
    var q := a / b;
    assert q * b == a;
    Quotient(-a, b, -q);
  }

  lemma DivisionSign(a: real, b: real, p: real)
    requires b > 0.0 && p == a / b
    ensures a > 0.0 <==> p > 0.0
    ensures a >= 0.0 <==> p >= 0.0
    ensures a == 0.0 <==> p == 0.0
    ensures p * b == a
  {
    assert p * b == a;
    if p > 0.0 {
      PositiveProduct(p, b, a);
    } else if p < 0.0 {
      PositiveProduct(-p, b, -a);
    }
  }

  lemma SquareOfProduct(g: real, v: real, gg: real, vv: real, s: real)
    requires gg == g * g && vv == v * v && s == g * v
    ensures s * s == gg * vv
  {
    assert (g * v) * (g * v) == (g * g) * (v * v);
  }

  lemma DividedBack(a: real, b: real, q: real)
    requires b != 0.0 && q == a / b
    ensures q * b == a
  {
  }
}
