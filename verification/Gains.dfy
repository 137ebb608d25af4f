/** The reductions of a trial step, against what was predicted of it. */
module Gains {
  import opened Reals

  /** A positive reduction was predicted, and the actual one is at least r times as large. */
  predicate Attains(actred: real, prered: real, r: real) {
    prered > 0.0 && actred >= r * prered
  }

  /** A positive reduction was predicted, and the actual one is more than r times as large. */
  predicate Exceeds(actred: real, prered: real, r: real) {
    prered > 0.0 && actred > r * prered
  }

  /** A positive reduction was predicted, and the actual one is within a tenth of it. */
  predicate Agrees(actred: real, prered: real) {
    prered > 0.0 && Abs(actred - prered) <= 0.1 * prered
  }

  /** v is the part of the square ff that the square aa is smaller by. */
  predicate Reduces(v: real, ff: real, aa: real) {
    v * ff == ff - aa
  }

  /** A quotient of the two reductions, 0 when none was predicted, against a positive bound. */
  lemma QuotientGains(actred: real, prered: real, q: real, r: real)
    requires prered >= 0.0 && (prered > 0.0 ==> q == actred / prered) && (prered == 0.0 ==> q == 0.0) && r > 0.0
    ensures q >= r <==> Attains(actred, prered, r)
  {
    if prered > 0.0 {
      QuotientAtLeast(actred, prered, q, r);
    }
  }

  lemma QuotientExceeds(actred: real, prered: real, q: real, r: real)
    requires prered >= 0.0 && (prered > 0.0 ==> q == actred / prered) && (prered == 0.0 ==> q == 0.0) && r > 0.0
    ensures q > r <==> Exceeds(actred, prered, r)
  {
    if prered > 0.0 {
      QuotientAtLeast(actred, prered, q, r);
    }
  }

  lemma QuotientAtLeast(a: real, p: real, q: real, r: real)
    requires p > 0.0 && q == a / p
    ensures q >= r <==> a >= r * p
    ensures q <= r <==> a <= r * p
  {
    assert q * p == a;
    if q >= r {
      NonnegProduct(q - r, p, (q - r) * p);
    }
    if q <= r {
      NonnegProduct(r - q, p, (r - q) * p);
    }
    if q < r {
      PositiveProduct(r - q, p, (r - q) * p);
    }
    if q > r {
      PositiveProduct(q - r, p, (q - r) * p);
    }
  }

  lemma QuotientAgrees(actred: real, prered: real, q: real)
    requires prered >= 0.0 && (prered > 0.0 ==> q == actred / prered) && (prered == 0.0 ==> q == 0.0)
    ensures Abs(q - 1.0) <= 0.1 <==> Agrees(actred, prered)
  {
    if prered > 0.0 {
      QuotientAtLeast(actred, prered, q, 0.9);
      QuotientAtLeast(actred, prered, q, 1.1);
    }
  }

  /** 1 - (a/b)^2 in terms of the squares. */
  lemma ReducesBy(a: real, b: real, v: real, aa: real, bb: real)
    requires b > 0.0 && v == 1.0 - (a / b) * (a / b) && aa == a * a && bb == b * b
    ensures Reduces(v, bb, aa)
  {
    var q := a / b;
    assert q * b == a;
    assert (q * q) * bb == aa by {
      assert (q * q) * (b * b) == (q * b) * (q * b);
    }
  }
}
