/** Quotients of whole numbers by a positive one, rounded down. */
module Division {

  lemma MulAtLeast(n: int, b: int)
    requires n >= 1 && b > 0
    ensures n * b >= b
  {
  }

  lemma QuotientIs(d: int, b: int, k: int)
    requires b > 0 && k * b <= d < k * b + b
    ensures d / b == k
  {
    var q := d / b;
    assert q * b <= d < q * b + b;
    if q < k { assert (k - q) * b >= b by { MulAtLeast(k - q, b); } }
    if k < q { assert (q - k) * b >= b by { MulAtLeast(q - k, b); } }
  }
}
