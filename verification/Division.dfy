/** Products and quotients of natural numbers. */
module Division {
  lemma DivisionBound(a: nat, d: nat, n: nat)
    requires d > 0
    ensures a / d >= n <==> a >= n * d
  {
    var q := a / d;
    assert a == q * d + a % d;
    if q >= n { assert q * d >= n * d by { MulMonotone(n, q, d); } }
    if q < n { MulMonotone(q + 1, n, d); assert (q + 1) * d == q * d + d; }
  }

  lemma MulMonotone(a: nat, b: nat, d: nat)
    requires a <= b
    ensures a * d <= b * d
  {
    assert (b - a) * d >= 0;
    assert b * d == a * d + (b - a) * d;
  }
}
