/** Facts about rounding division and products that the solver does not find by itself. */
module Division {

  lemma DivBounds(a: nat, b: nat)
    requires b > 0
    ensures b * (a / b) <= a < b * (a / b) + b
  {
  }

  lemma Quotient(a: nat, b: nat) returns (q: nat)
    requires b > 0
    ensures q == a / b && b * q <= a < b * q + b
  {
    q := a / b;
    DivBounds(a, b);
  }

  lemma MulMonotone(k: nat, a: nat, b: nat)
    requires a <= b
    ensures k * a <= k * b
  {
  }

  lemma MulAssociative(a: nat, b: nat, c: nat)
    ensures a * (b * c) == (a * b) * c
  {
  }

  lemma MulDistributes(a: nat, b: nat, c: nat)
    ensures a * (b + c) == a * b + a * c
  {
  }

  lemma MulCancel(k: nat, a: nat, b: nat)
    requires k > 0 && k * a >= k * b
    ensures a >= b
  {
    if a < b {
      MulMonotone(k, a + 1, b);
    }
  }

  lemma QuotientUnique(a: nat, b: nat, q: nat, r: nat)
    requires b > 0 && b * q <= a < b * q + b && b * r <= a < b * r + b
    ensures q == r
  {
    if q < r {
      MulMonotone(b, q + 1, r);
    } else if r < q {
      MulMonotone(b, r + 1, q);
    }
  }

  lemma DivUnique(a: nat, b: nat, q: nat)
    requires b > 0 && b * q <= a < b * q + b
    ensures a / b == q
  {
    DivBounds(a, b);
    QuotientUnique(a, b, a / b, q);
  }

  lemma QuotientRange(a: nat, b: nat, q: nat, low: nat, high: nat)
    requires b * q <= a < b * q + b && b * low <= a < b * high
    ensures low <= q < high
  {
    if q < low {
      MulMonotone(b, q + 1, low);
    } else if q >= high {
      MulMonotone(b, high, q);
    }
  }

  lemma NestedBounds(a: nat, b: nat, c: nat, q: nat, r: nat)
    requires b * q <= a < b * q + b && c * r <= q < c * r + c
    ensures (b * c) * r <= a < (b * c) * r + b * c
  {
    MulAssociative(b, c, r);
    MulMonotone(b, c * r, q);
    MulMonotone(b, q + 1, c * r + c);
    MulDistributes(b, c * r, c);
    MulDistributes(b, q, 1);
  }

  lemma DivNested(a: nat, b: nat, c: nat)
    requires b > 0 && c > 0
    ensures b * c > 0 && a / b / c == a / (b * c)
  {
    MulMonotone(b, 1, c);
    DivBounds(a, b);
    DivBounds(a / b, c);
    NestedBounds(a, b, c, a / b, a / b / c);
    DivUnique(a, b * c, a / b / c);
  }

  lemma CancelBounds(a: nat, b: nat, c: nat, q: nat)
    requires c > 0 && b * q <= a < b * q + b
    ensures (b * c) * q <= a * c < (b * c) * q + b * c
  {
    MulMonotone(c, b * q, a);
    MulMonotone(c, a + 1, b * q + b);
    MulDistributes(c, b * q, b);
    MulAssociative(c, b, q);
  }

  lemma DivCancel(a: nat, b: nat, c: nat)
    requires b > 0 && c > 0
    ensures b * c > 0 && (a * c) / (b * c) == a / b
  {
    MulMonotone(b, 1, c);
    DivBounds(a, b);
    CancelBounds(a, b, c, a / b);
    DivUnique(a * c, b * c, a / b);
  }

  /** A quotient is at least `q` exactly when the dividend covers `q` divisors. */
  lemma DivAtLeast(a: nat, b: nat, q: nat)
    requires b > 0
    ensures a / b >= q <==> a >= b * q
  {
    DivBounds(a, b);
    if a / b >= q {
      MulMonotone(b, q, a / b);
    } else {
      MulMonotone(b, a / b + 1, q);
    }
  }

  lemma DivSum(a: nat, b: nat, c: nat)
    requires c > 0
    ensures a / c + b / c <= (a + b) / c <= a / c + b / c + 1
  {
    DivBounds(a, c);
    DivBounds(b, c);
    MulDistributes(c, a / c, b / c);
    MulDistributes(c, a / c + b / c, 2);
    DivAtLeast(a + b, c, a / c + b / c);
    DivAtLeast(a + b, c, a / c + b / c + 2);
  }
}
