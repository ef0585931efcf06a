/** Facts about rounding down, for the integer arithmetic of prices, fees and collateral. */
module Division {

  lemma MulOrder(x: int, y: int, d: int)
    requires d > 0
    ensures x <= y <==> x * d <= y * d
    ensures x < y <==> x * d < y * d
  {
    assert (y - x) * d == y * d - x * d;
    if x < y {
      assert (y - x) * d >= d by { Scale(y - x, d); }
    } else if x > y {
      assert (x - y) * d >= d by { Scale(x - y, d); }
      assert (y - x) * d == -((x - y) * d);
    }
  }

  lemma Distribute(a: int, b: int, c: int)
    ensures a * (b + c) == a * b + a * c
    ensures a * (b - c) == a * b - a * c
  {
  }

  lemma Associate(a: int, b: int, c: int)
    ensures a * (b * c) == (a * b) * c
  {
  }

  lemma Scale(k: int, d: int)
    requires k >= 1 && d > 0
    ensures k * d >= d
  {
    assert k * d == (k - 1) * d + d;
    assert (k - 1) * d >= 0;
  }

  /** The quotient is the largest q with q * d <= a. */
  lemma Floor(a: int, d: int)
    requires d > 0
    ensures (a / d) * d <= a < (a / d) * d + d
    ensures (a / d + 1) * d == (a / d) * d + d
  {
    assert a == (a / d) * d + a % d;
  }

  lemma AtLeast(a: int, d: int, q: int)
    requires d > 0
    ensures q <= a / d <==> q * d <= a
  {
    Floor(a, d);
    MulOrder(q, a / d, d);
    MulOrder(a / d + 1, q, d);
  }

  lemma Below(a: int, d: int, q: int)
    requires d > 0
    ensures a / d < q <==> a < q * d
  {
    AtLeast(a, d, q);
  }

  lemma Monotone(a: int, b: int, d: int)
    requires d > 0 && a <= b
    ensures a / d <= b / d
  {
    Floor(a, d);
    AtLeast(b, d, a / d);
  }

  lemma Exact(q: int, d: int)
    requires d > 0
    ensures q * d / d == q
  {
    AtLeast(q * d, d, q);
    Below(q * d, d, q + 1);
    assert (q + 1) * d == q * d + d;
  }

  lemma NonNegative(a: int, d: int)
    requires d > 0 && a >= 0
    ensures a / d >= 0
  {
    AtLeast(a, d, 0);
  }

  /** a * b / d, rounded down. */
  function MulDiv(a: nat, b: nat, d: nat): (r: nat)
    requires d > 0
    ensures r * d <= a * b < r * d + d
  {
    Floor(a * b, d);
    NonNegative(a * b, d);
    a * b / d
  }
}
