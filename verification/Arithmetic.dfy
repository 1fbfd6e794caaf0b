/** Products, quotients and remainders. */
module Arithmetic {

  lemma MulNonNegative(c: nat, x: nat)
    ensures c * x >= 0
  {
  }

  lemma MulAssoc(a: int, b: int, c: int)
    ensures a * b * c == a * (b * c)
  {
  }

  lemma MulDistribute(c: int, x: int, y: int)
    ensures c * (x + y) == c * x + c * y
  {
  }

  lemma MulAtLeast(d: nat, n: nat)
    requires n >= 1
    ensures d * n >= d
  {
    MulDistribute(d, 1, n - 1);
    MulNonNegative(d, n - 1);
  }

  lemma MulMonotone(c: nat, d: nat, x: nat)
    requires x >= d
    ensures c * x >= c * d
  {
    MulDistribute(c, d, x - d);
    MulNonNegative(c, x - d);
  }

  lemma QuotientIs(a: nat, d: nat, q: nat, r: nat)
    requires a == d * q + r && r < d
    ensures a / d == q
  {
    var q' := a / d;
    assert a == d * q' + a % d;
    if q > q' {
      MulMonotone(d, q' + 1, q);
      MulDistribute(d, q', 1);
    } else if q < q' {
      MulMonotone(d, q + 1, q');
      MulDistribute(d, q, 1);
    }
  }

  /** A multiple of the divisor goes through. */
  lemma DivideSum(c: nat, x: nat, r: nat)
    requires c > 0
    ensures c * x >= 0 && (c * x + r) / c == x + r / c
  {
    MulNonNegative(c, x);
    MulDistribute(c, x, r / c);
    assert r == c * (r / c) + r % c;
    QuotientIs(c * x + r, c, x + r / c, r % c);
  }

  lemma SmallQuotient(r: nat, c: nat, d: nat)
    requires c > 0 && r < c * d
    ensures r / c < d
  {
    assert r == c * (r / c) + r % c;
    if r / c >= d {
      MulMonotone(c, d, r / c);
    }
  }

  lemma DivideTwice(a: nat, c: nat, d: nat)
    requires c > 0 && d > 0
    ensures c * d > 0 && a / c / d == a / (c * d)
  {
    MulAtLeast(c, d);
    var m := c * d;
    var q, r := a / m, a % m;
    assert a == m * q + r;
    MulAssoc(c, d, q);
    MulNonNegative(d, q);
    DivideSum(c, d * q, r);
    SmallQuotient(r, c, d);
    QuotientIs(a / c, d, q, r / c);
  }

  /** A multiple of `size` strictly between `-size` and `size` is zero. */
  lemma SmallMultiple(size: int, k: int)
    requires size > 0 && -size < size * k < size
    ensures k == 0
  {
    if k >= 1 {
      assert size * k == size + size * (k - 1);
      MulNonNegative(size, k - 1);
    } else if k <= -1 {
      assert size * k == -size - size * (-1 - k);
      MulNonNegative(size, -1 - k);
    }
  }

  lemma RemainderUnique(t: nat, size: nat, a: int, r: nat)
    requires size > 0 && t == size * a + r && r < size
    ensures t % size == r
  {
    var q := t / size;
    assert t == size * q + t % size;
    assert size * (a - q) == size * a - size * q == t % size - r;
    SmallMultiple(size, a - q);
  }

  lemma RemaindersDiffer(t: nat, u: nat, size: nat)
    requires t < u < t + size
    ensures t % size != u % size
  {
    var a, b := t / size, u / size;
    assert t == size * a + t % size;
    assert u == size * b + u % size;
    assert size * (b - a) == size * b - size * a;
    if t % size == u % size {
      SmallMultiple(size, b - a);
    }
  }
}
