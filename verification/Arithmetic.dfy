/** Division and remainder by a number that is not a constant. */
module Arithmetic {

  lemma Multiples(d: int, r: int)
    requires 0 < r
    ensures d >= 1 ==> d * r >= r
    ensures d <= -1 ==> d * r <= -r
  {
  }

  lemma DivideUniquely(a: int, r: int, q: int, x: int)
    requires 0 < r && 0 <= x < r && a == q * r + x
    ensures a / r == q && a % r == x
  {
    var d := a / r - q;
    assert d * r == (a / r) * r - q * r;
    assert d * r == x - a % r;
    Multiples(d, r);
  }

  lemma MultipleOf(m: int, d: int)
    requires 0 < d
    ensures (m * d) % d == 0
  {
    DivideUniquely(m * d, d, m, 0);
  }

  /** A common factor comes out of the remainder. */
  lemma ScaledRemainder(m: int, k: int, b: int)
    requires 0 < k && 0 < b
    ensures 0 < k * b && (m * b) % (k * b) == (m % k) * b
  {
    Multiples(k, b);
    var q, x := m / k, m % k;
    assert m * b == q * (k * b) + x * b by {
      assert m == q * k + x;
    }
    assert 0 <= x * b < k * b by {
      assert (k - x) * b >= b by {
        Multiples(k - x, b);
      }
      assert (k - x) * b == k * b - x * b;
    }
    DivideUniquely(m * b, k * b, q, x * b);
  }

  /** The remainder by an even number, from the halves. */
  lemma HalvedRemainder(x: int, p: int)
    requires 0 < p
    ensures x % (2 * p) == 2 * ((x / 2) % p) + x % 2
  {
    var h := x / 2;
    assert x == (h / p) * (2 * p) + (2 * (h % p) + x % 2) by {
      assert h == (h / p) * p + h % p;
    }
    DivideUniquely(x, 2 * p, h / p, 2 * (h % p) + x % 2);
  }

  lemma Recombine(q: int, m: int, k: int, y: int, x: int)
    ensures (q * k + y) * m + x == q * (m * k) + (y * m + x)
  {
    assert (q * k) * m == q * (m * k);
  }

  lemma PairBound(m: int, k: int, y: int, x: int)
    requires 0 <= y < k && 0 <= x < m
    ensures 0 <= y * m + x < m * k
  {
    Multiples(k - y, m);
    assert (k - y) * m == m * k - y * m;
    if y > 0 {
      Multiples(y, m);
    }
  }

  /** Dividing twice is dividing by the product. */
  lemma DivideTwice(a: nat, m: int, k: int)
    requires 0 < m && 0 < k
    ensures 0 < m * k && (a / m) / k == a / (m * k)
  {
    Multiples(m, k);
    var q, y, x := (a / m) / k, (a / m) % k, a % m;
    Recombine(q, m, k, y, x);
    PairBound(m, k, y, x);
    DivideUniquely(a, m * k, q, y * m + x);
  }
}
