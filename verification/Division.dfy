/** Division facts that the solver is slow to find by itself. */
module Division {

  lemma ProductGrows(x: nat, y: nat, d: nat)
    requires x <= y
    ensures x * d <= y * d
  {
    assert y * d == x * d + (y - x) * d;
  }

  lemma {:induction false} QuotientUnique(x: nat, d: nat, q: nat, r: nat)
    requires d > 0 && x == q * d + r && r < d
    ensures x / d == q && x % d == r
  {
    var p, s := x / d, x % d;
    assert x == p * d + s;
    if p < q {
      ProductGrows(p + 1, q, d);
    } else if p > q {
      ProductGrows(q + 1, p, d);
    }
  }

  lemma QuotientBelow(n: nat, d: nat)
    requires d > 0
    ensures (n / d) * d <= n
  {
    assert n == (n / d) * d + n % d;
  }

  lemma {:induction false} RemainderRemoved(y: nat, a: nat)
    requires a > 0
    ensures y % a <= y && (y - y % a) % a == 0 && y % a < a
  {
    var q := y / a;
    assert y == q * a + y % a;
    assert q * a >= 0;
    QuotientUnique(q * a, a, q, 0);
  }

  lemma {:induction false} DoubledRemainder(x: nat, b: nat)
    requires b > 0
    ensures x % (2 * b) == 2 * ((x / 2) % b) + x % 2
  {
    var q, r := x / 2 / b, x / 2 % b;
    assert x / 2 == q * b + r;
    assert x == q * (2 * b) + (2 * r + x % 2);
    QuotientUnique(x, 2 * b, q, 2 * r + x % 2);
  }

  lemma {:induction false} RemainderIsSelf(p: nat, a: nat)
    requires a > 0
    ensures p % a == p <==> p < a
    ensures p < a ==> (p % a == 0 <==> p == 0)
  {
    if p < a {
      QuotientUnique(p, a, 0, p);
    }
  }

  /** Multiples of `y` keep their distance. */
  lemma MultiplesApart(m: nat, c: nat, y: nat)
    requires y > 0 && m % y == 0 && m < c * y
    ensures m + y <= c * y
  {
    var q := m / y;
    assert m == q * y;
    if q >= c {
      ProductGrows(c, q, y);
    }
    ProductGrows(q + 1, c, y);
    assert (q + 1) * y == m + y;
  }
}
