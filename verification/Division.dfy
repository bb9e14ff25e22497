/** Quotients and remainders are determined by what they add up to. */
module Division {

  lemma Apart(q: nat, q': nat, k: nat)
    requires q < q'
    ensures q * k + k <= q' * k
  {
    var x := q' - q - 1;
    assert q' == q + 1 + x && (q + 1 + x) * k == q * k + k + x * k;
  }

  lemma DivisionUnique(k: nat, q: nat, r: nat, q': nat, r': nat)
    requires q * k + r == q' * k + r' && r < k && r' < k
    ensures q == q' && r == r'
  {
    if q < q' {
      Apart(q, q', k);
    } else if q' < q {
      Apart(q', q, k);
    }
  }

  lemma Divide(n: nat, k: nat, q: nat, r: nat)
    requires n == q * k + r && r < k
    ensures n / k == q && n % k == r
  {
    DivisionUnique(k, q, r, n / k, n % k);
  }

  lemma Succ(n: nat, k: nat)
    requires 0 < k
    ensures (n + 1) % k == if n % k + 1 == k then 0 else n % k + 1
    ensures (n + 1) / k == if n % k + 1 == k then n / k + 1 else n / k
  {
    var q, r := n / k, n % k;
    assert n == q * k + r;
    if r + 1 == k {
      assert n + 1 == (q + 1) * k + 0;
      Divide(n + 1, k, q + 1, 0);
    } else {
      Divide(n + 1, k, q, r + 1);
    }
  }

  /** A longer distance takes at least as many whole rounds. */
  lemma QuotientGrows(m: nat, n: nat, k: nat)
    requires m <= n && 0 < k
    ensures m / k <= n / k
    ensures m / k == n / k ==> m % k <= n % k
  {
    var q, q' := m / k, n / k;
    assert m == q * k + m % k && n == q' * k + n % k;
    if q' < q {
      Apart(q', q, k);
    }
  }

  lemma Monotone(a: nat, b: nat, d: nat)
    requires a <= b
    ensures a * d <= b * d
  {
    assert b == a + (b - a) && (a + (b - a)) * d == a * d + (b - a) * d;
  }
}
