/** Facts about remainders by a variable modulus. */
module Modulo {
  lemma Unique(a: int, q: int, b: int, n: int)
    requires 0 <= b < n && a == q * n + b
    ensures a % n == b && a / n == q
  {
    var q', b' := a / n, a % n;
    assert q' * n + b' == a;
    assert (q' - q) * n == b - b' && (q - q') * n == b' - b;
    if q < q' { AtLeast(q' - q, n); }
    if q' < q { AtLeast(q - q', n); }
  }

  lemma AtLeast(k: int, n: int)
    requires 1 <= k && 0 < n
    ensures n <= k * n
  {
    assert (k - 1) * n >= 0;
  }

  lemma Plus(i: int, n: int)
    requires 0 < n
    ensures (i + n) % n == i % n
  {
    assert i == (i / n) * n + i % n;
    assert i + n == (i / n + 1) * n + i % n;
    Unique(i + n, i / n + 1, i % n, n);
  }

  /** Dividing by 256 and then by `n` is dividing by `256 * n`. */
  lemma DivideTwice(a: int, n: int)
    requires 0 < n
    ensures a / 256 / n == a / (256 * n)
  {
    var x := a / 256;
    var q, r := x / n, x % n;
    Factor(q, n, x - r);
    Unique(a, q, 256 * r + a % 256, 256 * n);
  }

  lemma Factor(q: int, n: int, p: int)
    requires p == q * n
    ensures 256 * p == q * (256 * n)
  {
  }
}
