/** Remainders, for counters that wrap. */
module Modulo {

  lemma {:induction false} Distribute(a: int, b: int, n: int)
    ensures (a - b) * n == a * n - b * n
    ensures (a + b) * n == a * n + b * n
  {
  }

  lemma {:induction false} AtLeastOnce(x: int, n: int)
    requires x >= 1 && n >= 0
    ensures x * n >= n
  {
    Distribute(x, 1, n);
    Nonnegative(x - 1, n);
  }

  lemma {:induction false} Nonnegative(x: int, n: int)
    requires x >= 0 && n >= 0
    ensures x * n >= 0
  {
  }

  /** `q * n + r` has remainder `r`. */
  lemma {:induction false} Unique(a: nat, q: int, r: nat, n: nat)
    requires n > 0 && r < n && a == q * n + r
    ensures a % n == r
  {
    var q', r' := a / n, a % n;
    assert a == q' * n + r';
    Distribute(q, q', n);
    Distribute(q', q, n);
    if q > q' { AtLeastOnce(q - q', n); }
    if q < q' { AtLeastOnce(q' - q, n); }
  }

  lemma {:induction false} Increment(a: nat, n: nat)
    requires n > 0
    ensures (a + 1) % n == if a % n + 1 >= n then 0 else a % n + 1
  {
    var q, r := a / n, a % n;
    assert a == q * n + r;
    if r + 1 < n {
      Unique(a + 1, q, r + 1, n);
    } else {
      Distribute(q, 1, n);
      Unique(a + 1, q + 1, 0, n);
    }
  }

  lemma {:induction false} Successor(a: nat, w: nat)
    requires a < w
    ensures (a + 1) % w == if a + 1 == w then 0 else a + 1
  {
    if a + 1 == w { Unique(a + 1, 1, 0, w); } else { Unique(a + 1, 0, a + 1, w); }
  }

  /** A counter kept as a remainder counts on. */
  lemma {:induction false} CountsOn(a: nat, w: nat)
    requires w > 0
    ensures (a % w + 1) % w == (a + 1) % w
  {
    Increment(a, w);
    Successor(a % w, w);
  }

  lemma {:induction false} Decrement(a: nat, w: nat)
    requires 0 < a < w
    ensures (a + w - 1) % w == a - 1
  {
    Unique(a + w - 1, 1, a - 1, w);
  }

  lemma {:induction false} Shift(a: nat, n: nat)
    requires n > 0
    ensures (a + n) % n == a % n
  {
    var q, r := a / n, a % n;
    assert a == q * n + r;
    Distribute(q, 1, n);
    Unique(a + n, q + 1, r, n);
  }

  /** Two numbers less than `n` apart have different remainders. */
  lemma {:induction false} Distinct(a: nat, b: nat, n: nat)
    requires n > 0 && a < b < a + n
    ensures a % n != b % n
  {
    var q, q' := a / n, b / n;
    assert a == q * n + a % n && b == q' * n + b % n;
    Distribute(q', q, n);
    if q' > q { AtLeastOnce(q' - q, n); }
    if q' < q { AtLeastOnce(q - q', n); Distribute(q, q', n); }
  }

  lemma {:induction false} Associate(x: int, y: int, z: int)
    ensures x * (y * z) == (x * y) * z
  {
  }

  /** A counter that wraps at a multiple of `n` still tells the remainder by `n`. */
  lemma {:induction false} Nested(a: nat, w: nat, n: nat)
    requires n > 0 && w > 0 && w % n == 0
    ensures (a % w) % n == a % n
  {
    var m, r := w / n, a % w;
    assert w == m * n;
    assert a == (a / w) * w + r;
    assert r == (r / n) * n + r % n;
    Associate(a / w, m, n);
    Distribute((a / w) * m, r / n, n);
    Unique(a, (a / w) * m + r / n, r % n, n);
  }
}
