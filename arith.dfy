/**
 * Facts about integer multiplication and division that the rounding,
 * countdown, rotation and day-count proofs rely on.
 */
module Arith {

  /** Multiplying by a natural number keeps an inequality. */
  lemma MulLe(a: int, b: int, k: nat)
    requires a <= b
    ensures a * k <= b * k
  {
    var diff := b - a;
    assert b * k == a * k + diff * k;
  }

  /** The quotient is the one `a` whose multiple brackets `n`. */
  lemma DivUnique(n: int, d: int, a: int)
    requires d > 0 && a * d <= n < (a + 1) * d
    ensures n / d == a
  {
    var q := n / d;
    assert q * d <= n < q * d + d;
    if q < a {
      MulLe(q + 1, a, d);
      assert false;
    } else if q > a {
      MulLe(a + 1, q, d);
      assert false;
    }
  }

  /** The remainder is the one `r` left over by a multiple of `d` below `n`. */
  lemma ModUnique(n: int, d: int, q: int, r: int)
    requires d > 0 && n == q * d + r && 0 <= r < d
    ensures n / d == q && n % d == r
  {
    DivUnique(n, d, q);
  }

  /** One step of a rotation `(x + 1) % d` moves to the next remainder, wrapping to 0 after the last. */
  lemma ModSucc(x: nat, d: nat)
    requires d > 0
    ensures (x + 1) % d == (if x % d < d - 1 then x % d + 1 else 0)
  {
    var q := x / d;
    var r := x % d;
    assert x == q * d + r;
    if r < d - 1 {
      ModUnique(x + 1, d, q, r + 1);
    } else {
      ModUnique(x + 1, d, q + 1, 0);
    }
  }
}
