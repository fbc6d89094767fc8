/**
 * The JavaScript `Math` operations the life calendar uses, on exact numbers:
 * division is real division and rounding is stated on the reals, so no
 * floating-point error is modelled.
 */
module JsMath {

  /** `Math.round`: the nearest integer, a half rounded towards +infinity. */
  function Round(x: real): (r: int)
    ensures r as real <= x + 0.5 < r as real + 1.0
  {
    (x + 0.5).Floor
  }

  /** `Math.ceil(a / b)` for an integer `a` and a positive integer `b`. */
  function CeilDiv(a: int, b: int): (q: int)
    requires b > 0
    ensures b * q >= a
    ensures b * (q - 1) < a
  {
    var q := (a + b - 1) / b;
    assert a + b - 1 == b * q + (a + b - 1) % b;
    q
  }

  /** `Math.min` on integers. */
  function Min(a: int, b: int): (m: int)
    ensures m <= a && m <= b
    ensures m == a || m == b
  {
    if a <= b then a else b
  }

  /** `Math.max` on integers. */
  function Max(a: int, b: int): (m: int)
    ensures m >= a && m >= b
    ensures m == a || m == b
  {
    if a >= b then a else b
  }

  /**
   * `Math.ceil(Math.sqrt(num / den))`, computed exactly: the least `k >= 0`
   * with `den * k * k >= num`.
   */
  function CeilSqrt(num: nat, den: nat): (k: nat)
    requires den > 0
    ensures den * k * k >= num
    ensures k == 0 || den * (k - 1) * (k - 1) < num
  {
    CeilSqrtFrom(num, den, 0)
  }

  /** The least `k' >= k` with `den * k' * k' >= num`, given that every smaller candidate fails. */
  function CeilSqrtFrom(num: nat, den: nat, k: nat): (r: nat)
    requires den > 0
    requires k == 0 || den * (k - 1) * (k - 1) < num
    ensures r >= k
    ensures den * r * r >= num
    ensures r == 0 || den * (r - 1) * (r - 1) < num
    decreases num - k
  {
    if den * k * k >= num then k
    else
      SquareAtLeast(den, k);
      CeilSqrtFrom(num, den, k + 1)
  }

  lemma SquareAtLeast(den: nat, k: nat)
    requires den > 0
    ensures den * k * k >= k
  {
    if k > 0 {
      calc {
        den * k * k;
      ==
        (den * k) * k;
      >= { assert den * k >= 1; }
        k;
      }
    }
  }

  /** Squaring preserves order on naturals. */
  lemma SquareMonotone(a: nat, b: nat)
    requires a <= b
    ensures a * a <= b * b
  {
    assert a * a <= a * b <= b * b;
  }

  /** The least square bound is unique. */
  lemma CeilSqrtIs(num: nat, den: nat, k: nat)
    requires den > 0
    requires den * k * k >= num
    requires k == 0 || den * (k - 1) * (k - 1) < num
    ensures CeilSqrt(num, den) == k
  {
    var r := CeilSqrt(num, den);
    if r > k { ScaledSquareMonotone(den, k, r - 1); }
    if r < k { ScaledSquareMonotone(den, r, k - 1); }
  }

  /** Squaring and scaling by a natural preserve order. */
  lemma ScaledSquareMonotone(den: nat, a: nat, b: nat)
    requires a <= b
    ensures den * a * a <= den * b * b
  {
    SquareMonotone(a, b);
    assert den * a * a == den * (a * a) && den * b * b == den * (b * b);
    assert den * (a * a) <= den * (b * b);
  }

  // Real quotients against a bound, each reduced to the multiplication it stands for.

  lemma QuotientBelow(x: real, n: real, bound: real)
    requires n > 0.0 && x < bound * n
    ensures x / n < bound
  {
    var q := x / n;
    assert q * n == x;
  }

  lemma QuotientAtMost(x: real, n: real, bound: real)
    requires n > 0.0 && x <= bound * n
    ensures x / n <= bound
  {
    var q := x / n;
    assert q * n == x;
  }

  lemma QuotientAtLeast(x: real, n: real, bound: real)
    requires n > 0.0 && x >= bound * n
    ensures x / n >= bound
  {
    var q := x / n;
    assert q * n == x;
  }

  lemma QuotientPositive(x: real, n: real)
    requires n > 0.0 && x > 0.0
    ensures x / n > 0.0
  {
    var q := x / n;
    assert q * n == x;
  }
}
