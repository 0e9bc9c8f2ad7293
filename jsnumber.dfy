/** The JavaScript number operations the colour code relies on, in exact
    arithmetic: `Math.round` and the remainder operator `%`. */
module JsNumber {

  /** `Math.round(x)`: the integer nearest to x, a half rounding up. */
  function Round(x: real): (r: int)
    ensures r as real - 0.5 <= x < r as real + 0.5
  {
    (x + 0.5).Floor
  }

  /** Only one integer lies within half a unit of x in that way. */
  lemma RoundUnique(x: real, q: int)
    requires q as real - 0.5 <= x < q as real + 0.5
    ensures Round(x) == q
  {
  }

  /** `Math.round(n / d)` for an integer ratio, computed on integers. */
  function RoundRatio(n: int, d: int): (r: int)
    requires d > 0
    ensures 2 * d * r <= 2 * n + d < 2 * d * r + 2 * d
  {
    (2 * n + d) / (2 * d)
  }

  /** With the denominator 10000 of a product of two percentages, the
      integer computation is `Math.round` of the exact quotient. */
  lemma RoundRatioIsRound(n: int)
    ensures RoundRatio(n, 10000) == Round(n as real / 10000.0)
  {
    var q := RoundRatio(n, 10000);
    assert q as real - 0.5 <= n as real / 10000.0 < q as real + 0.5;
    RoundUnique(n as real / 10000.0, q);
  }

  /** Truncation toward zero, as the remainder operator uses it. */
  function Trunc(x: real): int {
    if x >= 0.0 then x.Floor else -((-x).Floor)
  }

  /** `x % m` on numbers: the remainder of the quotient truncated toward zero. */
  function Remainder(x: real, m: real): real
    requires m > 0.0
  {
    x - m * Trunc(x / m) as real
  }

  /** For a dividend in [0, 720) the remainder by 360 subtracts 360 at most once. */
  lemma RemainderBelowTwice(x: real)
    requires 0.0 <= x < 720.0
    ensures Remainder(x, 360.0) == if x < 360.0 then x else x - 360.0
  {
    if x < 360.0 {
      assert Trunc(x / 360.0) == 0;
    } else {
      assert Trunc(x / 360.0) == 1;
    }
  }
}
