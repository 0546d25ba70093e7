/**
 * The JavaScript number operations the backend relies on, stated over exact
 * integers and rationals: `Math.round`, the signed 32-bit conversion applied
 * by the bitwise operators, the truncating remainder `%`, `Math.abs` and
 * `Math.max`.
 */
module JsMath {

  /** `Math.max` of two integers: the larger one. */
  function Max(a: int, b: int): (m: int)
    ensures m >= a && m >= b && (m == a || m == b)
  {
    if a >= b then a else b
  }

  /** `Math.round`: the nearest integer, halves rounded up (towards +∞). */
  function Round(x: real): (n: int)
    ensures n as real <= x + 0.5 < n as real + 1.0
  {
    (x + 0.5).Floor
  }

  lemma RoundMonotone(x: real, y: real)
    requires x <= y
    ensures Round(x) <= Round(y)
  {
  }

  lemma RoundOfInt(n: int)
    ensures Round(n as real) == n
  {
  }

  const TwoTo32: int := 0x1_0000_0000
  const TwoTo31: int := 0x8000_0000

  predicate IsInt32(x: int) {
    -TwoTo31 <= x < TwoTo31
  }

  /** ECMAScript ToInt32 on an integer: the representative of `x` modulo 2^32
      in [-2^31, 2^31). */
  function ToInt32(x: int): (r: int)
    ensures IsInt32(r)
    ensures (x - r) % TwoTo32 == 0
  {
    var m := x % TwoTo32;
    if m >= TwoTo31 then m - TwoTo32 else m
  }

  /** Congruent integers convert to the same 32-bit value. */
  lemma ToInt32Congruent(x: int, y: int)
    requires (x - y) % TwoTo32 == 0
    ensures ToInt32(x) == ToInt32(y)
  {
    var q := (x - y) / TwoTo32;
    assert x - y == TwoTo32 * q;
    assert x == y + TwoTo32 * q;
    assert x % TwoTo32 == y % TwoTo32 by {
      ModShift(y, q);
    }
  }

  lemma ModShift(y: int, q: int)
    ensures (y + TwoTo32 * q) % TwoTo32 == y % TwoTo32
  {
  }

  /** A value already in range is left alone. */
  lemma ToInt32OfInt32(x: int)
    requires IsInt32(x)
    ensures ToInt32(x) == x
  {
  }

  /** Multiplying a multiple of 2^32 keeps it a multiple. */
  lemma ScaleMultiple(d: int, k: int)
    requires d % TwoTo32 == 0
    ensures (k * d) % TwoTo32 == 0
  {
    var q := d / TwoTo32;
    assert d == TwoTo32 * q;
    assert k * d == TwoTo32 * (k * q);
  }

  /** The quotient of division truncated towards zero (`Math.trunc(a / b)`). */
  function Quot(a: int, b: int): (q: int)
    requires b > 0
  {
    if a >= 0 then a / b else -((-a) / b)
  }

  /** The JavaScript `%`: the remainder of truncating division, with the sign of the dividend. */
  function Rem(a: int, b: int): (r: int)
    requires b > 0
    ensures a >= 0 ==> 0 <= r < b
    ensures a < 0 ==> -b < r <= 0
    ensures a == b * Quot(a, b) + r
  {
    if a >= 0 then a % b
    else
      assert -a == b * ((-a) / b) + (-a) % b;
      -((-a) % b)
  }

  function Abs(x: int): (r: nat)
    ensures r == x || r == -x
  {
    if x < 0 then -x else x
  }
}
