/**
 * Brightness and torch strength arithmetic shared by the activity, the widget
 * and the foreground service: `coerceIn(0.0f, 1.0f)`, Float `toInt()` and
 * `(brightness * maxStrength).toInt().coerceAtLeast(1)`. Brightness is a real
 * number; IEEE rounding is not modelled.
 */
module Brightness {

  /** Distance between two reals */
  function Dist(x: real, y: real): real
  {
    if x >= y then x - y else y - x
  }

  /** `b.coerceIn(0.0f, 1.0f)`: the point of [0, 1] nearest to `b`. */
  function Clamp(b: real): (r: real)
    ensures 0.0 <= r <= 1.0
    ensures 0.0 <= b <= 1.0 ==> r == b
    ensures forall y :: 0.0 <= y <= 1.0 ==> Dist(r, b) <= Dist(y, b)
  {
    if b < 0.0 then 0.0 else if b > 1.0 then 1.0 else b
  }

  lemma ClampIdempotent(b: real)
    ensures Clamp(Clamp(b)) == Clamp(b)
  {
  }

  /** Float `toInt()`: drops the fractional part, rounding toward zero. */
  function TruncToInt(x: real): (n: int)
    ensures 0.0 <= x ==> n as real <= x < n as real + 1.0
    ensures x < 0.0 ==> n as real - 1.0 < x <= n as real
  {
    if x >= 0.0 then x.Floor else -((-x).Floor)
  }

  /** `(b * max).toInt().coerceAtLeast(1)`: the torch strength level requested for brightness `b`. */
  function StrengthLevel(b: real, max: int): (level: int)
    ensures level >= 1
    ensures 1.0 <= b * max as real ==> level as real <= b * max as real < level as real + 1.0
    ensures b * max as real < 2.0 ==> level == 1
  {
    var t := TruncToInt(b * max as real);
    if t < 1 then 1 else t
  }

  /** Scaling by a non-negative factor keeps the order. */
  lemma ScaleMonotone(x: real, y: real, m: real)
    requires x <= y && 0.0 <= m
    ensures x * m <= y * m
  {
    var dx := y - x;
    assert y * m == x * m + dx * m;
  }

  /** TruncToInt never decreases when its argument grows. */
  lemma TruncMonotone(x: real, y: real)
    requires x <= y
    ensures TruncToInt(x) <= TruncToInt(y)
  {
    if 0.0 <= x {
      assert x.Floor <= y.Floor;
    } else if y < 0.0 {
      assert (-y).Floor <= (-x).Floor;
    }
  }

  /** For a brightness in [0, 1] and a maximum of at least 1 the level lies in [1, max]. */
  lemma StrengthLevelInRange(b: real, max: int)
    requires 0.0 <= b <= 1.0 && max >= 1
    ensures 1 <= StrengthLevel(b, max) <= max
  {
    var m := max as real;
    var p := b * m;
    assert 0.0 <= m;
    ScaleMonotone(b, 1.0, m);
    assert p <= m;
    TruncMonotone(p, m);
    assert TruncToInt(m) == max;
  }

  /** A brighter request never asks for a lower level. */
  lemma StrengthLevelMonotone(b1: real, b2: real, max: int)
    requires b1 <= b2 && max >= 0
    ensures StrengthLevel(b1, max) <= StrengthLevel(b2, max)
  {
    ScaleMonotone(b1, b2, max as real);
    TruncMonotone(b1 * max as real, b2 * max as real);
  }

  /** Full brightness asks for the maximum level. */
  lemma StrengthLevelFull(max: int)
    requires max >= 1
    ensures StrengthLevel(1.0, max) == max
  {
    assert 1.0 * max as real == max as real;
    assert TruncToInt(max as real) == max;
  }

  /** The level is truncated, not rounded: half brightness of three levels asks for level 1. */
  lemma StrengthLevelTruncates()
    ensures StrengthLevel(0.5, 3) == 1
    ensures StrengthLevel(0.99, 10) == 9
  {
    assert TruncToInt(1.5) == 1;
    assert TruncToInt(9.9) == 9;
  }
}
