/** The JavaScript number operations the hold calculator relies on, over exact reals:
    `Math.round`, the remainder `x % 360`, the `parseFloat(v) || d` fallback, and the
    circular-angle helpers that the rest of the model states its properties with. */
module JsNumber {

  datatype Option<+T> = None | Some(value: T)

  /** `Math.round(x)`: the nearest integer, a tie going towards +infinity. */
  function Round(x: real): (r: int)
    ensures x - 0.5 < r as real <= x + 0.5
  {
    (x + 0.5).Floor
  }

  /** The quotient of `x / 360` truncated towards zero, as JavaScript's `%` uses it. */
  function Trunc360(x: real): (q: int)
    ensures x >= 0.0 ==> 0.0 <= x - 360.0 * q as real < 360.0
    ensures x < 0.0 ==> -360.0 < x - 360.0 * q as real <= 0.0
  {
    if x >= 0.0 then (x / 360.0).Floor else -((-x / 360.0).Floor)
  }

  /** `x % 360` in JavaScript: the remainder of the truncating division, which has the
      sign of the dividend. It lies in [0,360) only for a dividend that is not negative,
      and it always differs from `x` by whole turns. */
  function Rem360(x: real): (r: real)
    ensures x >= 0.0 ==> 0.0 <= r < 360.0
    ensures x < 0.0 ==> -360.0 < r <= 0.0
  {
    x - 360.0 * Trunc360(x) as real
  }

  /** `parseFloat(v) || d`: a parse that yields NaN (None) or 0 falls back to `d`. */
  function OrDefault(parsed: Option<real>, d: real): (r: real)
    ensures parsed.Some? && parsed.value != 0.0 ==> r == parsed.value
    ensures parsed.None? || parsed.value == 0.0 ==> r == d
    ensures d != 0.0 ==> r != 0.0
  {
    match parsed
    case None => d
    case Some(v) => if v == 0.0 then d else v
  }

  /** The direction `d` written as a signed angle in (-180,180]: the reference notion of
      "relative direction" that the corrector's loops are proved against. */
  function SignedAngle(d: real): (r: real)
    ensures -180.0 < r <= 180.0
  {
    d + 360.0 * ((180.0 - d) / 360.0).Floor as real
  }

  /** The one-step fold `a > 180 ? 360 - a : a` used for wind angles. */
  function FoldTo180(a: real): (r: real)
    ensures 0.0 <= a <= 360.0 ==> 0.0 <= r <= 180.0
    ensures a > 180.0 ==> r < 180.0
  {
    if a > 180.0 then 360.0 - a else a
  }

  function Abs(x: real): (r: real)
    ensures r >= 0.0 && (r == x || r == -x)
  {
    if x < 0.0 then -x else x
  }

  /** Two readings of one direction (they differ by `n` whole turns) that lie less than
      a turn apart are equal. */
  lemma SameDirectionClose(a: real, b: real, n: int)
    requires a - b == 360.0 * n as real
    requires -360.0 < a - b < 360.0
    ensures a == b
  {
  }

  /** `x % 360` is the representative in [0,360) of every direction `y` that a
      non-negative `x` denotes. */
  lemma Rem360Normalises(x: real, y: real, n: int)
    requires x >= 0.0 && 0.0 <= y < 360.0
    requires x - y == 360.0 * n as real
    ensures Rem360(x) == y
  {
    SameDirectionClose(Rem360(x), y, n - Trunc360(x));
  }

  /** A direction already in [0,360) is left alone by `(x + 360) % 360`. */
  lemma Rem360Fixed(x: real)
    requires 0.0 <= x < 360.0
    ensures Rem360(x + 360.0) == x
  {
    Rem360Normalises(x + 360.0, x, 1);
  }

  /** Any value in (-180,180] that denotes the same direction as `d` is `SignedAngle(d)`. */
  lemma SignedAngleUnique(d: real, r: real, n: int)
    requires -180.0 < r <= 180.0
    requires d - r == 360.0 * n as real
    ensures SignedAngle(d) == r
  {
    var k := ((180.0 - d) / 360.0).Floor;
    SameDirectionClose(SignedAngle(d), r, k + n);
  }
}
