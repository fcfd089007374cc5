/** Layout helpers: clamping a number into a range and the tablet threshold. Screen sizes
    and the clamped values are JavaScript numbers; the model uses reals (no NaN or
    infinities). */
module Layout {

  const TabletMinDimension: real := 768.0

  function Min(a: real, b: real): (r: real)
    ensures r <= a && r <= b && (r == a || r == b)
  {
    if a <= b then a else b
  }

  function Max(a: real, b: real): (r: real)
    ensures r >= a && r >= b && (r == a || r == b)
  {
    if a >= b then a else b
  }

  /** `clamp(x, min, max)`: `Math.max(min, Math.min(max, x))` */
  function Clamp(x: real, lo: real, hi: real): (r: real)
    ensures lo <= hi ==> lo <= r <= hi
    ensures lo <= x <= hi ==> r == x
    ensures lo > hi ==> r == lo
    ensures lo <= hi && x < lo ==> r == lo
    ensures lo <= hi && x > hi ==> r == hi
  {
    Max(lo, Min(hi, x))
  }

  /** Clamping twice is clamping once. */
  lemma ClampIdempotent(x: real, lo: real, hi: real)
    ensures Clamp(Clamp(x, lo, hi), lo, hi) == Clamp(x, lo, hi)
  {
  }

  /** Clamping keeps the order of its inputs. */
  lemma ClampMonotone(x: real, y: real, lo: real, hi: real)
    requires x <= y
    ensures Clamp(x, lo, hi) <= Clamp(y, lo, hi)
  {
  }

  /** `useIsTablet`: the smaller side of the window is at least 768. */
  function IsTablet(width: real, height: real): (b: bool)
    ensures b <==> width >= TabletMinDimension && height >= TabletMinDimension
  {
    Min(width, height) >= TabletMinDimension
  }

  /** Rotating the device does not change the flag. */
  lemma TabletRotation(width: real, height: real)
    ensures IsTablet(width, height) == IsTablet(height, width)
  {
  }
}
