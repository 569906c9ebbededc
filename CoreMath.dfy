/**
 * The scalar helpers the rasterizer is written with: the vector type, the
 * remap fraction and linear interpolation of its math helper class, and the
 * rounding and truncation it applies when it turns a coordinate into a pixel
 * index or a depth sample. Coordinates are `real`: the model does not follow
 * single-precision rounding.
 */
module CoreMath {

  /** A position (or a colour, with components in [0, 1]). */
  datatype Vector3 = Vector3(x: real, y: real, z: real)

  /** A position with a fourth, homogeneous coordinate (or an offset and a scale packed together). */
  datatype Vector4 = Vector4(x: real, y: real, z: real, w: real)

  function Min(a: real, b: real): (r: real)
    ensures r <= a && r <= b
    ensures r == a || r == b
  {
    if a < b then a else b
  }

  function Max(a: real, b: real): (r: real)
    ensures a <= r && b <= r
    ensures r == a || r == b
  {
    if a > b then a else b
  }

  /** `value` limited to the interval [lo, hi]. */
  function Clamp(value: real, lo: real, hi: real): (r: real)
    requires lo <= hi
    ensures lo <= r <= hi
    ensures lo <= value <= hi ==> r == value
    ensures value < lo ==> r == lo
    ensures value > hi ==> r == hi
  {
    if value < lo then lo else if value > hi then hi else value
  }

  /** Where `t` lies between `a` and `b`, as a fraction of the distance from `a` to `b`. */
  function Remap(a: real, b: real, t: real): (s: real)
    requires a != b
    ensures s * (b - a) == t - a
    ensures t == a ==> s == 0.0
    ensures t == b ==> s == 1.0
  {
    var d := b - a;
    assert d / d == 1.0;
    (t - a) / d
  }

  /** The point at fraction `s` of the way from `a` to `b`. */
  function Lerp(a: real, b: real, s: real): (r: real)
    ensures s == 0.0 ==> r == a
    ensures s == 1.0 ==> r == b
    ensures a == b ==> r == a
  {
    a + (b - a) * s
  }

  /**
   * Rounding to the nearest integer, halves to the even neighbour (the
   * default midpoint rule of the runtime's Round).
   */
  function Round(x: real): (r: int)
    ensures x - 0.5 <= r as real <= x + 0.5
    ensures (r as real == x - 0.5 || r as real == x + 0.5) ==> r % 2 == 0
  {
    var f := x.Floor;
    var frac := x - f as real;
    if frac < 0.5 then f
    else if frac > 0.5 then f + 1
    else if f % 2 == 0 then f
    else f + 1
  }

  /** The `(int)` conversion: the integer part, rounding toward zero. */
  function Trunc(x: real): (r: int)
    ensures 0.0 <= x ==> 0 <= r && r as real <= x < r as real + 1.0
    ensures x < 0.0 ==> r <= 0 && r as real - 1.0 < x <= r as real
  {
    if x >= 0.0 then x.Floor else -((-x).Floor)
  }

  /** The centre of pixel row or column `k`: the scan loops sample there. */
  function Centre(k: int): (c: real)
    ensures k as real < c < (k + 1) as real
    ensures 0 <= k ==> Trunc(c) == k
  {
    k as real + 0.5
  }

  /** Round never reverses the order of two values. */
  lemma RoundMonotone(a: real, b: real)
    requires a <= b
    ensures Round(a) <= Round(b)
  {
  }

  /** The centre of a row or column the loop `k = Round(a) .. Round(b) - 1` visits lies in [a, b]. */
  lemma CentreWithin(a: real, b: real, k: int)
    requires Round(a) <= k < Round(b)
    ensures a <= Centre(k) <= b
  {
  }

  /** A value between the bounds of a remap, in either order, yields a fraction in [0, 1]. */
  lemma {:induction false} RemapInUnit(a: real, b: real, t: real)
    requires a != b && Min(a, b) <= t <= Max(a, b)
    ensures 0.0 <= Remap(a, b, t) <= 1.0
  {
    var s := Remap(a, b, t);
    assert (s - 1.0) * (b - a) == t - b;
    if a < b {
      if s < 0.0 {
        MulNonNeg(-s, b - a);
      }
      if s > 1.0 {
        MulNonNeg(s - 1.0, b - a);
      }
    } else {
      if s < 0.0 {
        MulNonNeg(-s, a - b);
      }
      if s > 1.0 {
        MulNonNeg(s - 1.0, a - b);
      }
    }
  }

  /** Remapping toward either end: the two fractions add up to one. */
  lemma {:induction false} RemapComplement(a: real, b: real, t: real)
    requires a != b
    ensures Remap(a, b, t) + Remap(b, a, t) == 1.0
  {
    var d := b - a;
    assert Remap(b, a, t) == (b - t) / d;
    assert (t - a) / d + (b - t) / d == d / d;
  }

  /** A fraction in [0, 1] interpolates to a value between the end points. */
  lemma {:induction false} LerpBetween(a: real, b: real, s: real)
    requires 0.0 <= s <= 1.0
    ensures Min(a, b) <= Lerp(a, b, s) <= Max(a, b)
  {
    if a <= b {
      MulNonNeg(b - a, s);
      MulNonNeg(b - a, 1.0 - s);
    } else {
      MulNonNeg(a - b, s);
      MulNonNeg(a - b, 1.0 - s);
    }
  }

  lemma MulNonNeg(x: real, y: real)
    requires 0.0 <= x && 0.0 <= y
    ensures 0.0 <= x * y
  {
  }
}
