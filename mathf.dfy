/**
 * The few `Mathf` routines the mini-game relies on, with Unity's definitions:
 * `Clamp` tests the lower bound first, `Lerp` clamps its parameter to [0, 1].
 */
module Mathf {

  function Clamp01(x: real): (r: real)
    ensures 0.0 <= r <= 1.0
    ensures 0.0 <= x <= 1.0 ==> r == x
    ensures x < 0.0 ==> r == 0.0
    ensures x > 1.0 ==> r == 1.0
  {
    if x < 0.0 then 0.0 else if x > 1.0 then 1.0 else x
  }

  /** `Mathf.Clamp(value, min, max)`: below `min` gives `min`, otherwise above `max` gives `max`. */
  function Clamp(value: real, min: real, max: real): (r: real)
    ensures min <= max ==> min <= r <= max
    ensures min <= value <= max ==> r == value
  {
    if value < min then min else if value > max then max else value
  }

  /** `Clamp` never moves a value the wrong way: it is monotone in the value. */
  lemma ClampMonotone(u: real, v: real, min: real, max: real)
    requires min <= max && u <= v
    ensures Clamp(u, min, max) <= Clamp(v, min, max)
  {
  }

  /** `Mathf.Lerp(a, b, t)`: from `a` toward `b` by the fraction `t`, clamped to [0, 1]. */
  function Lerp(a: real, b: real, t: real): (r: real)
    ensures a <= b ==> a <= r <= b
    ensures b <= a ==> b <= r <= a
    ensures t <= 0.0 ==> r == a
    ensures t >= 1.0 ==> r == b
  {
    if t <= 0.0 then a
    else if t >= 1.0 then b
    else
      ScaleWithin(b - a, t);
      a + (b - a) * t
  }

  /** A fraction in [0, 1] of `d` lies between 0 and `d`. */
  lemma ScaleWithin(d: real, s: real)
    requires 0.0 <= s <= 1.0
    ensures d >= 0.0 ==> 0.0 <= d * s <= d
    ensures d <= 0.0 ==> d <= d * s <= 0.0
  {
    if d >= 0.0 {
      MulNonNegative(d, s);
      MulNonNegative(d, 1.0 - s);
    } else {
      MulNonNegative(-d, s);
      MulNonNegative(-d, 1.0 - s);
    }
  }

  lemma MulNonNegative(x: real, y: real)
    requires x >= 0.0 && y >= 0.0
    ensures x * y >= 0.0
  {
  }

  /** `Lerp` toward a lower end never rises as the fraction grows. */
  lemma LerpDownwardMonotone(a: real, b: real, t1: real, t2: real)
    requires b <= a && t1 <= t2
    ensures Lerp(a, b, t2) <= Lerp(a, b, t1)
  {
    var s1 := Clamp01(t1);
    var s2 := Clamp01(t2);
    assert s1 <= s2;
    MulNonNegative(a - b, s2 - s1);
    assert Lerp(a, b, t1) == a + (b - a) * s1;
    assert Lerp(a, b, t2) == a + (b - a) * s2;
  }

  lemma DivideMonotone(a: real, b: real, d: real)
    requires a <= b && d > 0.0
    ensures a / d <= b / d
  {
    assert b / d - a / d == (b - a) / d;
  }

  function MinReal(a: real, b: real): (r: real)
    ensures r <= a && r <= b && (r == a || r == b)
  {
    if a < b then a else b
  }

  function MaxReal(a: real, b: real): (r: real)
    ensures r >= a && r >= b && (r == a || r == b)
  {
    if a > b then a else b
  }

  function Abs(x: real): (r: real)
    ensures r >= 0.0 && (r == x || r == -x)
  {
    if x < 0.0 then -x else x
  }
}
