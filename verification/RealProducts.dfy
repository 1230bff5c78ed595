/** Real arithmetic: absolute value, clamping, and products one step at a time. */
module RealProducts {
  function Abs(x: real): (r: real)
    ensures r >= 0.0
  {
    if x < 0.0 then -x else x
  }

  function ClampReal(x: real, min: real, max: real): real {
    if x < min then min else if x > max then max else x
  }

  lemma NonNegative(a: real, b: real)
    requires a >= 0.0 && b >= 0.0
    ensures a * b >= 0.0
  {
  }

  lemma PositiveProduct(a: real, b: real)
    requires a > 0.0 && b > 0.0
    ensures a * b > 0.0
  {
  }

  lemma Ordered(a: real, b: real, c: real)
    requires a <= b && c >= 0.0
    ensures a * c <= b * c
  {
    NonNegative(b - a, c);
  }

  lemma SameProduct(a: real, b: real, c: real)
    requires b == c
    ensures a * b == a * c
  {
  }

  lemma Square(a: real)
    ensures a * a >= 0.0
  {
    if a >= 0.0 {
      NonNegative(a, a);
    } else {
      NonNegative(-a, -a);
    }
  }

  lemma UnitProduct(s: real, t: real)
    requires 0.0 <= s <= 1.0 && 0.0 <= t <= 1.0
    ensures 0.0 <= s * t <= s && s * t <= t && s + t - s * t <= 1.0
  {
    NonNegative(s, t);
    NonNegative(s, 1.0 - t);
    NonNegative(1.0 - s, t);
    NonNegative(1.0 - s, 1.0 - t);
  }
}
