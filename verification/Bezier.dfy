/** The cubic Bezier easing curve: inversion of x(t) by bisection, and the easing built on it. */
module Bezier {
  import opened RealProducts

  /** One coordinate of the curve whose control values are 0, a, b and 1. */
  function Coordinate(a: real, b: real, t: real): real {
    var omt := 1.0 - t;
    3.0 * omt * omt * t * a + 3.0 * omt * t * t * b + t * t * t
  }

  predicate Unit(v: real) {
    0.0 <= v <= 1.0
  }

  /** The configuration only accepts x1 and x2 in [0, 1]; y1 and y2 are free. */
  datatype CubicBezier = CubicBezier(x1: real, y1: real, x2: real, y2: real)
  {
    predicate Valid() {
      Unit(x1) && Unit(x2)
    }

    function XForT(t: real): real {
      Coordinate(x1, x2, t)
    }

    function YForT(t: real): real {
      Coordinate(y1, y2, t)
    }
  }

  // ---------- The curve ----------

  /** De Casteljau's construction of the curve: neighbouring control values are mixed three times. */
  function DeCasteljau(a: real, b: real, t: real): real {
    var o := 1.0 - t;
    var p, q, r := o * 0.0 + t * a, o * a + t * b, o * b + t * 1.0;
    var u, v := o * p + t * q, o * q + t * r;
    o * u + t * v
  }

  /** The closed form is the Bezier curve. */
  lemma CoordinateIsBezier(a: real, b: real, t: real)
    ensures Coordinate(a, b, t) == DeCasteljau(a, b, t)
  {
  }

  // The change of `Coordinate` from s to t, divided by t - s, when the control values (a, b) are a
  // corner of the unit square. A coordinate is affine in a and b, so the corners decide.

  function Slope00(s: real, t: real): real {
    s * s + s * t + t * t
  }

  function Slope10(s: real, t: real): real {
    3.0 - 6.0 * (s + t) + 4.0 * Slope00(s, t)
  }

  function Slope01(s: real, t: real): real {
    3.0 * (s + t) - 2.0 * Slope00(s, t)
  }

  function Slope11(s: real, t: real): real {
    Slope00(1.0 - s, 1.0 - t)
  }

  predicate WithinThree(v: real) {
    0.0 <= v <= 3.0
  }

  lemma Slope00Bounds(s: real, t: real)
    requires Unit(s) && Unit(t)
    ensures WithinThree(Slope00(s, t))
  {
    UnitProduct(s, s);
    UnitProduct(s, t);
    UnitProduct(t, t);
  }

  lemma QuadraticForm(u: real, v: real)
    requires -1.0 <= u <= 1.0 && -1.0 <= v <= 1.0
    ensures WithinThree(u * u + u * v + v * v)
  {
    Square(u);
    Square(v);
    Square(u + v);
    assert (u + v) * (u + v) == u * u + 2.0 * (u * v) + v * v;
    NonNegative(1.0 - u, 1.0 + u);
    NonNegative(1.0 - v, 1.0 + v);
    Square(u - v);
    assert (u - v) * (u - v) == u * u - 2.0 * (u * v) + v * v;
  }

  lemma Slope10Bounds(s: real, t: real)
    requires Unit(s) && Unit(t)
    ensures WithinThree(Slope10(s, t))
  {
    var u, v := 1.0 - 2.0 * s, 1.0 - 2.0 * t;
    QuadraticForm(u, v);
    assert Slope10(s, t) == u * u + u * v + v * v;
  }

  lemma Slope01Gap(s: real, t: real)
    ensures 3.0 - Slope01(s, t) == 1.5 * ((1.0 - s - t) * (1.0 - s - t)) + 1.5 + 0.5 * ((s - t) * (s - t))
  {
  }

  lemma Slope01Sum(s: real, t: real)
    ensures Slope01(s, t) == 2.0 * (s * (1.0 - s)) + 2.0 * (t * (1.0 - t)) + s * (1.0 - t) + t * (1.0 - s)
  {
  }

  lemma Slope01Bounds(s: real, t: real)
    requires Unit(s) && Unit(t)
    ensures WithinThree(Slope01(s, t))
  {
    assert Slope01(s, t) >= 0.0 by {
      NonNegative(s, 1.0 - s);
      NonNegative(t, 1.0 - t);
      NonNegative(s, 1.0 - t);
      NonNegative(t, 1.0 - s);
      Slope01Sum(s, t);
    }
    assert Slope01(s, t) <= 3.0 by {
      var u, v := 1.0 - s - t, s - t;
      Square(u);
      Square(v);
      Slope01Gap(s, t);
      assert 3.0 - Slope01(s, t) == 1.5 * (u * u) + 1.5 + 0.5 * (v * v);
    }
  }

  lemma Mixed(p: real, q: real, w: real)
    requires WithinThree(p) && WithinThree(q) && Unit(w)
    ensures WithinThree(p + w * (q - p))
  {
    NonNegative(w, q);
    NonNegative(1.0 - w, p);
    NonNegative(w, 3.0 - q);
    NonNegative(1.0 - w, 3.0 - p);
    assert p + w * (q - p) == w * q + (1.0 - w) * p;
    assert 3.0 - (p + w * (q - p)) == w * (3.0 - q) + (1.0 - w) * (3.0 - p);
  }

  /** The slope at control values (a, b) from the slopes at three corners. */
  function Blend(s00: real, s10: real, s01: real, a: real, b: real): real {
    s00 + a * (s10 - s00) + b * (s01 - s00)
  }

  function Slope(a: real, b: real, s: real, t: real): real {
    Blend(Slope00(s, t), Slope10(s, t), Slope01(s, t), a, b)
  }

  lemma MixedShift(p: real, q: real, r: real, w: real)
    requires WithinThree(p + r) && WithinThree(q + r) && Unit(w)
    ensures WithinThree(p + w * (q - p) + r)
  {
    Mixed(p + r, q + r, w);
    SameProduct(w, (q + r) - (p + r), q - p);
  }

  lemma MixedTwice(s00: real, s10: real, s01: real, s11: real, a: real, b: real)
    requires WithinThree(s00) && WithinThree(s10) && WithinThree(s01) && WithinThree(s11) && Unit(a) && Unit(b)
    requires s11 - s10 == s01 - s00
    ensures WithinThree(Blend(s00, s10, s01, a, b))
  {
    Mixed(s00, s01, b);
    Mixed(s10, s11, b);
    SameProduct(b, s11 - s10, s01 - s00);
    MixedShift(s00, s10, b * (s01 - s00), a);
  }

  lemma SlopeBounds(a: real, b: real, s: real, t: real)
    requires Unit(a) && Unit(b) && Unit(s) && Unit(t)
    ensures WithinThree(Slope(a, b, s, t))
  {
    Slope00Bounds(s, t);
    Slope10Bounds(s, t);
    Slope01Bounds(s, t);
    Slope00Bounds(1.0 - s, 1.0 - t);
    CornersAreAffine(s, t);
    MixedTwice(Slope00(s, t), Slope10(s, t), Slope01(s, t), Slope11(s, t), a, b);
  }

  lemma CornersAreAffine(s: real, t: real)
    ensures Slope11(s, t) - Slope10(s, t) == Slope01(s, t) - Slope00(s, t)
  {
  }

  lemma SlopeParts(a: real, b: real, s: real, t: real)
    ensures var q := s * s + s * t + t * t;
      Slope(a, b, s, t) == q + a * (3.0 - 6.0 * (s + t) + 3.0 * q) + b * (3.0 * (s + t) - 3.0 * q)
  {
    var q := s * s + s * t + t * t;
    SameProduct(a, Slope10(s, t) - Slope00(s, t), 3.0 - 6.0 * (s + t) + 3.0 * q);
    SameProduct(b, Slope01(s, t) - Slope00(s, t), 3.0 * (s + t) - 3.0 * q);
  }

  lemma ChangeParts(a: real, b: real, s: real, t: real)
    ensures (3.0 * (1.0 - t) * (1.0 - t) * t * a + 3.0 * (1.0 - t) * t * t * b + t * t * t)
            - (3.0 * (1.0 - s) * (1.0 - s) * s * a + 3.0 * (1.0 - s) * s * s * b + s * s * s)
            == (t - s) * (s * s + s * t + t * t
                          + a * (3.0 - 6.0 * (s + t) + 3.0 * (s * s + s * t + t * t))
                          + b * (3.0 * (s + t) - 3.0 * (s * s + s * t + t * t)))
  {
  }

  lemma CoordinateChange(a: real, b: real, s: real, t: real)
    ensures Coordinate(a, b, t) - Coordinate(a, b, s) == (t - s) * Slope(a, b, s, t)
  {
    var q := s * s + s * t + t * t;
    ChangeParts(a, b, s, t);
    SlopeParts(a, b, s, t);
    SameProduct(t - s, Slope(a, b, s, t), q + a * (3.0 - 6.0 * (s + t) + 3.0 * q) + b * (3.0 * (s + t) - 3.0 * q));
  }

  /** With control values in [0, 1] a coordinate never decreases and is 3-Lipschitz. */
  lemma CoordinateRises(a: real, b: real, s: real, t: real)
    requires Unit(a) && Unit(b) && Unit(s) && Unit(t) && s <= t
    ensures 0.0 <= Coordinate(a, b, t) - Coordinate(a, b, s) <= 3.0 * (t - s)
  {
    CoordinateChange(a, b, s, t);
    SlopeBounds(a, b, s, t);
    NonNegative(t - s, Slope(a, b, s, t));
    NonNegative(t - s, 3.0 - Slope(a, b, s, t));
  }

  // ---------- Inversion ----------

  datatype Bracket = Bracket(min: real, max: real)
  {
    function Middle(): real {
      (min + max) / 2.0
    }
  }

  /** The bracket after `n` halvings in search of `x` among the values of `f`. */
  function Bisect(f: real -> real, x: real, br: Bracket, n: nat): Bracket
    decreases n
  {
    if n == 0 then br
    else if x < f(br.Middle()) then Bisect(f, x, Bracket(br.min, br.Middle()), n - 1)
    else Bisect(f, x, Bracket(br.Middle(), br.max), n - 1)
  }

  const HALVINGS: nat := 31

  /** The x coordinate along the curve. */
  function XCurve(c: CubicBezier): real -> real {
    t => c.XForT(t)
  }

  const WHOLE := Bracket(0.0, 1.0)

  /** What `n` halvings of the whole curve find. */
  function Search(f: real -> real, x: real, n: nat): real {
    Bisect(f, x, WHOLE, n).Middle()
  }

  function TForX(c: CubicBezier, x: real): real {
    Search(XCurve(c), x, HALVINGS)
  }

  /** `x_for_t`. */
  method XAt(c: CubicBezier, t: real) returns (x: real)
    ensures x == XCurve(c)(t)
  {
    x := c.XForT(t);
  }

  /** The loop of `t_for_x`, for any number of halvings. */
  method Halve(c: CubicBezier, x: real, n: nat) returns (t: real)
    ensures t == Search(XCurve(c), x, n)
  {
    ghost var f := XCurve(c);
    var minT, maxT := 0.0, 1.0;
    for i := 0 to n
      invariant Bisect(f, x, Bracket(minT, maxT), n - i) == Bisect(f, x, WHOLE, n)
    {
      var guessT := (minT + maxT) / 2.0;
      var guessX := XAt(c, guessT);
      assert guessX == f(Bracket(minT, maxT).Middle());
      if x < guessX {
        maxT := guessT;
      } else {
        minT := guessT;
      }
    }
    t := (minT + maxT) / 2.0;
  }

  /** `t_for_x`. */
  method ComputeTForX(c: CubicBezier, x: real) returns (t: real)
    ensures t == TForX(c, x)
  {
    t := Halve(c, x, HALVINGS);
  }

  function Halved(w: real, n: nat): real
    decreases n
  {
    if n == 0 then w else Halved(w / 2.0, n - 1)
  }

  lemma {:induction false} BisectNarrows(f: real -> real, x: real, br: Bracket, n: nat)
    requires br.min <= br.max
    ensures var r := Bisect(f, x, br, n);
      br.min <= r.min <= r.max <= br.max && r.max - r.min == Halved(br.max - br.min, n)
    decreases n
  {
    if n == 0 {
    } else {
      var left, right := Bracket(br.min, br.Middle()), Bracket(br.Middle(), br.max);
      assert left.max - left.min == right.max - right.min == (br.max - br.min) / 2.0;
      BisectNarrows(f, x, left, n - 1);
      BisectNarrows(f, x, right, n - 1);
    }
  }

  /** Bisection keeps x between the values at the two ends, and below the upper one if it starts so. */
  lemma {:induction false} BisectKeepsBracket(f: real -> real, x: real, br: Bracket, n: nat)
    requires f(br.min) <= x <= f(br.max)
    ensures var r := Bisect(f, x, br, n); f(r.min) <= x <= f(r.max) && (x < f(br.max) ==> x < f(r.max))
    decreases n
  {
    if n > 0 {
      if x < f(br.Middle()) {
        BisectKeepsBracket(f, x, Bracket(br.min, br.Middle()), n - 1);
      } else {
        BisectKeepsBracket(f, x, Bracket(br.Middle(), br.max), n - 1);
      }
    }
  }

  function Pow2(n: nat): nat {
    if n == 0 then 1 else 2 * Pow2(n - 1)
  }

  lemma {:induction false} HalvedTimesPow2(w: real, n: nat)
    ensures Halved(w, n) * Pow2(n) as real == w
    decreases n
  {
    if n == 0 {
    } else {
      HalvedTimesPow2(w / 2.0, n - 1);
      DoubleProduct(Halved(w / 2.0, n - 1), Pow2(n - 1) as real);
    }
  }

  lemma DoubleProduct(a: real, b: real)
    ensures a * (2.0 * b) == 2.0 * (a * b)
  {
  }

  lemma {:induction false} Pow2Sum(m: nat, n: nat)
    ensures Pow2(m + n) == Pow2(m) * Pow2(n)
  {
    if m == 0 {
    } else {
      Pow2Sum(m - 1, n);
      assert Pow2(m + n) == 2 * Pow2(m - 1 + n);
    }
  }

  lemma HalvingsPower()
    ensures Pow2(HALVINGS) == 2147483648
  {
    assert Pow2(8) == 256;
    Pow2Sum(8, 8);
    Pow2Sum(16, 8);
    assert Pow2(7) == 128;
    Pow2Sum(24, 7);
  }

  lemma FinalWidth()
    ensures Halved(1.0, HALVINGS) == 1.0 / 2147483648.0
  {
    HalvedTimesPow2(1.0, HALVINGS);
    HalvingsPower();
    Quotient(Halved(1.0, HALVINGS), 2147483648.0);
  }

  lemma Quotient(q: real, d: real)
    requires d > 0.0 && q * d == 1.0
    ensures q == 1.0 / d
  {
  }

  ghost predicate Rises(f: real -> real, s: real, t: real) {
    0.0 <= f(t) - f(s) <= 3.0 * (t - s)
  }

  lemma XCurveRises(c: CubicBezier, s: real, t: real)
    requires c.Valid() && 0.0 <= s <= t <= 1.0
    ensures Rises(XCurve(c), s, t)
  {
    CoordinateRises(c.x1, c.x2, s, t);
  }

  /** In the middle of a bracket, such a function is off by at most half of what it can rise. */
  lemma MiddleIsClose(f: real -> real, x: real, br: Bracket)
    requires f(br.min) <= x <= f(br.max) && Rises(f, br.min, br.Middle()) && Rises(f, br.Middle(), br.max)
    ensures -1.5 * (br.max - br.min) <= f(br.Middle()) - x <= 1.5 * (br.max - br.min)
  {
  }

  /** Where `n` halvings end. */
  lemma SearchIsClose(f: real -> real, x: real, n: nat)
    requires f(0.0) <= x <= f(1.0)
    requires forall s, t | 0.0 <= s <= t <= 1.0 :: Rises(f, s, t)
    ensures Unit(Search(f, x, n))
    ensures -1.5 * Halved(1.0, n) <= f(Search(f, x, n)) - x <= 1.5 * Halved(1.0, n)
  {
    var br := Bisect(f, x, WHOLE, n);
    BisectNarrows(f, x, WHOLE, n);
    BisectKeepsBracket(f, x, WHOLE, n);
    assert Rises(f, br.min, br.Middle()) && Rises(f, br.Middle(), br.max);
    MiddleIsClose(f, x, br);
  }

  /** Inversion is exact up to 3 * 2^-32 in x, for every x in (0, 1), and stays on the curve. */
  lemma InversionError(c: CubicBezier, x: real)
    requires c.Valid() && 0.0 < x < 1.0
    ensures Unit(TForX(c, x))
    ensures -3.0 / 4294967296.0 <= XCurve(c)(TForX(c, x)) - x <= 3.0 / 4294967296.0
  {
    EndsOfCurve(c);
    forall s, t | 0.0 <= s <= t <= 1.0 ensures Rises(XCurve(c), s, t) {
      XCurveRises(c, s, t);
    }
    SearchIsClose(XCurve(c), x, HALVINGS);
    FinalWidth();
  }

  lemma ZeroTimes(a: real)
    ensures 0.0 * a == 0.0
  {
  }

  lemma CoordinateEnds(a: real, b: real)
    ensures Coordinate(a, b, 0.0) == 0.0 && Coordinate(a, b, 1.0) == 1.0
  {
    ZeroTimes(a);
    ZeroTimes(b);
    assert Coordinate(a, b, 0.0) == 0.0 * a + 0.0 * b;
    assert Coordinate(a, b, 1.0) == 0.0 * a + 0.0 * b + 1.0;
  }

  lemma EndsOfCurve(c: CubicBezier)
    ensures c.XForT(0.0) == 0.0 && c.XForT(1.0) == 1.0 && c.YForT(0.0) == 0.0 && c.YForT(1.0) == 1.0
  {
    CoordinateEnds(c.x1, c.x2);
    CoordinateEnds(c.y1, c.y2);
  }

  /** Inversion never decreases: where two runs of the loop first part, they stay on their sides. */
  lemma {:induction false} BisectIsMonotone(f: real -> real, x: real, x': real, br: Bracket, n: nat)
    requires br.min <= br.max && x <= x'
    ensures Bisect(f, x, br, n).Middle() <= Bisect(f, x', br, n).Middle()
    decreases n
  {
    if n > 0 {
      var guess := f(br.Middle());
      var left, right := Bracket(br.min, br.Middle()), Bracket(br.Middle(), br.max);
      if x' < guess {
        BisectIsMonotone(f, x, x', left, n - 1);
      } else if guess <= x {
        BisectIsMonotone(f, x, x', right, n - 1);
      } else {
        BisectNarrows(f, x, left, n - 1);
        BisectNarrows(f, x', right, n - 1);
      }
    }
  }

  // ---------- Easing ----------

  const EPSILON: real := 1.0 / 4503599627370496.0

  /** The easing function, with its cutoffs at both ends. */
  function Ease(c: CubicBezier, x: real): real {
    if x <= EPSILON then 0.0
    else if 1.0 - EPSILON <= x then 1.0
    else c.YForT(TForX(c, x))
  }

  lemma SearchInUnit(f: real -> real, x: real, n: nat)
    ensures Unit(Search(f, x, n))
  {
    BisectNarrows(f, x, WHOLE, n);
  }

  lemma SearchIsMonotone(f: real -> real, x: real, x': real, n: nat)
    requires x <= x'
    ensures Search(f, x, n) <= Search(f, x', n)
  {
    BisectIsMonotone(f, x, x', WHOLE, n);
  }

  lemma TForXInUnit(c: CubicBezier, x: real)
    ensures Unit(TForX(c, x))
  {
    SearchInUnit(XCurve(c), x, HALVINGS);
  }

  /** With y1 and y2 in [0, 1] as well, the easing stays in [0, 1]. */
  lemma EaseInUnit(c: CubicBezier, x: real)
    requires Unit(c.y1) && Unit(c.y2)
    ensures Unit(Ease(c, x))
  {
    TForXInUnit(c, x);
    CoordinateRises(c.y1, c.y2, 0.0, TForX(c, x));
    CoordinateRises(c.y1, c.y2, TForX(c, x), 1.0);
    EndsOfCurve(c);
  }

  /** ... and never goes backwards, across the cutoffs included. */
  lemma EaseIsMonotone(c: CubicBezier, x: real, x': real)
    requires Unit(c.y1) && Unit(c.y2) && x <= x'
    ensures Ease(c, x) <= Ease(c, x')
  {
    EaseInUnit(c, x);
    EaseInUnit(c, x');
    SearchIsMonotone(XCurve(c), x, x', HALVINGS);
    TForXInUnit(c, x);
    TForXInUnit(c, x');
    CoordinateRises(c.y1, c.y2, TForX(c, x), TForX(c, x'));
  }

  /** Whatever y1 and y2, overshooting ones included: between the cutoffs the easing takes the height of a
      point of the curve that is within the inversion error of x; below them it is 0 and above them 1. */
  lemma EaseFollowsTheCurve(c: CubicBezier, x: real)
    requires c.Valid()
    ensures 1.0 / 4503599627370496.0 < x < 1.0 - 1.0 / 4503599627370496.0 ==>
      exists t: real :: 0.0 <= t <= 1.0 && -3.0 / 4294967296.0 <= DeCasteljau(c.x1, c.x2, t) - x <= 3.0 / 4294967296.0
                        && Ease(c, x) == DeCasteljau(c.y1, c.y2, t)
    ensures x <= 1.0 / 4503599627370496.0 ==> Ease(c, x) == 0.0
    ensures x >= 1.0 - 1.0 / 4503599627370496.0 ==> Ease(c, x) == 1.0
  {
    if EPSILON < x < 1.0 - EPSILON {
      var t := TForX(c, x);
      InversionError(c, x);
      CoordinateIsBezier(c.x1, c.x2, t);
      CoordinateIsBezier(c.y1, c.y2, t);
      assert XCurve(c)(t) == DeCasteljau(c.x1, c.x2, t);
      assert Ease(c, x) == DeCasteljau(c.y1, c.y2, t);
    }
  }

  /** After any number of halvings the point found is the middle of a bracket that holds x, its upper end
      excluded. */
  lemma SearchBrackets(c: CubicBezier, x: real, n: nat)
    requires c.Valid() && 0.0 < x < 1.0
    ensures var r := Bisect(XCurve(c), x, WHOLE, n);
      DeCasteljau(c.x1, c.x2, r.min) <= x < DeCasteljau(c.x1, c.x2, r.max)
      && Search(XCurve(c), x, n) == (r.min + r.max) / 2.0 && r.max - r.min == Halved(1.0, n)
  {
    var r := Bisect(XCurve(c), x, WHOLE, n);
    EndsOfCurve(c);
    BisectKeepsBracket(XCurve(c), x, WHOLE, n);
    BisectNarrows(XCurve(c), x, WHOLE, n);
    CoordinateIsBezier(c.x1, c.x2, r.min);
    CoordinateIsBezier(c.x1, c.x2, r.max);
  }

  /** A curve with its control points on the diagonal eases linearly, up to the inversion error. */
  lemma DiagonalCurveIsLinear(c: CubicBezier, x: real)
    requires c.Valid() && c.y1 == c.x1 && c.y2 == c.x2 && Unit(x)
    ensures -3.0 / 4294967296.0 <= Ease(c, x) - x <= 3.0 / 4294967296.0
  {
    if EPSILON < x < 1.0 - EPSILON {
      InversionError(c, x);
    }
  }
}
