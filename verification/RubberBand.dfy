/** Rubber-band clamping: past a range, movement is damped towards a limit. */
module RubberBands {
  import opened RealProducts

  datatype RubberBand = RubberBand(stiffness: real, limit: real)
  {
    predicate Valid() {
      0.0 < stiffness <= 1.0 && limit > 0.0
    }

    function Band(x: real): real
      requires Valid() && x >= 0.0
    {
      Denominators(x);
      (1.0 - 1.0 / (x * stiffness / limit + 1.0)) * limit
    }

    function Derivative(x: real): real
      requires Valid() && x >= 0.0
    {
      Denominators(x);
      stiffness * limit * limit / ((stiffness * x + limit) * (stiffness * x + limit))
    }

    function Clamp(min: real, max: real, x: real): real
      requires Valid() && min <= max
    {
      var clamped := ClampReal(x, min, max);
      var sign := if x < clamped then -1.0 else 1.0;
      clamped + sign * Band(Abs(x - clamped))
    }

    function ClampDerivative(min: real, max: real, x: real): real
      requires Valid() && min <= max
    {
      if min <= x <= max then 1.0 else Derivative(Abs(x - ClampReal(x, min, max)))
    }

    lemma Denominators(x: real)
      requires Valid() && x >= 0.0
      ensures stiffness * x + limit > 0.0
      ensures x * stiffness / limit + 1.0 > 0.0
      ensures (stiffness * x + limit) * (stiffness * x + limit) > 0.0
    {
      NonNegative(stiffness, x);
      DivideNonNegative(x * stiffness, limit);
      PositiveSquare(stiffness * x + limit);
    }
  }

  /** A rise over a width is at least as steep as one slope and at most as steep as another. */
  ghost predicate SlopeWithin(rise: real, width: real, low: real, high: real) {
    low * width <= rise <= high * width
  }

  lemma DivideNonNegative(a: real, b: real)
    requires a >= 0.0 && b > 0.0
    ensures a / b >= 0.0
  {
  }

  lemma PositiveSquare(a: real)
    requires a > 0.0
    ensures a * a > 0.0
  {
  }

  lemma UniqueQuotient(n: real, m: real, r: real)
    requires m > 0.0 && r * m == n
    ensures n / m == r
  {
  }

  lemma Cancel(u: real, v: real, d: real)
    requires d > 0.0 && u * d == v * d
    ensures u == v
  {
    if u > v {
      PositiveProduct(u - v, d);
    } else if u < v {
      PositiveProduct(v - u, d);
    }
  }

  lemma Associate(a: real, b: real, c: real)
    ensures a * (b * c) == (a * b) * c
  {
  }

  lemma AddWhole(n: real, d: real)
    requires d > 0.0
    ensures (n / d + 1.0) * d == n + d
  {
  }

  lemma Reciprocal(p: real, r: real, d: real, a: real)
    requires d > 0.0 && r > 0.0 && r * d == a && p * a == d
    ensures 1.0 / r == p
  {
    Associate(p, r, d);
    Cancel(p * r, 1.0, d);
    UniqueQuotient(1.0, r, p);
  }

  /** Dividing by `a = c x + d` is multiplying by the share `p = d / a` of the limit that is left. */
  lemma BandAlgebra(d: real, n: real, a: real, p: real)
    requires d > 0.0 && a > 0.0 && a == n + d && p * a == d
    requires n / d + 1.0 > 0.0
    ensures 1.0 / (n / d + 1.0) == p
  {
    AddWhole(n, d);
    Reciprocal(p, n / d + 1.0, d, a);
  }

  lemma PositiveQuotient(a: real, d: real)
    requires a > 0.0 && d > 0.0
    ensures a / d > 0.0
  {
  }

  lemma RegroupSquares(c: real, p: real, a: real)
    ensures (c * (p * p)) * (a * a) == c * (p * a) * (p * a)
  {
    assert (p * p) * (a * a) == (p * a) * (p * a);
    Associate(c, p * p, a * a);
    Associate(c, p * a, p * a);
  }

  lemma SameSquare(c: real, d: real, e: real)
    requires d == e
    ensures c * d * d == c * e * e
  {
  }

  lemma DerivativeAlgebra(c: real, d: real, a: real, p: real, n: real, m: real, r: real)
    requires p * a == d && m > 0.0
    requires m == a * a && n == c * d * d && r == c * (p * p)
    ensures n / m == r
  {
    RegroupSquares(c, p, a);
    SameSquare(c, d, p * a);
    assert r * m == (c * (p * p)) * (a * a);
    UniqueQuotient(n, m, r);
  }

  /** What `band` and `derivative` compute, without divisions. */
  lemma BandFacts(rb: RubberBand, x: real) returns (p: real)
    requires rb.Valid() && x >= 0.0
    ensures 0.0 < p <= 1.0
    ensures p * (rb.stiffness * x + rb.limit) == rb.limit
    ensures rb.Band(x) == (1.0 - p) * rb.limit
    ensures rb.Derivative(x) == rb.stiffness * (p * p)
  {
    rb.Denominators(x);
    var a := rb.stiffness * x + rb.limit;
    p := rb.limit / a;
    assert p * a == rb.limit;
    PositiveQuotient(rb.limit, a);
    NonNegative(rb.stiffness, x);
    if p > 1.0 {
      PositiveProduct(p - 1.0, a);
    }
    BandAlgebra(rb.limit, x * rb.stiffness, a, p);
    DerivativeAlgebra(rb.stiffness, rb.limit, a, p, rb.stiffness * rb.limit * rb.limit, a * a, rb.stiffness * (p * p));
  }

  lemma ChordAlgebra(c: real, d: real, p: real, q: real, x: real, y: real)
    requires p * (c * x + d) == d && q * (c * y + d) == d
    ensures (p - q) * d == c * (p * q) * (y - x)
  {
    assert p * d == p * (q * (c * y + d)) == (p * q) * (c * y) + (p * q) * d;
    assert q * d == q * (p * (c * x + d)) == (p * q) * (c * x) + (p * q) * d;
    assert (p - q) * d == (p * q) * (c * y) - (p * q) * (c * x);
    assert (p * q) * (c * y) - (p * q) * (c * x) == c * (p * q) * (y - x);
  }

  lemma ShallowSlope(c: real, p: real, q: real, w: real)
    requires 0.0 < c <= 1.0 && 0.0 < p <= 1.0 && 0.0 < q <= 1.0 && w > 0.0
    ensures 0.0 < c * (p * q) * w <= w
  {
    PositiveProduct(p, q);
    UnitProduct(p, q);
    PositiveProduct(c, p * q);
    UnitProduct(c, p * q);
    PositiveProduct(c * (p * q), w);
    Ordered(c * (p * q), 1.0, w);
  }

  lemma SlopeBetween(c: real, p: real, q: real, w: real)
    requires c >= 0.0 && 0.0 <= q <= p && w >= 0.0
    ensures c * (q * q) * w <= c * (p * q) * w <= c * (p * p) * w
  {
    Ordered(q, p, q);
    Ordered(q, p, p);
    assert q * p == p * q;
    Ordered(q * q, p * q, c);
    Ordered(p * q, p * p, c);
    assert (q * q) * c == c * (q * q) && (p * q) * c == c * (p * q) && (p * p) * c == c * (p * p);
    Ordered(c * (q * q), c * (p * q), w);
    Ordered(c * (p * q), c * (p * p), w);
  }

  lemma Difference(d: real, p: real, q: real)
    ensures (1.0 - q) * d - (1.0 - p) * d == (p - q) * d
  {
  }

  lemma Falls(p: real, q: real, d: real, rise: real)
    requires d > 0.0 && rise == (p - q) * d && rise > 0.0
    ensures q < p
  {
    if p < q {
      PositiveProduct(q - p, d);
    }
  }

  lemma SameSlope(a: real, b: real, w: real)
    requires a == b
    ensures a * w == b * w
  {
  }

  lemma ShallowChord(c: real, p: real, q: real, w: real, rise: real)
    requires 0.0 < c <= 1.0 && 0.0 < p <= 1.0 && 0.0 < q <= 1.0 && w > 0.0
    requires rise == c * (p * q) * w
    ensures 0.0 < rise <= w
  {
    ShallowSlope(c, p, q, w);
  }

  lemma ChordSlopes(c: real, p: real, q: real, w: real, rise: real, atX: real, atY: real)
    requires c >= 0.0 && 0.0 <= q <= p && w >= 0.0 && rise == c * (p * q) * w
    requires atX == c * (p * p) && atY == c * (q * q)
    ensures SlopeWithin(rise, w, atY, atX)
  {
    SlopeBetween(c, p, q, w);
    SameSlope(atX, c * (p * p), w);
    SameSlope(atY, c * (q * q), w);
  }

  lemma ChordRise(c: real, d: real, p: real, q: real, x: real, y: real, w: real, rise: real)
    requires p * (c * x + d) == d && q * (c * y + d) == d && w == y - x
    requires rise == (1.0 - q) * d - (1.0 - p) * d
    ensures rise == (p - q) * d && rise == c * (p * q) * w
  {
    Difference(d, p, q);
    ChordAlgebra(c, d, p, q, x, y);
    SameSlope(w, y - x, c * (p * q));
  }

  lemma ChordLaws(c: real, d: real, p: real, q: real, x: real, y: real, w: real, rise: real, atX: real, atY: real)
    requires 0.0 < c <= 1.0 && d > 0.0 && 0.0 < p <= 1.0 && 0.0 < q <= 1.0 && w == y - x && w > 0.0
    requires p * (c * x + d) == d && q * (c * y + d) == d
    requires rise == (1.0 - q) * d - (1.0 - p) * d && atX == c * (p * p) && atY == c * (q * q)
    ensures 0.0 < rise <= w && SlopeWithin(rise, w, atY, atX)
  {
    ChordRise(c, d, p, q, x, y, w, rise);
    ShallowChord(c, p, q, w, rise);
    Falls(p, q, d, rise);
    ChordSlopes(c, p, q, w, rise, atX, atY);
  }

  /** The band is strictly increasing, never steeper than the stiffness allows, and concave: its
      chords lie between the derivatives at their ends. */
  lemma BandRises(rb: RubberBand, x: real, y: real)
    requires rb.Valid() && 0.0 <= x < y
    ensures 0.0 < rb.Band(y) - rb.Band(x) <= y - x
    ensures SlopeWithin(rb.Band(y) - rb.Band(x), y - x, rb.Derivative(y), rb.Derivative(x))
  {
    var p := BandFacts(rb, x);
    var q := BandFacts(rb, y);
    ChordLaws(rb.stiffness, rb.limit, p, q, x, y, y - x, rb.Band(y) - rb.Band(x), rb.Derivative(x), rb.Derivative(y));
  }

  /** The band is the branch of a hyperbola through the origin: its distance from the limit is inversely
      proportional to the distance of x from a pole, and its derivative to the square of that. */
  lemma BandIsHyperbola(rb: RubberBand, x: real)
    requires rb.Valid() && x >= 0.0
    ensures (rb.limit - rb.Band(x)) * (rb.stiffness * x + rb.limit) == rb.limit * rb.limit
    ensures rb.Derivative(x) * ((rb.stiffness * x + rb.limit) * (rb.stiffness * x + rb.limit)) ==
            rb.stiffness * rb.limit * rb.limit
  {
    var p := BandFacts(rb, x);
    HyperbolaFromShare(p, rb.limit, rb.stiffness * x + rb.limit, rb.Band(x));
    rb.Denominators(x);
    QuotientBack(rb.stiffness * rb.limit * rb.limit, (rb.stiffness * x + rb.limit) * (rb.stiffness * x + rb.limit));
  }

  lemma HyperbolaFromShare(p: real, d: real, m: real, band: real)
    requires p * m == d && band == (1.0 - p) * d
    ensures (d - band) * m == d * d
  {
    ShareOfLimit(p, d);
    SwapFactors(p, d, m);
    SameProduct(d, p * m, d);
    assert d - band == p * d;
  }

  lemma ShareOfLimit(p: real, d: real)
    ensures (1.0 - p) * d == d - p * d
  {
  }

  lemma SwapFactors(p: real, d: real, m: real)
    ensures (p * d) * m == d * (p * m)
  {
  }

  lemma QuotientBack(n: real, m: real)
    requires m > 0.0
    ensures n / m * m == n
  {
  }

  lemma BandChord(rb: RubberBand, x: real, y: real, width: real)
    requires rb.Valid() && 0.0 <= x < y && width == y - x
    ensures SlopeWithin(rb.Band(y) - rb.Band(x), width, rb.Derivative(y), rb.Derivative(x))
  {
    BandRises(rb, x, y);
  }

  lemma Shortened(p: real, d: real)
    requires p > 0.0 && d > 0.0
    ensures (1.0 - p) * d < d
  {
    PositiveProduct(p, d);
  }

  /** It goes from zero towards the limit without reaching it. */
  lemma BandBelowLimit(rb: RubberBand, x: real)
    requires rb.Valid() && x >= 0.0
    ensures rb.Band(0.0) == 0.0 && rb.Band(x) < rb.limit
  {
    var p := BandFacts(rb, x);
    Shortened(p, rb.limit);
    var one := BandFacts(rb, 0.0);
    assert rb.stiffness * 0.0 == 0.0;
    UniqueQuotient(rb.limit, rb.limit, one);
  }

  lemma ClampCases(rb: RubberBand, min: real, max: real, x: real)
    requires rb.Valid() && min <= max
    ensures x < min ==> rb.Clamp(min, max, x) == min - rb.Band(min - x)
    ensures x > max ==> rb.Clamp(min, max, x) == max + rb.Band(x - max)
    ensures min <= x <= max ==> rb.Clamp(min, max, x) == x
  {
    if min <= x <= max {
      BandBelowLimit(rb, 0.0);
    }
  }

  /** `clamp` is the identity on the range and stays strictly within `limit` of it. */
  lemma ClampStaysNear(rb: RubberBand, min: real, max: real, x: real)
    requires rb.Valid() && min <= max
    ensures min <= x <= max ==> rb.Clamp(min, max, x) == x
    ensures min - rb.limit < rb.Clamp(min, max, x) < max + rb.limit
  {
    ClampCases(rb, min, max, x);
    if x < min {
      BandBelowLimit(rb, min - x);
      BandRises(rb, 0.0, min - x);
    } else if x > max {
      BandBelowLimit(rb, x - max);
      BandRises(rb, 0.0, x - max);
    }
  }

  /** `clamp` is strictly increasing and 1-Lipschitz, across the ends of the range included. */
  lemma ClampRises(rb: RubberBand, min: real, max: real, x: real, y: real)
    requires rb.Valid() && min <= max && x < y
    ensures 0.0 < rb.Clamp(min, max, y) - rb.Clamp(min, max, x) <= y - x
  {
    ClampCases(rb, min, max, x);
    ClampCases(rb, min, max, y);
    if y < min {
      BandRises(rb, min - y, min - x);
    } else if x > max {
      BandRises(rb, x - max, y - max);
    } else {
      BandBelowLimit(rb, 0.0);
      if x < min {
        BandRises(rb, 0.0, min - x);
      }
      if y > max {
        BandRises(rb, 0.0, y - max);
      }
    }
  }

  /** Within the range `clamp` rises as `clamp_derivative` says, and on either side of it the derivative is
      that of the band at the distance from the range. */
  lemma DerivativeMeans(rb: RubberBand, min: real, max: real, x: real, y: real)
    requires rb.Valid() && min <= max
    ensures min <= x <= y <= max ==>
              rb.Clamp(min, max, y) - rb.Clamp(min, max, x) == rb.ClampDerivative(min, max, x) * (y - x)
    ensures x < min ==> rb.ClampDerivative(min, max, x) == rb.Derivative(min - x)
    ensures x > max ==> rb.ClampDerivative(min, max, x) == rb.Derivative(x - max)
  {
    ClampCases(rb, min, max, x);
    ClampCases(rb, min, max, y);
  }

  lemma ChordAbove(rb: RubberBand, min: real, max: real, x: real, y: real)
    requires rb.Valid() && min <= max < x < y
    ensures SlopeWithin(rb.Clamp(min, max, y) - rb.Clamp(min, max, x), y - x,
                        rb.ClampDerivative(min, max, y), rb.ClampDerivative(min, max, x))
  {
    ClampCases(rb, min, max, x);
    ClampCases(rb, min, max, y);
    BandChord(rb, x - max, y - max, y - x);
  }

  lemma ChordBelow(rb: RubberBand, min: real, max: real, x: real, y: real)
    requires rb.Valid() && x < y < min <= max
    ensures SlopeWithin(rb.Clamp(min, max, y) - rb.Clamp(min, max, x), y - x,
                        rb.ClampDerivative(min, max, x), rb.ClampDerivative(min, max, y))
  {
    ClampCases(rb, min, max, x);
    ClampCases(rb, min, max, y);
    BandChord(rb, min - y, min - x, y - x);
  }

  /** Past the range, on either side, every chord of `clamp` is at most as steep as
      `clamp_derivative` at its end nearer to the range and at least as steep as at the other. */
  lemma ChordsBetweenDerivatives(rb: RubberBand, min: real, max: real, x: real, y: real)
    requires rb.Valid() && min <= max && x < y && (y < min || max < x)
    ensures var rise := rb.Clamp(min, max, y) - rb.Clamp(min, max, x);
      var atX, atY := rb.ClampDerivative(min, max, x), rb.ClampDerivative(min, max, y);
      if max < x then SlopeWithin(rise, y - x, atY, atX) else SlopeWithin(rise, y - x, atX, atY)
  {
    if max < x {
      ChordAbove(rb, min, max, x, y);
    } else {
      ChordBelow(rb, min, max, x, y);
    }
  }
}
