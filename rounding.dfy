// BigDecimal.setScale(scale, mode) for the rounding modes the engine uses:
// FLOOR, CEILING, HALF_UP and HALF_DOWN. A value "on the grid" of a scale is
// an integral multiple of 10^-scale.
module Rounding {

  function Pow10(n: nat): (r: nat)
    ensures r >= 1
  {
    if n == 0 then 1 else 10 * Pow10(n - 1)
  }

  /** 10^-scale: the smallest step representable at the scale. */
  function Unit(scale: nat): (u: real)
    ensures u > 0.0
  {
    1.0 / Pow10(scale) as real
  }

  /** x has at most `scale` decimals. */
  predicate OnGrid(x: real, scale: nat)
  {
    IsIntegral(x * Pow10(scale) as real)
  }

  predicate IsIntegral(y: real)
  {
    y.Floor as real == y
  }

  lemma ScaleBack(k: int, scale: nat)
    ensures (k as real / Pow10(scale) as real) * Pow10(scale) as real == k as real
    ensures k as real / Pow10(scale) as real == k as real * Unit(scale)
  {
  }

  lemma OnGridOfInt(k: int, scale: nat)
    ensures OnGrid(k as real / Pow10(scale) as real, scale)
  {
    ScaleBack(k, scale);
  }

  /** Rounding toward negative infinity. */
  function Floor(x: real, scale: nat): (r: real)
    ensures r <= x < r + Unit(scale)
    ensures OnGrid(r, scale)
  {
    var m := Pow10(scale) as real;
    var f := (x * m).Floor;
    OnGridOfInt(f, scale);
    FloorBounds(x, m, f);
    f as real / m
  }

  lemma FloorBounds(x: real, m: real, f: int)
    requires m >= 1.0
    requires f as real <= x * m < f as real + 1.0
    ensures f as real / m <= x < f as real / m + 1.0 / m
  {
    assert x == (x * m) / m;
    assert (f as real + 1.0) / m == f as real / m + 1.0 / m;
  }

  /** Rounding toward positive infinity. */
  function Ceiling(x: real, scale: nat): (r: real)
    ensures x <= r < x + Unit(scale)
    ensures OnGrid(r, scale)
  {
    NegOnGrid(Floor(-x, scale), scale);
    -Floor(-x, scale)
  }

  lemma NegOnGrid(x: real, scale: nat)
    requires OnGrid(x, scale)
    ensures OnGrid(-x, scale)
  {
    var y := x * Pow10(scale) as real;
    assert IsIntegral(y);
    assert (-x) * Pow10(scale) as real == -y;
    assert (-y).Floor == -(y.Floor);
  }

  /** Round to nearest; ties away from zero. */
  function HalfUp(x: real, scale: nat): (r: real)
    ensures x - Unit(scale) / 2.0 <= r <= x + Unit(scale) / 2.0
    ensures x >= 0.0 ==> x - Unit(scale) / 2.0 < r
    ensures x < 0.0 ==> r < x + Unit(scale) / 2.0
    ensures OnGrid(r, scale)
  {
    var h := Unit(scale) / 2.0;
    if x >= 0.0 then Floor(x + h, scale)
    else
      NegOnGrid(Floor(-x + h, scale), scale);
      -Floor(-x + h, scale)
  }

  /** Round to nearest; ties toward zero. */
  function HalfDown(x: real, scale: nat): (r: real)
    ensures x - Unit(scale) / 2.0 <= r <= x + Unit(scale) / 2.0
    ensures x >= 0.0 ==> r < x + Unit(scale) / 2.0
    ensures x < 0.0 ==> x - Unit(scale) / 2.0 < r
    ensures OnGrid(r, scale)
  {
    var h := Unit(scale) / 2.0;
    if x >= 0.0 then Ceiling(x - h, scale)
    else
      NegOnGrid(Ceiling(-x - h, scale), scale);
      -Ceiling(-x - h, scale)
  }

  /** Two distinct values on one grid are at least one unit apart. */
  lemma GridGap(a: real, b: real, scale: nat)
    requires OnGrid(a, scale) && OnGrid(b, scale)
    requires a < b
    ensures a + Unit(scale) <= b
  {
    MulStrictMono(a, b, Pow10(scale) as real);
    IntegralGap(a * Pow10(scale) as real, b * Pow10(scale) as real);
    UnscaleGap(a, b, Pow10(scale) as real);
  }

  lemma IntegralGap(y1: real, y2: real)
    requires IsIntegral(y1) && IsIntegral(y2) && y1 < y2
    ensures y1 + 1.0 <= y2
  {
    assert y1.Floor < y2.Floor;
  }

  lemma UnscaleGap(a: real, b: real, m: real)
    requires m > 0.0 && a * m + 1.0 <= b * m
    ensures a + 1.0 / m <= b
  {
    DivMono(a * m + 1.0, b * m, m);
    assert (a * m + 1.0) / m == a + 1.0 / m;
    assert (b * m) / m == b;
  }

  lemma DivMono(a: real, b: real, m: real)
    requires a <= b && m > 0.0
    ensures a / m <= b / m
  {
    assert b / m - a / m == (b - a) / m;
  }

  lemma MulStrictMono(a: real, b: real, m: real)
    requires a < b && m > 0.0
    ensures a * m < b * m
  {
    assert b * m - a * m == (b - a) * m;
  }

  /** A value already on the grid is left unchanged by FLOOR. */
  lemma FloorOnGrid(x: real, scale: nat)
    requires OnGrid(x, scale)
    ensures Floor(x, scale) == x
  {
    var r := Floor(x, scale);
    if r < x {
      GridGap(r, x, scale);
    }
  }

  /** A value already on the grid is left unchanged by CEILING. */
  lemma CeilingOnGrid(x: real, scale: nat)
    requires OnGrid(x, scale)
    ensures Ceiling(x, scale) == x
  {
    var r := Ceiling(x, scale);
    if x < r {
      GridGap(x, r, scale);
    }
  }

  /**
   * Rounding to the nearest grid value keeps a value inside any interval
   * whose ends are on the grid.
   */
  lemma NearestStaysInGridInterval(x: real, r: real, lo: real, hi: real, scale: nat)
    requires OnGrid(lo, scale) && OnGrid(hi, scale) && OnGrid(r, scale)
    requires lo <= x <= hi
    requires x - Unit(scale) / 2.0 <= r <= x + Unit(scale) / 2.0
    ensures lo <= r <= hi
  {
    if r < lo {
      GridGap(r, lo, scale);
    }
    if hi < r {
      GridGap(hi, r, scale);
    }
  }

  /** The unit itself is on the grid. */
  lemma UnitOnGrid(scale: nat)
    ensures OnGrid(Unit(scale), scale)
  {
    OnGridOfInt(1, scale);
  }

  /** Moving a grid value by a whole number of units stays on the grid. */
  lemma OnGridShift(x: real, k: int, scale: nat)
    requires OnGrid(x, scale)
    ensures OnGrid(x + k as real * Unit(scale), scale)
  {
    var y := x * Pow10(scale) as real;
    assert (x + k as real * Unit(scale)) * Pow10(scale) as real == y + k as real;
    assert (y + k as real).Floor == y.Floor + k;
  }

  /** Stepping a grid value down by whole units stays on the grid. */
  lemma OnGridShiftDown(x: real, k: nat, scale: nat)
    requires OnGrid(x, scale)
    ensures OnGrid(x - k as real * Unit(scale), scale)
  {
    var y := x * Pow10(scale) as real;
    assert (x - k as real * Unit(scale)) * Pow10(scale) as real == y - k as real;
    assert (y - k as real).Floor == y.Floor - k;
  }

  /** Sums and differences of grid values are on the grid. */
  lemma OnGridSum(a: real, b: real, scale: nat)
    requires OnGrid(a, scale) && OnGrid(b, scale)
    ensures OnGrid(a + b, scale) && OnGrid(a - b, scale)
  {
    Distribute(a, b, Pow10(scale) as real);
    IntegralSum(a * Pow10(scale) as real, b * Pow10(scale) as real);
  }

  lemma Distribute(a: real, b: real, m: real)
    ensures (a + b) * m == a * m + b * m && (a - b) * m == a * m - b * m
  {
  }

  lemma IntegralSum(y1: real, y2: real)
    requires IsIntegral(y1) && IsIntegral(y2)
    ensures IsIntegral(y1 + y2) && IsIntegral(y1 - y2)
  {
    var k1, k2 := y1.Floor, y2.Floor;
    assert y1 + y2 == (k1 + k2) as real && ((k1 + k2) as real).Floor == k1 + k2;
    assert y1 - y2 == (k1 - k2) as real && ((k1 - k2) as real).Floor == k1 - k2;
  }

  /** Rounding to nearest with ties away from zero leaves grid values unchanged. */
  lemma HalfUpOnGrid(x: real, scale: nat)
    requires OnGrid(x, scale)
    ensures HalfUp(x, scale) == x
  {
    if x >= 0.0 {
      FloorWithinHalf(x, scale);
    } else {
      NegOnGrid(x, scale);
      FloorWithinHalf(-x, scale);
    }
  }

  lemma FloorWithinHalf(x: real, scale: nat)
    requires OnGrid(x, scale)
    ensures Floor(x + Unit(scale) / 2.0, scale) == x
  {
    var r := Floor(x + Unit(scale) / 2.0, scale);
    if r < x {
      GridGap(r, x, scale);
    } else if x < r {
      GridGap(x, r, scale);
    }
  }

  /** Rounding to nearest with ties toward zero leaves grid values unchanged. */
  lemma HalfDownOnGrid(x: real, scale: nat)
    requires OnGrid(x, scale)
    ensures HalfDown(x, scale) == x
  {
    if x >= 0.0 {
      CeilingWithinHalf(x, scale);
    } else {
      NegOnGrid(x, scale);
      CeilingWithinHalf(-x, scale);
    }
  }

  lemma CeilingWithinHalf(x: real, scale: nat)
    requires OnGrid(x, scale)
    ensures Ceiling(x - Unit(scale) / 2.0, scale) == x
  {
    var r := Ceiling(x - Unit(scale) / 2.0, scale);
    if r < x {
      GridGap(r, x, scale);
    } else if x < r {
      GridGap(x, r, scale);
    }
  }

  /**
   * CEILING gives the least grid value not below x: any grid value at or
   * above x is at or above the rounded one.
   */
  lemma CeilingIsLeast(x: real, p: real, scale: nat)
    requires OnGrid(p, scale) && x <= p
    ensures Ceiling(x, scale) <= p
  {
    var r := Ceiling(x, scale);
    if p < r {
      GridGap(p, r, scale);
    }
  }

  /**
   * FLOOR gives the greatest grid value not above x.
   */
  lemma FloorIsGreatest(x: real, p: real, scale: nat)
    requires OnGrid(p, scale) && p <= x
    ensures p <= Floor(x, scale)
  {
    var r := Floor(x, scale);
    if r < p {
      GridGap(r, p, scale);
    }
  }

  /** HALF_DOWN lands on the grid, and leaves grid values unchanged. */
  lemma HalfDownOnGridIfOnGrid(x: real, scale: nat)
    ensures OnGrid(HalfDown(x, scale), scale)
    ensures OnGrid(x, scale) ==> HalfDown(x, scale) == x
  {
    if OnGrid(x, scale) {
      HalfDownOnGrid(x, scale);
    }
  }
}
