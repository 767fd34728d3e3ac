/** Exact-decimal rounding. `Decimal` values are reals here; every directed rounding
    the desk performs is one of the functions below. */
module Rounding {

  /** `to_integral_value(ROUND_FLOOR)`; also `int(x)` for a non-negative `x`. */
  function FloorInt(x: real): int {
    x.Floor
  }

  /** `to_integral_value(ROUND_CEILING)`. */
  function CeilInt(x: real): int {
    -((-x).Floor)
  }

  /** The greatest multiple of `tick` that is at most `x`. */
  function FloorTick(x: real, tick: real): real
    requires tick > 0.0
  {
    FloorInt(x / tick) as real * tick
  }

  /** The least multiple of `tick` that is at least `x`. */
  function CeilTick(x: real, tick: real): real
    requires tick > 0.0
  {
    CeilInt(x / tick) as real * tick
  }

  function Min(a: real, b: real): real {
    if a <= b then a else b
  }

  function Max(a: real, b: real): real {
    if a >= b then a else b
  }

  function MinInt(a: int, b: int): int {
    if a <= b then a else b
  }

  function MaxInt(a: int, b: int): int {
    if a >= b then a else b
  }

  function Abs(a: real): real {
    if a >= 0.0 then a else -a
  }

  /** `quantity // lot * lot`: Python floor division by a positive lot. */
  function WholeLots(quantity: int, lot: int): (q: int)
    requires lot > 0
    ensures q % lot == 0
    ensures q <= quantity < q + lot
  {
    MulModZero(quantity / lot, lot);
    quantity / lot * lot
  }

  lemma MulModZero(k: int, lot: int)
    requires lot > 0
    ensures (k * lot) % lot == 0
  {
    DivUnique(k * lot, lot, k);
  }

  lemma DivUnique(n: int, lot: int, k: int)
    requires lot > 0 && k * lot <= n < k * lot + lot
    ensures n / lot == k
  {
    var d := n / lot;
    if d < k {
      ProductLe(d + 1, k, lot);
    } else if k < d {
      ProductLe(k + 1, d, lot);
    }
  }

  lemma ProductLe(a: int, b: int, lot: int)
    requires lot > 0 && a <= b
    ensures a * lot <= b * lot
  {
  }

  /** A whole number of lots fits under `cap` exactly when it fits under the floored cap. */
  lemma WholeLotsGreatest(q: int, cap: int, lot: int)
    requires lot > 0 && q % lot == 0
    ensures q <= cap <==> q <= WholeLots(cap, lot)
  {
    var k, j := q / lot, cap / lot;
    if k <= j {
      ProductLe(k, j, lot);
    } else {
      ProductLe(j + 1, k, lot);
    }
  }

  /** Half-even rounding to an integer, the default of `Decimal.quantize`. */
  function HalfEven(x: real): int {
    var f := x.Floor;
    var rest := x - f as real;
    if rest < 0.5 then f
    else if rest > 0.5 then f + 1
    else if f % 2 == 0 then f else f + 1
  }

  /** `quantize(Decimal("0.00000001"))`. */
  function Quantize8(x: real): real {
    HalfEven(x * 100000000.0) as real / 100000000.0
  }

  const HALF_UNIT: real := 0.000000005

  lemma QuantizeError(x: real)
    ensures -HALF_UNIT <= Quantize8(x) - x <= HALF_UNIT
  {
  }

  /** Multiplying a multiple of the divisor through a division. */
  lemma LeDiv(k: real, x: real, d: real)
    requires d > 0.0
    ensures k <= x / d <==> k * d <= x
    ensures k >= x / d <==> k * d >= x
  {
    var y := x / d;
    assert y * d == x;
    assert (k - y) * d == k * d - x;
    if k >= y {
      assert (k - y) * d >= 0.0;
    }
    if k <= y {
      assert (y - k) * d >= 0.0;
    }
    if k > y {
      assert (k - y) * d > 0.0;
    }
    if k < y {
      assert (y - k) * d > 0.0;
    }
  }

  /** The floored tick price is the greatest tick multiple not above `x`, less than a tick away. */
  lemma FloorTickGreatest(x: real, tick: real, k: int)
    requires tick > 0.0
    ensures k as real * tick <= x <==> k as real * tick <= FloorTick(x, tick)
    ensures FloorTick(x, tick) <= x < FloorTick(x, tick) + tick
  {
    var f := FloorInt(x / tick);
    LeDiv(k as real, x, tick);
    LeDiv(f as real, x, tick);
    LeDiv((f + 1) as real, x, tick);
    assert (f + 1) as real * tick == f as real * tick + tick;
    assert k as real * tick - f as real * tick == (k - f) as real * tick;
    if k <= f {
      assert (f - k) as real * tick >= 0.0;
    } else {
      assert (k - f) as real * tick > 0.0;
    }
  }

  /** The raised tick price is the least tick multiple not below `x`, less than a tick away. */
  lemma CeilTickLeast(x: real, tick: real, k: int)
    requires tick > 0.0
    ensures x <= k as real * tick <==> CeilTick(x, tick) <= k as real * tick
    ensures CeilTick(x, tick) - tick < x <= CeilTick(x, tick)
  {
    FloorTickGreatest(-x, tick, -k);
    assert (-x) / tick == -(x / tick) by {
      LeDiv(-(x / tick), -x, tick);
    }
    assert CeilTick(x, tick) == -FloorTick(-x, tick);
    assert (-k) as real * tick == -(k as real * tick);
  }

  lemma FloorTickMonotone(x: real, y: real, tick: real)
    requires tick > 0.0 && x <= y
    ensures FloorTick(x, tick) <= FloorTick(y, tick)
  {
    FloorTickGreatest(x, tick, 0);
    FloorTickGreatest(y, tick, FloorInt(x / tick));
  }

  lemma CeilTickMonotone(x: real, y: real, tick: real)
    requires tick > 0.0 && x <= y
    ensures CeilTick(x, tick) <= CeilTick(y, tick)
  {
    CeilTickLeast(y, tick, 0);
    CeilTickLeast(x, tick, CeilInt(y / tick));
  }

  /** How many units a budget buys, `int(max(0, budget) / unit)`, against buying one at a time. */
  lemma UnitsFit(budget: real, unit: real, q: int)
    requires unit > 0.0 && q > 0
    ensures q <= FloorInt(Max(0.0, budget) / unit) <==> q as real * unit <= budget
  {
    LeDiv(q as real, Max(0.0, budget), unit);
    assert q as real * unit > 0.0;
  }
}
