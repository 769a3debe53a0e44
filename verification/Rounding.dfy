/** `round(value, 10)`: half-even rounding to ten decimals, over exact reals. */
module Rounding {
  const SCALE := 10_000_000_000.0

  function RoundInt(y: real): int {
    var f := y.Floor;
    var d := y - f as real;
    if d < 0.5 then f else if d > 0.5 then f + 1 else if f % 2 == 0 then f else f + 1
  }

  /** `_rounded`. */
  function Round10(x: real): real {
    RoundInt(x * SCALE) as real / SCALE
  }

  lemma RoundIntNear(y: real)
    ensures -0.5 <= RoundInt(y) as real - y <= 0.5
  {
  }

  lemma RoundIntMonotone(y: real, z: real)
    requires y <= z
    ensures RoundInt(y) <= RoundInt(z)
  {
  }

  lemma RoundIntOdd(y: real)
    ensures RoundInt(-y) == -RoundInt(y)
  {
    var f := y.Floor;
    if y == f as real {
      assert (-y).Floor == -f;
    } else {
      assert (-y).Floor == -f - 1;
    }
  }

  lemma DivideOrder(a: real, b: real, c: real)
    requires a <= b && c > 0.0
    ensures a / c <= b / c
  {
    assert b / c - a / c == (b - a) / c;
  }

  /** Rounding moves a value by at most half a unit of the tenth decimal. */
  lemma Round10Near(x: real)
    ensures -0.00000000005 <= Round10(x) - x <= 0.00000000005
  {
    RoundIntNear(x * SCALE);
    var r := RoundInt(x * SCALE) as real;
    DivideOrder(x * SCALE - 0.5, r, SCALE);
    DivideOrder(r, x * SCALE + 0.5, SCALE);
  }

  lemma Round10Monotone(x: real, y: real)
    requires x <= y
    ensures Round10(x) <= Round10(y)
  {
    assert x * SCALE <= y * SCALE;
    RoundIntMonotone(x * SCALE, y * SCALE);
    DivideOrder(RoundInt(x * SCALE) as real, RoundInt(y * SCALE) as real, SCALE);
  }

  lemma Round10Odd(x: real)
    ensures Round10(-x) == -Round10(x)
  {
    assert (-x) * SCALE == -(x * SCALE);
    RoundIntOdd(x * SCALE);
  }

  /** Values within the score range stay within it. */
  lemma Round10InRange(x: real)
    requires -100.0 <= x <= 100.0
    ensures -100.0 <= Round10(x) <= 100.0
  {
    Round10Monotone(-100.0, x);
    Round10Monotone(x, 100.0);
    assert (100.0 * SCALE).Floor == 1_000_000_000_000 && (-100.0 * SCALE).Floor == -1_000_000_000_000;
    assert Round10(100.0) == 100.0 && Round10(-100.0) == -100.0;
  }
}
