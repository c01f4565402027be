/**
  Rounding to the nearest multiple of a step, as the scale derivation does with
  `Math.round(x / step) * step`. JavaScript's `Math.round` rounds to the nearest
  integer and sends halves towards +Infinity, so it is `Floor(x + 0.5)`.
  Numbers are `real`: an idealisation of IEEE-754 doubles.
 */
module Quantization {

  /** `Math.round`: the integer k with k - 1/2 <= x < k + 1/2. */
  function RoundHalfUp(x: real): (k: int)
    ensures x - 0.5 < k as real <= x + 0.5
  {
    (x + 0.5).Floor
  }

  /** The only integer in (x - 1/2, x + 1/2] is the one `Math.round` picks. */
  lemma RoundHalfUpUnique(x: real, j: int)
    requires x - 0.5 < j as real <= x + 0.5
    ensures RoundHalfUp(x) == j
  {
    var k := RoundHalfUp(x);
    assert k as real - j as real < 1.0 && j as real - k as real < 1.0;
  }

  /**
    `Math.round(x / step) * step`. Quantising moves a value by at most half a
    step: the result lies in the half-open window (x - step/2, x + step/2].
   */
  function Quantize(x: real, step: real): (r: real)
    requires step > 0.0
    ensures x - step / 2.0 < r <= x + step / 2.0
  {
    var q := x / step;
    var k := RoundHalfUp(q);
    MulStrictlyPositive(q - 0.5, k as real, step);
    MulPositive(k as real, q + 0.5, step);
    DivMul(x, step);
    assert (q - 0.5) * step == q * step - 0.5 * step;
    assert (q + 0.5) * step == q * step + 0.5 * step;
    k as real * step
  }

  lemma MulStrictlyPositive(a: real, b: real, c: real)
    requires a < b && c > 0.0
    ensures a * c < b * c
  {
  }

  lemma MulPositive(a: real, b: real, c: real)
    requires a <= b && c > 0.0
    ensures a * c <= b * c
  {
  }

  /** The quotient times the step gives the value back. */
  lemma DivMul(x: real, step: real)
    requires step > 0.0
    ensures (x / step) * step == x
  {
  }

  /**
    Conversely to the window of `Quantize`, a multiple of the step inside that
    window is the quantised value:
    the window (x - step/2, x + step/2] holds exactly one multiple of the step.
   */
  lemma QuantizeUnique(x: real, step: real, j: int)
    requires step > 0.0
    requires x - step / 2.0 < j as real * step <= x + step / 2.0
    ensures Quantize(x, step) == j as real * step
    ensures RoundHalfUp(x / step) == j
  {
    var q := x / step;
    DivMul(x, step);
    DivMul(j as real * step, step);
    DivShift(x, step, -0.5);
    DivShift(x, step, 0.5);
    DivStrictlyPositive(x - step / 2.0, j as real * step, step);
    DivPositive(j as real * step, x + step / 2.0, step);
    MulCancel((j as real * step) / step, j as real, step);
    RoundHalfUpUnique(q, j);
  }

  /** Moving the numerator by a multiple of the divisor moves the quotient by that multiple. */
  lemma DivShift(x: real, step: real, d: real)
    requires step > 0.0
    ensures (x + d * step) / step == x / step + d
  {
    DivMul(x + d * step, step);
    DivMul(x, step);
    assert (x / step + d) * step == (x / step) * step + d * step;
    MulCancel((x + d * step) / step, x / step + d, step);
  }

  lemma MulCancel(a: real, b: real, c: real)
    requires c > 0.0 && a * c == b * c
    ensures a == b
  {
    if a < b {
      MulStrictlyPositive(a, b, c);
    } else if b < a {
      MulStrictlyPositive(b, a, c);
    }
  }

  lemma DivStrictlyPositive(a: real, b: real, c: real)
    requires a < b && c > 0.0
    ensures a / c < b / c
  {
  }

  lemma DivPositive(a: real, b: real, c: real)
    requires a <= b && c > 0.0
    ensures a / c <= b / c
  {
  }

  /** A value that is already a whole multiple of the step is left unchanged. */
  lemma QuantizeOnGrid(j: int, step: real)
    requires step > 0.0
    ensures Quantize(j as real * step, step) == j as real * step
  {
    QuantizeUnique(j as real * step, step, j);
  }

  /** Quantising twice is quantising once. */
  lemma QuantizeIdempotent(x: real, step: real)
    requires step > 0.0
    ensures Quantize(Quantize(x, step), step) == Quantize(x, step)
  {
    var k := RoundHalfUp(x / step);
    assert Quantize(x, step) == k as real * step;
    QuantizeOnGrid(k, step);
  }

  /** Quantising preserves order (it never swaps two values). */
  lemma QuantizeMonotone(x: real, y: real, step: real)
    requires step > 0.0 && x <= y
    ensures Quantize(x, step) <= Quantize(y, step)
  {
    DivPositive(x, y, step);
    var kx, ky := RoundHalfUp(x / step), RoundHalfUp(y / step);
    assert kx as real <= x / step + 0.5 <= y / step + 0.5 < ky as real + 1.0;
    assert kx <= ky;
    MulPositive(kx as real, ky as real, step);
    assert Quantize(x, step) == kx as real * step;
    assert Quantize(y, step) == ky as real * step;
  }

  /** A whole multiple of the step that bounds a value from below also bounds its quantisation. */
  lemma QuantizeAboveGridPoint(x: real, step: real, j: int)
    requires step > 0.0 && j as real * step <= x
    ensures Quantize(x, step) >= j as real * step
  {
    QuantizeMonotone(j as real * step, x, step);
    QuantizeOnGrid(j, step);
  }

  /** The quantised value is positive exactly when the value is at least half a step. */
  lemma QuantizePositiveIff(x: real, step: real)
    requires step > 0.0
    ensures Quantize(x, step) > 0.0 <==> x >= step / 2.0
  {
    var k := RoundHalfUp(x / step);
    DivMul(x, step);
    DivShift(0.0, step, 0.5);
    if x >= step / 2.0 {
      DivPositive(step / 2.0, x, step);
      assert k >= 1;
      MulPositive(1.0, k as real, step);
    } else {
      DivStrictlyPositive(x, step / 2.0, step);
      assert k <= 0;
      MulPositive(k as real, 0.0, step);
    }
  }
}
