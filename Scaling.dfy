/**
  The values the layout derives from the stored viewport dimensions and its
  configuration: the scale factor, the viewport-height converter `scaledVh`,
  the context snapshot published to descendants, and what the component renders.
  All of them are pure functions of `(width, height, config)`.
 */
module Scaling {
  import opened Quantization

  /** The component's props that influence the numbers (`className` is left out). */
  datatype Config = Config(
    minWidth: real,
    disableScalingAboveMinWidth: bool,
    maxScale: real,
    scaleStep: real)
  {
    /** The code divides by both without checking them; callers must keep them positive. */
    predicate Valid() {
      minWidth > 0.0 && scaleStep > 0.0
    }
  }

  /** The prop defaults of `ScalingLayout`. */
  const DefaultConfig: Config := Config(768.0, true, 1.0, 0.01)

  /** The lower bound the shrink branch applies before quantising. */
  const ShrinkFloor: real := 0.1

  /** A JavaScript number that results from a division: finite, or Infinity/NaN after a division by zero. */
  datatype Extended = Finite(value: real) | NonFinite

  /** `Math.max` of two numbers. */
  function Max(a: real, b: real): (r: real)
    ensures r >= a && r >= b && (r == a || r == b)
  {
    if a >= b then a else b
  }

  /** `Math.min` of two numbers. */
  function Min(a: real, b: real): (r: real)
    ensures r <= a && r <= b && (r == a || r == b)
  {
    if a <= b then a else b
  }

  /** `a / b` on JavaScript numbers: non-finite exactly when the divisor is 0. */
  function Divide(a: real, b: real): (r: Extended)
    ensures r.Finite? <==> b != 0.0
    ensures r.Finite? ==> r.value * b == a
  {
    if b == 0.0 then NonFinite else Finite(a / b)
  }

  /**
    `newScale`: the branch chosen for a measured width, before quantisation.
    Shrinking keeps it in [0.1, 1); shrink-only gives 1; growing never passes
    `maxScale` nor the width ratio, and reaches 1 when `maxScale` is at least 1.
   */
  function RawScale(width: nat, c: Config): (r: real)
    requires c.Valid()
    ensures (width as real) < c.minWidth ==> ShrinkFloor <= r < 1.0
    ensures (width as real) >= c.minWidth && c.disableScalingAboveMinWidth ==> r == 1.0
    ensures (width as real) >= c.minWidth && !c.disableScalingAboveMinWidth ==>
      r <= c.maxScale && r <= width as real / c.minWidth && (c.maxScale >= 1.0 ==> r >= 1.0)
  {
    var w := width as real;
    if w < c.minWidth then
      DivStrictlyPositive(w, c.minWidth, c.minWidth);
      assert c.minWidth / c.minWidth == 1.0;
      Max(w / c.minWidth, ShrinkFloor)
    else if c.disableScalingAboveMinWidth then 1.0
    else
      DivPositive(c.minWidth, w, c.minWidth);
      assert c.minWidth / c.minWidth == 1.0;
      var ratio := w / c.minWidth;
      assert ratio >= 1.0;
      Min(ratio, c.maxScale)
  }

  /**
    The scale factor: 1 while unmeasured, otherwise `newScale` quantised to
    `scaleStep`, which keeps it within half a step of `newScale`.
   */
  function Scale(width: nat, c: Config): (r: real)
    requires c.Valid()
    ensures width > 0 ==> RawScale(width, c) - c.scaleStep / 2.0 < r <= RawScale(width, c) + c.scaleStep / 2.0
  {
    if width == 0 then 1.0 else Quantize(RawScale(width, c), c.scaleStep)
  }

  /** An unmeasured width gives exactly 1, with no quantisation applied. */
  lemma UnmeasuredScaleIsOne(c: Config, step: real)
    requires c.Valid() && step > 0.0
    ensures Scale(0, c) == 1.0
    ensures Scale(0, c.(scaleStep := step)) == 1.0
  {
  }

  /** Below `minWidth` the width is divided by `minWidth` and floored at 0.1. */
  lemma ShrinkBranch(width: nat, c: Config)
    requires c.Valid() && 0 < width && (width as real) < c.minWidth
    ensures RawScale(width, c) == Max(width as real / c.minWidth, ShrinkFloor)
    ensures width as real / c.minWidth >= ShrinkFloor ==> RawScale(width, c) * c.minWidth == width as real
  {
    DivMul(width as real, c.minWidth);
  }

  /** Shrink-only layouts take 1 from `minWidth` on, before quantising. */
  lemma ShrinkOnlyBranch(width: nat, c: Config)
    requires c.Valid() && c.disableScalingAboveMinWidth && (width as real) >= c.minWidth
    ensures RawScale(width, c) == 1.0
    ensures Scale(width, c) == Quantize(1.0, c.scaleStep)
  {
  }

  /**
    ... and the quantised result is exactly 1 when 1 is a whole multiple of the
    step (n steps make 1; 100 steps of 0.01 in the default configuration).
   */
  lemma ShrinkOnlyScaleIsOne(width: nat, c: Config, n: int)
    requires c.Valid() && c.disableScalingAboveMinWidth && (width as real) >= c.minWidth
    requires n as real * c.scaleStep == 1.0
    ensures Scale(width, c) == 1.0
  {
    QuantizeOnGrid(n, c.scaleStep);
  }

  /** `maxScale` only matters in the growing branch: with the flag set it never changes the scale. */
  lemma MaxScaleIgnoredWhenShrinkOnly(width: nat, c: Config, m: real)
    requires c.Valid() && c.disableScalingAboveMinWidth
    ensures Scale(width, c.(maxScale := m)) == Scale(width, c)
  {
  }

  /** Without the flag, from `minWidth` on the width ratio is capped by `maxScale`. */
  lemma GrowBranch(width: nat, c: Config)
    requires c.Valid() && !c.disableScalingAboveMinWidth && (width as real) >= c.minWidth
    ensures RawScale(width, c) == Min(width as real / c.minWidth, c.maxScale)
  {
  }

  /**
    A measured width gives k * scaleStep with k = `Math.round(newScale / scaleStep)`:
    a whole multiple of the step, and a fixed point of quantisation.
   */
  lemma ScaleIsQuantized(width: nat, c: Config)
    requires c.Valid() && width > 0
    ensures Scale(width, c) == RoundHalfUp(RawScale(width, c) / c.scaleStep) as real * c.scaleStep
    ensures Quantize(Scale(width, c), c.scaleStep) == Scale(width, c)
  {
    var raw := RawScale(width, c);
    assert Scale(width, c) == Quantize(raw, c.scaleStep);
    QuantizeIdempotent(RawScale(width, c), c.scaleStep);
  }

  /**
    The scale is positive exactly when `newScale` reaches half a step; otherwise
    quantisation sends it to 0 or below.
   */
  lemma ScalePositiveIff(width: nat, c: Config)
    requires c.Valid() && width > 0
    ensures Scale(width, c) > 0.0 <==> RawScale(width, c) >= c.scaleStep / 2.0
  {
    QuantizePositiveIff(RawScale(width, c), c.scaleStep);
  }

  /**
    Below `minWidth` the scale is the larger of the quantised width ratio and the
    quantised 0.1, so it never falls below the quantised floor, for any step.
   */
  lemma ShrinkScale(width: nat, c: Config)
    requires c.Valid() && 0 < width && (width as real) < c.minWidth
    ensures Scale(width, c) == Max(Quantize(width as real / c.minWidth, c.scaleStep), Quantize(ShrinkFloor, c.scaleStep))
    ensures Scale(width, c) >= Quantize(ShrinkFloor, c.scaleStep)
  {
    var r := width as real / c.minWidth;
    QuantizeMonotone(r, Max(r, ShrinkFloor), c.scaleStep);
    QuantizeMonotone(ShrinkFloor, Max(r, ShrinkFloor), c.scaleStep);
  }

  /**
    The 0.1 floor survives quantisation when 0.1 is a whole multiple of the step
    (m steps make 0.1) and the growing branch is not capped below 0.1.
   */
  lemma ScaleAtLeastFloor(width: nat, c: Config, m: int)
    requires c.Valid() && m as real * c.scaleStep == ShrinkFloor
    requires (width as real) < c.minWidth || c.disableScalingAboveMinWidth || c.maxScale >= ShrinkFloor
    ensures Scale(width, c) >= ShrinkFloor
  {
    if width > 0 {
      var raw := RawScale(width, c);
      if (width as real) >= c.minWidth && !c.disableScalingAboveMinWidth {
        DivPositive(c.minWidth, width as real, c.minWidth);
      }
      assert raw >= ShrinkFloor;
      QuantizeAboveGridPoint(raw, c.scaleStep, m);
    }
  }

  /**
    Without that hypothesis the floor does not hold: with a step of 1, a width of
    3 against a `minWidth` of 10 gives `newScale` 0.3, which rounds to 0.
   */
  lemma FloorLostToCoarseStep()
    ensures RawScale(3, Config(10.0, true, 1.0, 1.0)) == 0.3
    ensures Scale(3, Config(10.0, true, 1.0, 1.0)) == 0.0
  {
    QuantizeUnique(0.3, 1.0, 0);
  }

  /**
    `scaledVh(vh)`: `vh` percent of the viewport height in pixels, divided by the
    scale. It undoes the scale: for a nonzero scale it is finite and multiplying
    it back by the scale gives `vh` percent of the height; for scale 0 the
    division yields Infinity or NaN.
   */
  function ScaledVh(height: nat, scale: real, vh: real): (r: Extended)
    ensures r.Finite? <==> scale != 0.0
    ensures r.Finite? ==> r.value * scale == height as real * vh / 100.0
  {
    Divide(height as real * vh / 100.0, scale)
  }

  /**
    The `--inverse-scale` style variable: the reciprocal of the scale, finite
    exactly when the scale is nonzero.
   */
  function InverseScale(scale: real): (r: Extended)
    ensures r.Finite? <==> scale != 0.0
    ensures r.Finite? ==> r.value * scale == 1.0
  {
    Divide(1.0, scale)
  }

  /** The snapshot published through the context (`useScaling()` reads it). */
  datatype ScalingContext = ScalingContext(
    windowWidth: nat,
    windowHeight: nat,
    scale: real,
    scaledVh: real -> Extended)

  /** What a reader outside any layout receives. */
  const DefaultContext: ScalingContext := ScalingContext(0, 0, 1.0, vh => Finite(vh))

  /** The neutral default: no dimensions, scale 1, and `scaledVh` the identity. */
  lemma DefaultContextIsNeutral(vh: real)
    ensures DefaultContext.windowWidth == 0 && DefaultContext.windowHeight == 0
    ensures DefaultContext.scale == 1.0
    ensures DefaultContext.scaledVh(vh) == Finite(vh)
  {
  }

  /**
    `contextValue`: the stored dimensions with the current scale, and a `scaledVh`
    that uses the current height and undoes the current scale when it is nonzero;
    at scale 0 every `scaledVh(vh)` is Infinity or NaN.
   */
  function ContextValue(width: nat, height: nat, c: Config): (r: ScalingContext)
    requires c.Valid()
    ensures r.windowWidth == width && r.windowHeight == height
    ensures r.scale == Scale(width, c)
    ensures forall vh :: r.scaledVh(vh) == ScaledVh(height, r.scale, vh)
    ensures r.scale != 0.0 ==> forall vh ::
      r.scaledVh(vh).Finite? && r.scaledVh(vh).value * r.scale == height as real * vh / 100.0
    ensures r.scale == 0.0 ==> forall vh :: r.scaledVh(vh) == NonFinite
  {
    var s := Scale(width, c);
    ScalingContext(width, height, s, vh => ScaledVh(height, s, vh))
  }

  /** The scale depends on the width and the configuration only: the height never moves it. */
  lemma ScaleIgnoresHeight(width: nat, h1: nat, h2: nat, c: Config)
    requires c.Valid()
    ensures ContextValue(width, h1, c).scale == ContextValue(width, h2, c).scale
  {
  }

  /**
    The provider's snapshot for a {0, 0} window shares the default's dimensions
    and scale, but its `scaledVh` maps every `vh` to 0 rather than to itself.
    While unmounted nothing is rendered, so descendants see that snapshot only
    when the window was measured as 0 by 0.
   */
  lemma UnmeasuredContextDiffersFromDefault(c: Config, vh: real)
    requires c.Valid()
    ensures Render(false, 0, 0, c).Nothing?
    ensures ContextValue(0, 0, c).scale == DefaultContext.scale
    ensures ContextValue(0, 0, c).windowWidth == DefaultContext.windowWidth
    ensures ContextValue(0, 0, c).scaledVh(vh) == Finite(0.0)
    ensures vh != 0.0 ==> ContextValue(0, 0, c).scaledVh(vh) != DefaultContext.scaledVh(vh)
  {
  }

  /** What the component returns: nothing, or one wrapper carrying the style variables and the provider value. */
  datatype Output =
    | Nothing
    | Wrapper(scaleVar: real, inverseScaleVar: Extended, value: ScalingContext)

  /**
    The render: nothing before mounting; once mounted one wrapper whose `--scale`
    is the scale, whose `--inverse-scale` is its reciprocal (times the scale 1
    when the scale is nonzero, Infinity at scale 0), and which provides the
    current snapshot.
   */
  function Render(mounted: bool, width: nat, height: nat, c: Config): (r: Output)
    requires c.Valid()
    ensures r.Nothing? <==> !mounted
    ensures r.Wrapper? ==> r.scaleVar == Scale(width, c) && r.value == ContextValue(width, height, c)
    ensures r.Wrapper? ==> r.inverseScaleVar == InverseScale(r.scaleVar)
    ensures r.Wrapper? && r.scaleVar != 0.0 ==>
      r.inverseScaleVar.Finite? && r.inverseScaleVar.value * r.scaleVar == 1.0
    ensures r.Wrapper? && r.scaleVar == 0.0 ==> r.inverseScaleVar == NonFinite
  {
    if !mounted then Nothing
    else
      var s := Scale(width, c);
      Wrapper(s, InverseScale(s), ContextValue(width, height, c))
  }

  /** The default props: shrink-only below 768 px with steps of 0.01, and scale 1 from 768 px on. */
  lemma DefaultConfigBehaviour(width: nat)
    ensures DefaultConfig.Valid()
    ensures DefaultConfig.minWidth == 768.0 && DefaultConfig.disableScalingAboveMinWidth
    ensures DefaultConfig.maxScale == 1.0 && DefaultConfig.scaleStep == 0.01
    ensures (width as real) >= 768.0 ==> Scale(width, DefaultConfig) == 1.0
    ensures Scale(width, DefaultConfig) >= ShrinkFloor
  {
    if (width as real) >= 768.0 {
      ShrinkOnlyScaleIsOne(width, DefaultConfig, 100);
    }
    ScaleAtLeastFloor(width, DefaultConfig, 10);
  }

  /** Worked examples: half the design width, a wide window, a growing layout, and `scaledVh`. */
  lemma Scenarios()
    ensures Scale(384, DefaultConfig) == 0.5
    ensures Scale(1200, DefaultConfig) == 1.0
    ensures Scale(1200, DefaultConfig.(maxScale := 3.0)) == 1.0
    ensures Scale(1200, Config(768.0, false, 1.5, 0.1)) == 1.5
    ensures ScaledVh(800, 0.5, 50.0) == Finite(800.0)
  {
    QuantizeOnGrid(50, 0.01);
    QuantizeOnGrid(100, 0.01);
    QuantizeOnGrid(15, 0.1);
  }
}
