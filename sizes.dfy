/** Sizes and the aspect-fit / aspect-fill calculations. `CGFloat` is
    modelled as `real`; rounding up is an exact ceiling.
 */
module Sizes {

  datatype Size = Size(width: real, height: real)

  /** `CGFloat.ulpOfOne` where `CGFloat` is 64-bit: the distance from 1.0 to
      the next larger `Double` (2^-52). */
  const UlpOfOne: real := 0.0000000000000002220446049250313080847263336181640625

  /** The least whole number not below `x`. */
  function Ceil(x: real): (c: int)
    ensures (c - 1) as real < x <= c as real
  {
    -((-x).Floor)
  }

  function Min(a: real, b: real): real {
    if b < a then b else a
  }

  function Max(a: real, b: real): real {
    if b > a then b else a
  }

  /** The aspect sizes divide by the source dimensions. */
  predicate Positive(s: Size) {
    s.width > 0.0 && s.height > 0.0
  }

  /** To fit inside `target`, the smaller of the two axis ratios. */
  function FitScale(s: Size, target: Size): real
    requires Positive(s)
  {
    Min(target.width / s.width, target.height / s.height)
  }

  /** To cover `target`, the larger of the two axis ratios. */
  function FillScale(s: Size, target: Size): real
    requires Positive(s)
  {
    Max(target.width / s.width, target.height / s.height)
  }

  /** Upscaling is refused when the scale exceeds one by more than the
      rounding tolerance `UlpOfOne`. */
  predicate Upscales(scale: real) {
    scale > 1.0 + UlpOfOne
  }

  /** One dimension multiplied by `scale` and rounded up: a whole number at
      or above the exact product and less than one above it. */
  function ScaledDimension(d: real, scale: real): (c: real)
    ensures c == c.Floor as real && d * scale <= c < d * scale + 1.0
  {
    Ceil(d * scale) as real
  }

  /** Both dimensions scaled by the same factor and rounded up. */
  function ScaledUp(s: Size, scale: real): Size {
    Size(ScaledDimension(s.width, scale), ScaledDimension(s.height, scale))
  }

  /** A size of the same aspect ratio as `s`, scaled to fit inside `target`;
      with `upscale` false, a size that would grow comes back unchanged. */
  function Fitting(s: Size, target: Size, upscale: bool := true): (r: Size)
    requires Positive(s)
    ensures !upscale && Upscales(FitScale(s, target)) ==> r == s
    ensures upscale || !Upscales(FitScale(s, target)) ==> r == ScaledUp(s, FitScale(s, target))
  {
    var scale := FitScale(s, target);
    if !upscale && Upscales(scale) then s else ScaledUp(s, scale)
  }

  /** A size of the same aspect ratio as `s`, scaled to cover `target` with
      overflow; with `upscale` false, a size that would grow comes back
      unchanged. */
  function Filling(s: Size, target: Size, upscale: bool := true): (r: Size)
    requires Positive(s)
    ensures !upscale && Upscales(FillScale(s, target)) ==> r == s
    ensures upscale || !Upscales(FillScale(s, target)) ==> r == ScaledUp(s, FillScale(s, target))
  {
    var scale := FillScale(s, target);
    if !upscale && Upscales(scale) then s else ScaledUp(s, scale)
  }

  /** A square size. */
  function Box(side: real): (r: Size)
    ensures r.width == side && r.height == side
  {
    Size(side, side)
  }

  // ----- Rounding and scaling one dimension -----

  lemma CeilMonotone(x: real, y: real)
    requires x <= y
    ensures Ceil(x) <= Ceil(y)
  {
  }

  /** Multiplying by a positive dimension keeps the order of two scales. */
  lemma ScaleOrder(a: real, k: real, m: real)
    requires a > 0.0 && k <= m
    ensures a * k <= a * m
  {
  }

  /** The ratio `b / a` takes `a` exactly to `b`. */
  lemma RatioCancels(a: real, b: real)
    requires a > 0.0
    ensures a * (b / a) == b
  {
  }

  /** A larger scale never gives a smaller rounded dimension. */
  lemma ScaledDimensionMonotone(a: real, k: real, m: real)
    requires a > 0.0 && k <= m
    ensures ScaledDimension(a, k) <= ScaledDimension(a, m)
  {
    ScaleOrder(a, k, m);
    CeilMonotone(a * k, a * m);
  }

  /** A scale at most the ratio `b / a` takes `a` to at most `b` rounded up. */
  lemma ScaledDimensionBelow(a: real, k: real, b: real)
    requires a > 0.0 && k <= b / a
    ensures ScaledDimension(a, k) <= Ceil(b) as real
  {
    ScaleOrder(a, k, b / a);
    RatioCancels(a, b);
    CeilMonotone(a * k, b);
  }

  /** A scale at least the ratio `b / a` takes `a` to at least `b`. */
  lemma ScaledDimensionAbove(a: real, k: real, b: real)
    requires a > 0.0 && b / a <= k
    ensures b <= ScaledDimension(a, k)
  {
    ScaleOrder(a, b / a, k);
    RatioCancels(a, b);
  }

  /** A scale that takes `a` exactly to `b` rounds up to `b` rounded up. */
  lemma ScaledDimensionExact(a: real, k: real, b: real)
    requires a * k == b
    ensures ScaledDimension(a, k) == Ceil(b) as real
  {
  }

  /** Exactly the ratio `b / a` takes `a` to `b` rounded up. */
  lemma ScaledDimensionAtRatio(a: real, b: real)
    requires a > 0.0
    ensures ScaledDimension(a, b / a) == Ceil(b) as real
  {
    RatioCancels(a, b);
    ScaledDimensionExact(a, b / a, b);
  }

  /** A refused upscale means the target is at least as large as the source
      along that axis. */
  lemma RatioAboveOne(a: real, k: real, b: real)
    requires a > 0.0 && 1.0 <= k <= b / a
    ensures a <= b
  {
    ScaleOrder(a, 1.0, b / a);
    RatioCancels(a, b);
  }

  /** A scale at most 1 + UlpOfOne takes `a` to at most `a * (1 + UlpOfOne)`
      rounded up. */
  lemma ScaledDimensionCapped(a: real, k: real)
    requires a > 0.0 && k <= 1.0 + UlpOfOne
    ensures ScaledDimension(a, k) <= Ceil(a * (1.0 + UlpOfOne)) as real
  {
    ScaleOrder(a, k, 1.0 + UlpOfOne);
    CeilMonotone(a * k, a * (1.0 + UlpOfOne));
  }

  /** A positive dimension is itself below that cap. */
  lemma SourceWithinCap(a: real)
    requires a > 0.0
    ensures a <= Ceil(a * (1.0 + UlpOfOne)) as real
  {
    ScaleOrder(a, 1.0, 1.0 + UlpOfOne);
  }

  // ----- Fit -----

  /** Neither dimension of a fitted size exceeds the target's, rounded up:
      in the scaling branch because the smaller ratio is used, and in the
      refused-upscale branch because the target is then larger than the source. */
  lemma FitWithinTarget(s: Size, target: Size, upscale: bool)
    requires Positive(s)
    ensures Fitting(s, target, upscale).width <= Ceil(target.width) as real
    ensures Fitting(s, target, upscale).height <= Ceil(target.height) as real
  {
    var k := FitScale(s, target);
    if !upscale && Upscales(k) {
      RatioAboveOne(s.width, k, target.width);
      RatioAboveOne(s.height, k, target.height);
    } else {
      ScaledDimensionBelow(s.width, k, target.width);
      ScaledDimensionBelow(s.height, k, target.height);
    }
  }

  /** In the scaling branch a fitted size is tight: one dimension is the
      matching target dimension rounded up. */
  lemma FitTouchesTarget(s: Size, target: Size, upscale: bool)
    requires Positive(s)
    requires upscale || !Upscales(FitScale(s, target))
    ensures Fitting(s, target, upscale).width == Ceil(target.width) as real ||
            Fitting(s, target, upscale).height == Ceil(target.height) as real
  {
    if FitScale(s, target) == target.width / s.width {
      ScaledDimensionAtRatio(s.width, target.width);
    } else {
      ScaledDimensionAtRatio(s.height, target.height);
    }
  }

  // ----- Fill -----

  /** In the scaling branch a filled size covers the target on both axes,
      and one dimension is the matching target dimension rounded up. */
  lemma FillCoversTarget(s: Size, target: Size, upscale: bool)
    requires Positive(s)
    requires upscale || !Upscales(FillScale(s, target))
    ensures Filling(s, target, upscale).width >= target.width
    ensures Filling(s, target, upscale).height >= target.height
    ensures Filling(s, target, upscale).width == Ceil(target.width) as real ||
            Filling(s, target, upscale).height == Ceil(target.height) as real
  {
    var k := FillScale(s, target);
    ScaledDimensionAbove(s.width, k, target.width);
    ScaledDimensionAbove(s.height, k, target.height);
    if k == target.width / s.width {
      ScaledDimensionAtRatio(s.width, target.width);
    } else {
      ScaledDimensionAtRatio(s.height, target.height);
    }
  }

  /** With upscaling allowed, fitting never gives a larger dimension than
      filling. */
  lemma FitNotLargerThanFill(s: Size, target: Size)
    requires Positive(s)
    ensures Fitting(s, target).width <= Filling(s, target).width
    ensures Fitting(s, target).height <= Filling(s, target).height
  {
    ScaledDimensionMonotone(s.width, FitScale(s, target), FillScale(s, target));
    ScaledDimensionMonotone(s.height, FitScale(s, target), FillScale(s, target));
  }

  // ----- Fit against fill, and the upscale flag -----

  /** When the chosen scale does not exceed 1 + UlpOfOne, the upscale flag
      makes no difference. */
  lemma UpscaleFlagIrrelevant(s: Size, target: Size)
    requires Positive(s)
    ensures !Upscales(FitScale(s, target)) ==> Fitting(s, target, false) == Fitting(s, target, true)
    ensures !Upscales(FillScale(s, target)) ==> Filling(s, target, false) == Filling(s, target, true)
  {
  }

  /** With upscaling refused, a scale of exactly 1 + UlpOfOne still passes
      the guard and rounding up then grows a whole-numbered source: fitting
      (1, 1) into (1 + UlpOfOne, 3) gives (2, 2), larger than both the source
      and the matching fill, which refuses and returns (1, 1). */
  lemma FitWithoutUpscaleCanGrow()
    ensures Fitting(Size(1.0, 1.0), Size(1.0 + UlpOfOne, 3.0), false) == Size(2.0, 2.0)
    ensures Filling(Size(1.0, 1.0), Size(1.0 + UlpOfOne, 3.0), false) == Size(1.0, 1.0)
  {
    assert FitScale(Size(1.0, 1.0), Size(1.0 + UlpOfOne, 3.0)) == 1.0 + UlpOfOne;
    assert ScaledDimension(1.0, 1.0 + UlpOfOne) == 2.0;
  }

  /** With upscaling refused, the result is capped at the source only up to
      the guard's tolerance and the rounding: each dimension is at most the
      source's dimension times 1 + UlpOfOne, rounded up. */
  lemma FitCappedWithoutUpscale(s: Size, target: Size)
    requires Positive(s)
    ensures Fitting(s, target, false).width <= Ceil(s.width * (1.0 + UlpOfOne)) as real
    ensures Fitting(s, target, false).height <= Ceil(s.height * (1.0 + UlpOfOne)) as real
  {
    var k := FitScale(s, target);
    if Upscales(k) {
      SourceWithinCap(s.width);
      SourceWithinCap(s.height);
    } else {
      ScaledDimensionCapped(s.width, k);
      ScaledDimensionCapped(s.height, k);
    }
  }

  /** The same cap for filling with upscaling refused. */
  lemma FillCappedWithoutUpscale(s: Size, target: Size)
    requires Positive(s)
    ensures Filling(s, target, false).width <= Ceil(s.width * (1.0 + UlpOfOne)) as real
    ensures Filling(s, target, false).height <= Ceil(s.height * (1.0 + UlpOfOne)) as real
  {
    var k := FillScale(s, target);
    if Upscales(k) {
      SourceWithinCap(s.width);
      SourceWithinCap(s.height);
    } else {
      ScaledDimensionCapped(s.width, k);
      ScaledDimensionCapped(s.height, k);
    }
  }

  /** The cap above cannot be tightened to the source itself: at a scale of
      exactly 1, a source with a fractional dimension is rounded up, so
      (1.5, 1.5) fitted or filled into itself with upscaling refused gives
      (2, 2). */
  lemma UnitScaleRoundsUp()
    ensures Fitting(Size(1.5, 1.5), Size(1.5, 1.5), false) == Size(2.0, 2.0)
    ensures Filling(Size(1.5, 1.5), Size(1.5, 1.5), false) == Size(2.0, 2.0)
  {
    assert FitScale(Size(1.5, 1.5), Size(1.5, 1.5)) == 1.0;
    assert FillScale(Size(1.5, 1.5), Size(1.5, 1.5)) == 1.0;
    assert ScaledDimension(1.5, 1.0) == 2.0;
  }

  /** Fitting or filling a square into a square, with upscaling allowed,
      gives the target square rounded up. */
  lemma BoxIntoBox(a: real, b: real)
    requires a > 0.0
    ensures Fitting(Box(a), Box(b)) == Box(Ceil(b) as real)
    ensures Filling(Box(a), Box(b)) == Box(Ceil(b) as real)
  {
    assert FitScale(Box(a), Box(b)) == b / a == FillScale(Box(a), Box(b));
    ScaledDimensionAtRatio(a, b);
  }

  // ----- The examples of the size tests -----

  lemma FitExamples()
    ensures Fitting(Size(500.0, 800.0), Size(160.0, 230.0)) == Size(144.0, 230.0)
    ensures Fitting(Size(500.0, 800.0), Size(2000.0, 2000.0), true) == Size(1250.0, 2000.0)
    ensures Fitting(Size(500.0, 800.0), Size(2000.0, 2000.0), false) == Size(500.0, 800.0)
  {
    assert FitScale(Size(500.0, 800.0), Size(160.0, 230.0)) == 0.2875;
    assert Ceil(143.75) == 144;
    assert Ceil(230.0) == 230;
    assert FitScale(Size(500.0, 800.0), Size(2000.0, 2000.0)) == 2.5;
    assert Ceil(1250.0) == 1250;
    assert Ceil(2000.0) == 2000;
  }

  lemma FillExamples()
    ensures Filling(Size(500.0, 800.0), Size(160.0, 230.0)) == Size(160.0, 256.0)
    ensures Filling(Size(500.0, 800.0), Size(2000.0, 2000.0), true) == Size(2000.0, 3200.0)
    ensures Filling(Size(500.0, 800.0), Size(2000.0, 2000.0), false) == Size(500.0, 800.0)
  {
    assert FillScale(Size(500.0, 800.0), Size(160.0, 230.0)) == 0.32;
    assert Ceil(160.0) == 160;
    assert Ceil(256.0) == 256;
    assert FillScale(Size(500.0, 800.0), Size(2000.0, 2000.0)) == 4.0;
    assert Ceil(2000.0) == 2000;
    assert Ceil(3200.0) == 3200;
  }
}
