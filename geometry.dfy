/**
 * Axis limits and the aspect-preserving placement of the background image
 * (`CenteredScrollingPlayer._place_background` in wavefile.py).
 */
module Geometry {
  import opened Wrappers

  /** A pair of axis limits `(lo, hi)` as matplotlib's `get_xlim`/`get_ylim` return them. */
  datatype Interval = Interval(lo: real, hi: real) {
    function Span(): real { hi - lo }
  }

  /** The `extent=(x0, x1, y0, y1)` handed to `imshow`. */
  datatype Extent = Extent(x: Interval, y: Interval)

  /** `Image.size`: pixel width and height. */
  datatype ImageSize = ImageSize(width: nat, height: nat)

  /** `iw / ih`, or 1.0 for an image of height zero. */
  function ImageRatio(size: ImageSize): real
  {
    if size.height != 0 then size.width as real / size.height as real else 1.0
  }

  /** `y1 - y0`, or 1.0 when the y-limits coincide. */
  function AxisHeight(ylim: Interval): (h: real)
    ensures h != 0.0
  {
    if ylim.Span() != 0.0 then ylim.Span() else 1.0
  }

  /**
   * The rectangle into which the background is drawn, for the current axis
   * limits and the image size. `None` stands for the ZeroDivisionError that
   * Python raises when `axis_w / img_ratio` divides by a zero ratio: the
   * image has width 0 (and non-zero height) while the axes' aspect ratio is
   * not positive.
   */
  function FitExtent(xlim: Interval, ylim: Interval, size: ImageSize): (r: Option<Extent>)
    // the only failure is the division by a zero image ratio
    ensures r.None? <==>
              size.width == 0 && size.height != 0 && xlim.Span() / AxisHeight(ylim) <= 0.0
    // aspect ratio of the image is kept
    ensures r.Some? && size.height != 0 ==>
              r.value.x.Span() * size.height as real == r.value.y.Span() * size.width as real
    // an image of height zero is treated as a square one
    ensures r.Some? && size.height == 0 ==> r.value.x.Span() == r.value.y.Span()
    // centred horizontally: equal space left and right
    ensures r.Some? ==> r.value.x.lo - xlim.lo == xlim.hi - r.value.x.hi
    // centred vertically, in the band [y0, y0 + 1] when the y-limits coincide
    ensures r.Some? ==> r.value.y.lo - ylim.lo == ylim.lo + AxisHeight(ylim) - r.value.y.hi
    // one dimension is filled exactly
    ensures r.Some? ==> r.value.x.Span() == xlim.Span() || r.value.y.Span() == AxisHeight(ylim)
  {
    var axisW := xlim.Span();
    var axisH := AxisHeight(ylim);
    var imgRatio := ImageRatio(size);
    var axisRatio := axisW / axisH;
    ImageRatioZero(size);
    if imgRatio >= axisRatio && imgRatio == 0.0 then
      None
    else
      var (targetW, targetH) := TargetSize(axisW, axisH, imgRatio);
      RatioOfImage(size, targetW, targetH);
      Some(Extent(Centred(xlim.lo, axisW, targetW), Centred(ylim.lo, axisH, targetH)))
  }

  /** `lo + (span - target) / 2` to that plus `target`: a side of the rectangle, centred in `[lo, lo + span]`. */
  function Centred(lo: real, span: real, target: real): (i: Interval)
    ensures i.Span() == target
    ensures i.lo - lo == lo + span - i.hi
    ensures 0.0 <= target <= span ==> lo <= i.lo <= i.hi <= lo + span
  {
    var start := lo + (span - target) / 2.0;
    Interval(start, start + target)
  }

  /**
   * `(target_w, target_h)`: the width of the axes for an image relatively
   * wider than the axes, else their height; either way the image's ratio.
   */
  function TargetSize(axisW: real, axisH: real, imgRatio: real): (t: (real, real))
    requires axisH != 0.0 && !(imgRatio >= axisW / axisH && imgRatio == 0.0)
    ensures t.0 == imgRatio * t.1
    ensures t.0 == axisW || t.1 == axisH
  {
    if imgRatio >= axisW / axisH then (axisW, axisW / imgRatio) else (axisH * imgRatio, axisH)
  }

  /** The ratio is 1 for an image of height zero, and zero exactly for an image of width zero and non-zero height. */
  lemma ImageRatioZero(size: ImageSize)
    ensures size.height == 0 ==> ImageRatio(size) == 1.0
    ensures ImageRatio(size) == 0.0 <==> size.width == 0 && size.height != 0
  {
    if size.height != 0 && size.width != 0 {
      assert size.width as real / size.height as real > 0.0;
    }
  }

  /** A rectangle with the ratio `iw / ih` has width × ih == height × iw. */
  lemma RatioOfImage(size: ImageSize, w: real, h: real)
    requires w == ImageRatio(size) * h
    ensures size.height != 0 ==> w * size.height as real == h * size.width as real
  {
  }

  /**
   * For axes of positive width and height the placement always succeeds and
   * the rectangle lies inside the axes.
   */
  lemma FitInsideAxes(xlim: Interval, ylim: Interval, size: ImageSize)
    requires xlim.Span() > 0.0 && ylim.Span() > 0.0
    ensures FitExtent(xlim, ylim, size).Some?
    ensures var e := FitExtent(xlim, ylim, size).value;
            && xlim.lo <= e.x.lo <= e.x.hi <= xlim.hi
            && ylim.lo <= e.y.lo <= e.y.hi <= ylim.hi
  {
    var axisW, axisH := xlim.Span(), ylim.Span();
    assert AxisHeight(ylim) == axisH;
    var imgRatio := ImageRatio(size);
    assert imgRatio >= 0.0 by {
      if size.height != 0 {
        assert size.width as real / size.height as real >= 0.0;
      }
    }
    var wide := imgRatio >= axisW / axisH;
    if wide {
      WideImageFitsHeight(axisW, axisH, imgRatio);
    } else {
      TallImageFitsWidth(axisW, axisH, imgRatio);
    }
    var (targetW, targetH) := TargetSize(axisW, axisH, imgRatio);
    assert 0.0 <= targetW <= axisW && 0.0 <= targetH <= axisH;
    assert FitExtent(xlim, ylim, size)
        == Some(Extent(Centred(xlim.lo, axisW, targetW), Centred(ylim.lo, axisH, targetH)));
  }

  /** Fitting the height of a relatively tall image leaves its width inside the axes. */
  lemma TallImageFitsWidth(axisW: real, axisH: real, imgRatio: real)
    requires axisW > 0.0 && axisH > 0.0 && 0.0 <= imgRatio < axisW / axisH
    ensures 0.0 <= axisH * imgRatio <= axisW
  {
  }

  /** Fitting the width of a relatively wide image leaves its height inside the axes. */
  lemma WideImageFitsHeight(axisW: real, axisH: real, imgRatio: real)
    requires axisW > 0.0 && axisH > 0.0 && imgRatio > 0.0 && imgRatio >= axisW / axisH
    ensures axisW / imgRatio <= axisH
  {
  }
}
