/** The visual-effect descriptors the preview hands to the renderer: the
    CSS filter on the code, the noise overlay layer, and the fill of a
    range slider's track. Only the numbers and choices are modelled; the
    CSS text built from them is not. */
module Distortion {

  /** The value of the preview box's `filter` style: the keyword `none`,
      or `blur(<blurPx>px) contrast(<contrastPercent>%)`. */
  datatype Filter = NoFilter | BlurContrast(blurPx: real, contrastPercent: real)

  /** A background image for the overlay: the empty string, or a flat
      black gradient whose two stops both have the given alpha. */
  datatype Image = NoImage | NoiseGradient(alpha: real)

  /** The overlay layer's `backgroundImage` and `opacity` styles. */
  datatype Overlay = Overlay(image: Image, opacity: real)

  /** The filter applied to the code: none in the "before" view, otherwise
      the current blur and contrast, passed through unchanged. */
  function FilterFor(showBefore: bool, blur: real, contrast: real): (f: Filter)
    ensures f == NoFilter <==> showBefore
    ensures f.BlurContrast? ==> f.blurPx == blur && f.contrastPercent == contrast
  {
    if showBefore then NoFilter else BlurContrast(blur, contrast)
  }

  /** The memoised noise gradient: absent when noise is not positive,
      otherwise black at alpha noise / 100. */
  function NoiseStyle(noise: real): (i: Image)
    ensures i == NoImage <==> noise <= 0.0
    ensures i.NoiseGradient? ==> i.alpha == noise / 100.0 && i.alpha > 0.0
  {
    if noise <= 0.0 then NoImage else NoiseGradient(noise / 100.0)
  }

  /** The overlay layer: the "before" view suppresses its image, but its
      opacity is noise / 100 in both views. */
  function OverlayFor(showBefore: bool, noise: real): (o: Overlay)
    ensures o.opacity == noise / 100.0
    ensures o.image == NoImage <==> showBefore || noise <= 0.0
    ensures o.image.NoiseGradient? ==> o.image.alpha == o.opacity
  {
    Overlay(if showBefore then NoImage else NoiseStyle(noise), noise / 100.0)
  }

  /** How far along its track a slider's fill ends, in percent. The
      value is not range-checked, so the percentage can lie outside
      [0, 100]; FillPercentMeaning states what it means. */
  function FillPercent(value: real, lo: real, hi: real): real
    requires lo != hi
  {
    (value - lo) / (hi - lo) * 100.0
  }

  /** x / d against 0 and 1, for a positive divisor. */
  lemma QuotientBounds(x: real, d: real)
    requires d > 0.0
    ensures x / d >= 0.0 <==> x >= 0.0
    ensures x / d <= 1.0 <==> x <= d
  {
    var q := x / d;
    assert q * d == x;
    if q < 0.0 {
      assert q * d < 0.0;
    }
    if q > 1.0 {
      assert q * d > 1.0 * d;
    }
    if q <= 1.0 {
      assert q * d <= 1.0 * d;
    }
  }

  /** A product of reals is zero exactly when a factor is. */
  lemma ZeroProduct(a: real, b: real)
    ensures a * b == 0.0 <==> a == 0.0 || b == 0.0
  {
    if a > 0.0 && b > 0.0 {
      assert a * b > 0.0;
    } else if a > 0.0 && b < 0.0 {
      assert a * -b > 0.0;
    } else if a < 0.0 && b > 0.0 {
      assert -a * b > 0.0;
    } else if a < 0.0 && b < 0.0 {
      assert -a * -b > 0.0;
    }
  }

  /** x / d is zero exactly when x is. */
  lemma QuotientZero(x: real, d: real)
    requires d != 0.0
    ensures x / d == 0.0 <==> x == 0.0
  {
    var q := x / d;
    assert q * d == x;
    if q == 0.0 {
      assert x == 0.0 * d;
    }
  }

  /** x / d is one exactly when x equals d. */
  lemma QuotientOne(x: real, d: real)
    requires d != 0.0
    ensures x / d == 1.0 <==> x == d
  {
    var q := x / d;
    assert q * d == x;
    if q == 1.0 {
      assert x == 1.0 * d;
    }
    if x == d {
      assert (q - 1.0) * d == q * d - 1.0 * d == 0.0;
      ZeroProduct(q - 1.0, d);
    }
  }

  /** The fill is empty exactly at the track's start and full exactly at
      its end, and on a track with lo < hi it lies in [0, 100] exactly
      when the value lies on the track. */
  lemma FillPercentMeaning(value: real, lo: real, hi: real)
    requires lo != hi
    ensures FillPercent(value, lo, hi) == 0.0 <==> value == lo
    ensures FillPercent(value, lo, hi) == 100.0 <==> value == hi
    ensures lo < hi ==> (0.0 <= FillPercent(value, lo, hi) <= 100.0 <==> lo <= value <= hi)
  {
    var d := hi - lo;
    assert FillPercent(value, lo, hi) == (value - lo) / d * 100.0;
    QuotientZero(value - lo, d);
    QuotientOne(value - lo, d);
    if lo < hi {
      QuotientBounds(value - lo, d);
    }
  }

  /** On a track with lo < hi a larger value never gives a shorter fill. */
  lemma FillMonotone(v1: real, v2: real, lo: real, hi: real)
    requires lo < hi && v1 <= v2
    ensures FillPercent(v1, lo, hi) <= FillPercent(v2, lo, hi)
  {
    QuotientBounds(v2 - v1, hi - lo);
    assert (v2 - lo) / (hi - lo) - (v1 - lo) / (hi - lo) == (v2 - v1) / (hi - lo);
  }
}
