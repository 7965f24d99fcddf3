/**
 * One lamp of the legacy meter bar (src/meter_segment.cpp): a level range
 * between a lower and an upper threshold in dB, a hue from its colour
 * number, a brightness that follows the level and a peak marker that is
 * lit when the peak falls inside the range.
 */
module LegacyMeterSegment {

  /** Full brightness at or above the upper threshold. */
  const BrightnessLit: real := 0.97
  /** Brightness at or below the lower threshold: dark, but not black. */
  const BrightnessDark: real := 0.25

  /** The hue of colour number 0 (red), 1 (yellow) and any other number (green). */
  function Hue(colour: int): (h: real)
    ensures 0.0 <= h <= 0.3
    ensures h == 0.0 <==> colour == 0
    ensures h == 0.3 <==> colour != 0 && colour != 1
  {
    if colour == 0 then 0.0 else if colour == 1 then 0.18 else 0.3
  }

  /** Along the bar colour numbers only grow, so hues only move from red to green. */
  lemma HueMonotone(a: int, b: int)
    requires 0 <= a <= b
    ensures Hue(a) <= Hue(b)
  {
  }

  /**
   * The brightness setLevels computes: lit at or above the upper threshold
   * (lower + range), dark at or below the lower one, and in between 0.25 plus
   * 0.72 times the fraction of the range the level covers.
   */
  function Brightness(lower: real, range: real, level: real): (b: real)
    ensures BrightnessDark <= b <= BrightnessLit
    ensures level >= lower + range ==> b == BrightnessLit
    ensures level < lower + range && level <= lower ==> b == BrightnessDark
    ensures lower < level < lower + range ==> BrightnessDark < b < BrightnessLit
  {
    if level >= lower + range then BrightnessLit
    else if level <= lower then BrightnessDark
    else
      var fraction := (level - lower) / range;
      FractionInUnitRange(level - lower, range);
      fraction * 0.72 + BrightnessDark
  }

  lemma FractionInUnitRange(x: real, r: real)
    requires 0.0 < x < r
    ensures 0.0 < x / r < 1.0
  {
    var q := x / r;
    assert q * r == x;
    if q <= 0.0 {
      assert false;
    }
    if q >= 1.0 {
      assert false;
    }
  }

  /** A higher level never makes the segment darker. */
  lemma BrightnessMonotone(lower: real, range: real, a: real, b: real)
    requires a <= b
    ensures Brightness(lower, range, a) <= Brightness(lower, range, b)
  {
    if lower < a && b < lower + range {
      var x := (a - lower) / range;
      var y := (b - lower) / range;
      assert x * range == a - lower && y * range == b - lower;
      assert x <= y;
    }
  }

  /** The peak marker rule: the peak lies above the lower threshold and at or below the upper one. */
  predicate PeakMarker(lower: real, upper: real, peak: real)
  {
    lower < peak <= upper
  }

  /** The lamp with its thresholds, hue and the readings setLevels updates. */
  class MeterSegment {
    var lowerThreshold: real
    var thresholdRange: real
    var upperThreshold: real
    var level: real
    var peakMarker: bool
    var brightness: real
    var hue: real

    ghost predicate Valid()
      reads this
    {
      upperThreshold == lowerThreshold + thresholdRange
    }

    /** Dark, unmarked and at a level far below any threshold until the first setLevels. */
    constructor (threshold: real, range: real, colour: int)
      ensures Valid()
      ensures lowerThreshold == threshold && thresholdRange == range && upperThreshold == threshold + range
      ensures level == -1000.0 && !peakMarker && brightness == 0.0 && hue == Hue(colour)
    {
      lowerThreshold := threshold;
      thresholdRange := range;
      upperThreshold := threshold + range;
      level := -1000.0;
      peakMarker := false;
      brightness := 0.0;
      if colour == 0 {
        hue := 0.0;
      } else if colour == 1 {
        hue := 0.18;
      } else {
        hue := 0.3;
      }
    }

    /**
     * setLevels: stores the level, recomputes brightness and marker, and
     * asks for a repaint exactly when one of the two changed.
     */
    method SetLevels(newLevel: real, newPeakLevel: real) returns (repaint: bool)
      requires Valid()
      modifies this
      ensures Valid()
      ensures lowerThreshold == old(lowerThreshold) && thresholdRange == old(thresholdRange)
      ensures upperThreshold == old(upperThreshold) && hue == old(hue)
      ensures level == newLevel
      ensures brightness == Brightness(lowerThreshold, thresholdRange, newLevel)
      ensures peakMarker == PeakMarker(lowerThreshold, upperThreshold, newPeakLevel)
      ensures repaint <==> brightness != old(brightness) || peakMarker != old(peakMarker)
    {
      level := newLevel;
      var brightnessOld := brightness;
      var peakMarkerOld := peakMarker;
      if level >= upperThreshold {
        brightness := BrightnessLit;
      } else if level <= lowerThreshold {
        brightness := BrightnessDark;
      } else {
        brightness := (level - lowerThreshold) / thresholdRange;
        brightness := brightness * 0.72 + BrightnessDark;
      }
      if newPeakLevel > lowerThreshold && newPeakLevel <= upperThreshold {
        peakMarker := true;
      } else {
        peakMarker := false;
      }
      repaint := brightness != brightnessOld || peakMarker != peakMarkerOld;
    }
  }
}
