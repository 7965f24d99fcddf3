/**
 * The meter bar (Source/meter_bar.cpp): a column of segments described by
 * integer thresholds in 0.1 dB steps, so that no float round-off gathers
 * down the ladder.  The constructor builds the ladder from the top,
 * visibilityChanged stacks the segments back to back, and setLevels passes
 * new readings on only when one of them changed.  The segment component
 * itself is not part of this model: a segment is the arguments it is
 * created with.
 */
module MeterBar {

  /** The bar is always 134 base segment heights tall (plus one pixel). */
  const BarHeightInSegments := 134

  /**
   * The crest factor in 0.1 dB and the K-meter levels (0.1 dB) that bound
   * the bands: above `top` segments are fine, at or below `green1` coarse
   * and at or below `green2` coarsest; above `red` they are red, above
   * `amber` amber, below green.
   */
  datatype Limits = Limits(crest: int, top: int, red: int, amber: int, green1: int, green2: int)

  /** The limits the constructor picks; any crest factor other than 0, 12 or 14 dB is K-20. */
  function CrestLimits(crestFactor: int): (l: Limits)
    ensures l.crest == (if crestFactor == 0 then 0 else if crestFactor == 12 then 120
                        else if crestFactor == 14 then 140 else 200)
    ensures l.top == l.crest - 20
    ensures l.amber <= l.red && l.green2 <= l.green1 <= l.top
  {
    if crestFactor == 0 then Limits(0, -20, -80, -160, -400, -400)
    else if crestFactor == 12 then Limits(120, 100, 40, 0, -300, -300)
    else if crestFactor == 14 then Limits(140, 120, 40, 0, -300, -300)
    else Limits(200, 180, 40, 0, -240, -300)
  }

  /** The number of segments: 134 when expanded, else 47, 48, 50 or 51 for Normal, K-12, K-14 and K-20. */
  function NumberOfBars(crestFactor: int, expanded: bool): (n: nat)
    ensures expanded ==> n == 134
    ensures !expanded ==> 47 <= n <= 51
  {
    if expanded then 134
    else if crestFactor == 0 then 47
    else if crestFactor == 12 then 48
    else if crestFactor == 14 then 50
    else 51
  }

  // ---------------------------------------------------------------------
  // The threshold ladder
  // ---------------------------------------------------------------------

  /** The range of the segment whose top is at K-meter level `level`: 1 expanded, otherwise 5, 10, 60 or 100. */
  function Range(expanded: bool, l: Limits, level: int): (r: int)
    ensures r > 0
    ensures expanded ==> r == 1
    ensures !expanded ==> r == 5 || r == 10 || r == 60 || r == 100
  {
    if expanded then 1
    else if level > l.top then 5
    else if level > l.green1 then 10
    else if level > l.green2 then 60
    else 100
  }

  /** The colour of the segment whose top is at K-meter level `level`: 0 red, 1 amber, 2 green. */
  function Colour(l: Limits, level: int): (c: int)
    ensures 0 <= c <= 2
    ensures c == 0 <==> level > l.red
    ensures c == 2 <==> level <= l.amber && level <= l.red
  {
    if level > l.red then 0 else if level > l.amber then 1 else 2
  }

  /** The threshold before the first segment: 0 dB, or 8 dB above the K-meter's zero when an expanded bar would not show it. */
  function FirstThreshold(expanded: bool, l: Limits): (t: int)
    ensures t == 0 || (expanded && l.crest > 80 && t + l.crest == 80)
  {
    if expanded && l.crest > 80 then 80 - l.crest else 0
  }

  /** The K-meter level at the top of segment n, descending from `first`. */
  function Level(expanded: bool, l: Limits, first: int, n: nat): int
  {
    if n == 0 then first
    else
      var above := Level(expanded, l, first, n - 1);
      above - Range(expanded, l, above)
  }

  /** The upper threshold of segment n (0.1 dB): its K-meter level less the crest factor. */
  function Threshold(expanded: bool, l: Limits, n: nat): int
  {
    Level(expanded, l, FirstThreshold(expanded, l) + l.crest, n) - l.crest
  }

  /** K-meter levels never rise down the bar, and strictly fall from segment to segment. */
  lemma {:induction false} LevelDecreasing(expanded: bool, l: Limits, first: int, i: nat, j: nat)
    requires i < j
    ensures Level(expanded, l, first, j) < Level(expanded, l, first, i)
    decreases j - i
  {
    if j > i + 1 {
      LevelDecreasing(expanded, l, first, i, j - 1);
    }
  }

  /** Segment n's thresholds: it spans Threshold(n + 1) up to Threshold(n), the next segment's upper edge is its lower one. */
  lemma SegmentsContiguous(expanded: bool, l: Limits, n: nat)
    ensures Threshold(expanded, l, n + 1) + Range(expanded, l, Threshold(expanded, l, n) + l.crest) == Threshold(expanded, l, n)
    ensures Threshold(expanded, l, 0) == FirstThreshold(expanded, l)
  {
    var first := FirstThreshold(expanded, l) + l.crest;
    assert Level(expanded, l, first, n) == Threshold(expanded, l, n) + l.crest;
  }

  /** Thresholds strictly decrease down the bar. */
  lemma ThresholdsDecrease(expanded: bool, l: Limits, i: nat, j: nat)
    requires i < j
    ensures Threshold(expanded, l, j) < Threshold(expanded, l, i)
  {
    LevelDecreasing(expanded, l, FirstThreshold(expanded, l) + l.crest, i, j);
  }

  /** Colours run red, amber, green from the top of the bar. */
  lemma ColourMonotone(expanded: bool, l: Limits, first: int, i: nat, j: nat)
    requires l.amber <= l.red && i <= j
    ensures Colour(l, Level(expanded, l, first, i)) <= Colour(l, Level(expanded, l, first, j))
  {
    if i < j {
      LevelDecreasing(expanded, l, first, i, j);
    }
  }

  /** What the constructor passes to segment n: lower threshold and range in 0.1 dB, the peak switch, the colour. */
  datatype Segment = Segment(threshold: int, range: int, displayPeakMeter: bool, colour: int)

  function SegmentAt(expanded: bool, displayPeakMeter: bool, l: Limits, n: nat): (s: Segment)
    ensures s.threshold + s.range == Threshold(expanded, l, n)
    ensures s.threshold == Threshold(expanded, l, n + 1)
    ensures s.range > 0 && 0 <= s.colour <= 2
  {
    var level := Threshold(expanded, l, n) + l.crest;
    SegmentsContiguous(expanded, l, n);
    Segment(Threshold(expanded, l, n + 1), Range(expanded, l, level), displayPeakMeter, Colour(l, level))
  }

  // ---------------------------------------------------------------------
  // The layout
  // ---------------------------------------------------------------------

  datatype Bounds = Bounds(x: int, y: int, width: int, height: int)

  /** The height of a segment whose top is at K-meter level `level`; the last segment of a bar has its own. */
  function Height(expanded: bool, l: Limits, mainHeight: int, level: int, last: bool): int
  {
    if expanded then mainHeight
    else if level > l.top then mainHeight
    else if level > l.green1 then 2 * mainHeight
    else if level > l.green2 then 6 * mainHeight
    else if last then
      if l.crest == 0 then 10 * mainHeight
      else if l.crest == 120 then 14 * mainHeight
      else if l.crest == 140 then 13 * mainHeight
      else 10 * mainHeight
    else
      if l.crest == 0 then 11 * mainHeight
      else if l.crest == 120 then 12 * mainHeight
      else if l.crest == 140 then 11 * mainHeight
      else 10 * mainHeight
  }

  /** visibilityChanged restarts the K-meter level at the crest factor and sizes segment n by it. */
  function SegmentHeight(expanded: bool, l: Limits, bars: nat, mainHeight: int, n: nat): int
  {
    Height(expanded, l, mainHeight, Level(expanded, l, l.crest, n), n + 1 == bars)
  }

  /** The y position of segment n: the segments above it, back to back. */
  function SegmentTop(expanded: bool, l: Limits, bars: nat, mainHeight: int, n: nat): int
  {
    if n == 0 then 0 else SegmentTop(expanded, l, bars, mainHeight, n - 1) + SegmentHeight(expanded, l, bars, mainHeight, n - 1)
  }

  /** The layout restarts at the crest factor; a bar that is not expanded starts its ladder there as well. */
  lemma LayoutFollowsLadder(l: Limits, n: nat)
    ensures Level(false, l, l.crest, n) == Threshold(false, l, n) + l.crest
  {
  }

  /**
   * Down a band in which every level has range r and height c, m segments
   * lower the level by m r and move the position by m c.
   */
  lemma {:induction false} Descent(expanded: bool, l: Limits, bars: nat, mainHeight: int, j: nat, m: nat, r: int, c: int, floor: int, ceiling: int)
    requires r > 0 && j + m < bars
    requires forall level :: floor < level <= ceiling ==>
      Range(expanded, l, level) == r && Height(expanded, l, mainHeight, level, false) == c
    requires Level(expanded, l, l.crest, j) <= ceiling
    requires m > 0 ==> Level(expanded, l, l.crest, j) - (m - 1) * r > floor
    ensures Level(expanded, l, l.crest, j + m) == Level(expanded, l, l.crest, j) - m * r
    ensures SegmentTop(expanded, l, bars, mainHeight, j + m) == SegmentTop(expanded, l, bars, mainHeight, j) + m * c
  {
    if m > 0 {
      Descent(expanded, l, bars, mainHeight, j, m - 1, r, c, floor, ceiling);
      var level := Level(expanded, l, l.crest, j + m - 1);
      MulStep(m, r, c);
      assert floor < level <= ceiling;
      assert Range(expanded, l, level) == r && Height(expanded, l, mainHeight, level, false) == c;
      assert SegmentHeight(expanded, l, bars, mainHeight, j + m - 1) == c;
    }
  }

  lemma MulStep(m: int, r: int, c: int)
    requires m > 0 && r > 0
    ensures m * r == (m - 1) * r + r && m * c == (m - 1) * c + c && (m - 1) * r >= 0
  {
  }

  /** For every crest factor and either scale the segments tile exactly the 134 base heights of the bar. */
  lemma BarTiledBySegments(crestFactor: int, expanded: bool, mainHeight: int)
    ensures var l := CrestLimits(crestFactor);
      var bars := NumberOfBars(crestFactor, expanded);
      SegmentTop(expanded, l, bars, mainHeight, bars) == BarHeightInSegments * mainHeight
  {
    var l := CrestLimits(crestFactor);
    var bars := NumberOfBars(crestFactor, expanded);
    if expanded {
      Descent(expanded, l, bars, mainHeight, 0, 133, 1, mainHeight, l.crest - 134, l.crest);
    } else if l.crest == 0 {
      TiledNormal(l, bars, mainHeight);
    } else if l.crest == 120 {
      TiledK12(l, bars, mainHeight);
    } else if l.crest == 140 {
      TiledK14(l, bars, mainHeight);
    } else {
      TiledK20(l, bars, mainHeight);
    }
  }

  /** The fine band: the first four segments of a bar that is not expanded are one base height and 0.5 dB each. */
  lemma FineBand(l: Limits, bars: nat, h: int)
    requires l.top == l.crest - 20 && 4 < bars
    ensures Level(false, l, l.crest, 4) == l.top
    ensures SegmentTop(false, l, bars, h, 4) == 4 * h
  {
    Descent(false, l, bars, h, 0, 4, 5, h, l.top, l.crest);
  }

  /** Below `top` and above `green1`: 1 dB segments of two base heights. */
  lemma CoarseBand(l: Limits, bars: nat, h: int, j: nat, m: nat)
    requires j + m < bars && Level(false, l, l.crest, j) <= l.top
    requires m > 0 ==> Level(false, l, l.crest, j) - (m - 1) * 10 > l.green1
    ensures Level(false, l, l.crest, j + m) == Level(false, l, l.crest, j) - m * 10
    ensures SegmentTop(false, l, bars, h, j + m) == SegmentTop(false, l, bars, h, j) + m * (2 * h)
  {
    Descent(false, l, bars, h, j, m, 10, 2 * h, l.green1, l.top);
  }

  /** Below `green1` and above `green2`: 6 dB segments of six base heights. */
  lemma CoarserBand(l: Limits, bars: nat, h: int, j: nat, m: nat)
    requires l.green1 <= l.top
    requires j + m < bars && Level(false, l, l.crest, j) <= l.green1
    requires m > 0 ==> Level(false, l, l.crest, j) - (m - 1) * 60 > l.green2
    ensures Level(false, l, l.crest, j + m) == Level(false, l, l.crest, j) - m * 60
    ensures SegmentTop(false, l, bars, h, j + m) == SegmentTop(false, l, bars, h, j) + m * (6 * h)
  {
    Descent(false, l, bars, h, j, m, 60, 6 * h, l.green2, l.green1);
  }

  /** At or below `green2`: 10 dB segments, whose height depends on the crest factor. */
  lemma CoarsestBand(l: Limits, bars: nat, h: int, j: nat, m: nat, c: int)
    requires l.green2 <= l.green1 <= l.top
    requires c == (if l.crest == 0 then 11 * h else if l.crest == 120 then 12 * h else if l.crest == 140 then 11 * h else 10 * h)
    requires j + m < bars && Level(false, l, l.crest, j) <= l.green2
    ensures Level(false, l, l.crest, j + m) == Level(false, l, l.crest, j) - m * 100
    ensures SegmentTop(false, l, bars, h, j + m) == SegmentTop(false, l, bars, h, j) + m * c
  {
    Descent(false, l, bars, h, j, m, 100, c, Level(false, l, l.crest, j) - m * 100, l.green2);
  }

  lemma TiledNormal(l: Limits, bars: nat, h: int)
    requires l.crest == 0 && l.top == -20 && l.green1 == -400 && l.green2 == -400 && bars == 47
    ensures SegmentTop(false, l, bars, h, bars) == BarHeightInSegments * h
  {
    FineBand(l, bars, h);
    CoarseBand(l, bars, h, 4, 38);
    CoarsestBand(l, bars, h, 42, 4, 11 * h);
  }

  lemma TiledK12(l: Limits, bars: nat, h: int)
    requires l.crest == 120 && l.top == 100 && l.green1 == -300 && l.green2 == -300 && bars == 48
    ensures SegmentTop(false, l, bars, h, bars) == BarHeightInSegments * h
  {
    FineBand(l, bars, h);
    CoarseBand(l, bars, h, 4, 40);
    CoarsestBand(l, bars, h, 44, 3, 12 * h);
  }

  lemma TiledK14(l: Limits, bars: nat, h: int)
    requires l.crest == 140 && l.top == 120 && l.green1 == -300 && l.green2 == -300 && bars == 50
    ensures SegmentTop(false, l, bars, h, bars) == BarHeightInSegments * h
  {
    FineBand(l, bars, h);
    CoarseBand(l, bars, h, 4, 42);
    CoarsestBand(l, bars, h, 46, 3, 11 * h);
  }

  lemma TiledK20(l: Limits, bars: nat, h: int)
    requires l.crest == 200 && l.top == 180 && l.green1 == -240 && l.green2 == -300 && bars == 51
    ensures SegmentTop(false, l, bars, h, bars) == BarHeightInSegments * h
  {
    FineBand(l, bars, h);
    CoarseBand(l, bars, h, 4, 42);
    CoarserBand(l, bars, h, 46, 1);
    CoarsestBand(l, bars, h, 47, 3, 10 * h);
  }

  /** The bounds visibilityChanged gives segment n: full width, stacked from the top. */
  function SegmentBounds(expanded: bool, l: Limits, bars: nat, totalWidth: int, mainHeight: int, n: nat): (b: Bounds)
    ensures b.x == 0 && b.width == totalWidth
    ensures b.y + b.height - 1 == SegmentTop(expanded, l, bars, mainHeight, n + 1)
  {
    Bounds(0, SegmentTop(expanded, l, bars, mainHeight, n), totalWidth, SegmentHeight(expanded, l, bars, mainHeight, n) + 1)
  }

  /** The four readings setLevels passes on. */
  datatype Levels = Levels(peak: real, average: real, peakPeak: real, averagePeak: real)

  /** The bar: its configuration, the arguments of its segments and the last readings. */
  class MeterBar {
    var isExpanded: bool
    var displayPeakMeter: bool
    var limits: Limits
    var numberOfBars: nat
    var posX: int
    var posY: int
    var width: int
    var mainSegmentHeight: int
    var levels: Levels
    var segments: seq<Segment>
    /** The readings passed on to the segments, one entry per setLevels call that passed them on. */
    ghost var forwarded: seq<Levels>

    ghost predicate Valid()
      reads this
    {
      |segments| == numberOfBars
      && forall n :: 0 <= n < numberOfBars ==> segments[n] == SegmentAt(isExpanded, displayPeakMeter, limits, n)
    }

    constructor (x: int, y: int, totalWidth: int, crestFactor: int, expanded: bool, peakMeter: bool, segmentHeight: int)
      ensures Valid()
      ensures isExpanded == expanded && displayPeakMeter == peakMeter
      ensures limits == CrestLimits(crestFactor) && numberOfBars == NumberOfBars(crestFactor, expanded)
      ensures posX == x && posY == y && width == totalWidth && mainSegmentHeight == segmentHeight
      ensures levels == Levels(0.0, 0.0, 0.0, 0.0) && forwarded == []
    {
      var l := CrestLimits(crestFactor);
      var bars := NumberOfBars(crestFactor, expanded);
      var segs := BuildSegments(expanded, peakMeter, l, bars);
      isExpanded := expanded;
      displayPeakMeter := peakMeter;
      limits := l;
      numberOfBars := bars;
      posX := x;
      posY := y;
      width := totalWidth;
      mainSegmentHeight := segmentHeight;
      levels := Levels(0.0, 0.0, 0.0, 0.0);
      segments := segs;
      forwarded := [];
    }

    /**
     * The constructor's loop: threshold and K-meter level fall together by
     * each segment's range, so they always differ by the crest factor.
     */
    static method BuildSegments(expanded: bool, peakMeter: bool, l: Limits, bars: nat) returns (segs: seq<Segment>)
      ensures |segs| == bars
      ensures forall n :: 0 <= n < bars ==> segs[n] == SegmentAt(expanded, peakMeter, l, n)
    {
      var threshold := FirstThreshold(expanded, l);
      var kmeterLevel := threshold + l.crest;
      segs := [];
      var n := 0;
      while n < bars
        invariant n <= bars && |segs| == n
        invariant kmeterLevel - threshold == l.crest
        invariant threshold == Threshold(expanded, l, n)
        invariant forall k :: 0 <= k < n ==> segs[k] == SegmentAt(expanded, peakMeter, l, k)
      {
        var range;
        if expanded {
          range := 1;
        } else if kmeterLevel > l.top {
          range := 5;
        } else if kmeterLevel > l.green1 {
          range := 10;
        } else if kmeterLevel > l.green2 {
          range := 60;
        } else {
          range := 100;
        }
        var colour;
        if kmeterLevel > l.red {
          colour := 0;
        } else if kmeterLevel > l.amber {
          colour := 1;
        } else {
          colour := 2;
        }
        threshold := threshold - range;
        kmeterLevel := kmeterLevel - range;
        segs := segs + [Segment(threshold, range, peakMeter, colour)];
        n := n + 1;
      }
    }

    /** visibilityChanged: the bounds of the bar and of each segment, in order. */
    method VisibilityChanged() returns (bar: Bounds, layout: seq<Bounds>)
      requires Valid()
      ensures bar == Bounds(posX, posY, width, BarHeightInSegments * mainSegmentHeight + 1)
      ensures |layout| == numberOfBars
      ensures forall n :: 0 <= n < numberOfBars ==>
        layout[n] == SegmentBounds(isExpanded, limits, numberOfBars, width, mainSegmentHeight, n)
    {
      bar := Bounds(posX, posY, width, BarHeightInSegments * mainSegmentHeight + 1);
      var y := 0;
      var kmeterLevel := limits.crest;
      var n := 0;
      layout := [];
      while n < numberOfBars
        invariant n <= numberOfBars && |layout| == n
        invariant kmeterLevel == Level(isExpanded, limits, limits.crest, n)
        invariant y == SegmentTop(isExpanded, limits, numberOfBars, mainSegmentHeight, n)
        invariant forall k :: 0 <= k < n ==>
          layout[k] == SegmentBounds(isExpanded, limits, numberOfBars, width, mainSegmentHeight, k)
      {
        var range := Range(isExpanded, limits, kmeterLevel);
        var segmentHeight := Height(isExpanded, limits, mainSegmentHeight, kmeterLevel, n == numberOfBars - 1);
        layout := layout + [Bounds(0, y, width, segmentHeight + 1)];
        y := y + segmentHeight;
        kmeterLevel := kmeterLevel - range;
        n := n + 1;
      }
    }

    /** setLevels: new readings are stored and passed on to the segments only when one of the four changed. */
    method SetLevels(peakLevel: real, averageLevel: real, peakLevelPeak: real, averageLevelPeak: real)
      modifies this
      ensures levels == Levels(peakLevel, averageLevel, peakLevelPeak, averageLevelPeak)
      ensures forwarded == if old(levels) == levels then old(forwarded) else old(forwarded) + [levels]
      ensures isExpanded == old(isExpanded) && displayPeakMeter == old(displayPeakMeter) && limits == old(limits)
      ensures numberOfBars == old(numberOfBars) && segments == old(segments)
      ensures posX == old(posX) && posY == old(posY) && width == old(width) && mainSegmentHeight == old(mainSegmentHeight)
    {
      if peakLevel != levels.peak || averageLevel != levels.average
         || peakLevelPeak != levels.peakPeak || averageLevelPeak != levels.averagePeak {
        levels := Levels(peakLevel, averageLevel, peakLevelPeak, averageLevelPeak);
        forwarded := forwarded + [levels];
      }
    }
  }
}
