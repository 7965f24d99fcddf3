/**
 * The legacy meter bar (src/meter_bar.cpp): a column of segments whose
 * level ranges are stacked from 0 dB downwards, coloured red, amber and
 * green from the top, laid out back to back and narrowed by the
 * justification in the amber and green bands.
 */
module LegacyMeterBar {
  import opened Numeric
  import opened LegacyMeterSegment

  /** The bar is always 134 base segment heights tall (plus one pixel). */
  const BarHeightInSegments := 134

  /**
   * The headroom the bar shows and the index limits of its bands: the
   * first `top` segments are fine, segments below `red` are red, below
   * `amber` amber, and the others green; segments from `green1` on are
   * coarse, and from `green2` on coarsest.
   */
  datatype Limits = Limits(headroom: int, numberOfBars: nat, top: nat, red: nat, amber: nat, green1: nat, green2: nat)

  predicate Ordered(l: Limits)
  {
    l.red <= l.amber && l.top <= l.green1 <= l.green2
  }

  /** The limits the constructor picks; a headroom other than 0, 12 or 14 is K-20. */
  function BarLimits(headroom: int, expanded: bool): (l: Limits)
    ensures Ordered(l)
    ensures l.headroom == (if headroom == 0 || headroom == 12 || headroom == 14 then headroom else 20)
    ensures expanded ==> l.numberOfBars == 134
    ensures !expanded ==> l.numberOfBars == (if l.headroom == 0 then 47 else if l.headroom == 12 then 48
                                              else if l.headroom == 14 then 50 else 51)
  {
    if expanded then
      if headroom == 0 then Limits(0, 134, 40, 40, 80, 800, 800)
      else if headroom == 12 then Limits(12, 134, 80, 80, 120, 800, 800)
      else if headroom == 14 then Limits(14, 134, 100, 100, 140, 800, 800)
      else Limits(20, 134, 160, 160, 200, 800, 800)
    else
      if headroom == 0 then Limits(0, 47, 4, 6, 14, 42, 42)
      else if headroom == 12 then Limits(12, 48, 4, 10, 14, 44, 44)
      else if headroom == 14 then Limits(14, 50, 4, 12, 16, 46, 46)
      else Limits(20, 51, 4, 18, 22, 46, 47)
  }

  // ---------------------------------------------------------------------
  // The threshold ladder
  // ---------------------------------------------------------------------

  /** The level range of segment n in dB: 0.1 expanded, otherwise 0.5, 1, 6 or 10 by band. */
  function Range(expanded: bool, l: Limits, n: nat): (r: real)
    ensures r > 0.0
    ensures expanded ==> r == 0.1
    ensures !expanded ==> r == 0.5 || r == 1.0 || r == 6.0 || r == 10.0
  {
    if expanded then 0.1
    else if n < l.top then 0.5
    else if n < l.green1 then 1.0
    else if n < l.green2 then 6.0
    else 10.0
  }

  /** The colour number of segment n: 0 red, 1 amber, 2 green. */
  function Colour(l: Limits, n: nat): (c: int)
    ensures 0 <= c <= 2
    ensures c == 0 <==> n < l.red
    ensures c == 2 <==> n >= l.amber && n >= l.red
  {
    if n < l.red then 0 else if n < l.amber then 1 else 2
  }

  /** Colours run red, amber, green from the top: the colour number never falls along the bar. */
  lemma ColourMonotone(l: Limits, i: nat, j: nat)
    requires Ordered(l) && i <= j
    ensures Colour(l, i) <= Colour(l, j)
    ensures Hue(Colour(l, i)) <= Hue(Colour(l, j))
  {
    HueMonotone(Colour(l, i), Colour(l, j));
  }

  /**
   * The threshold the constructor's loop holds before segment n: 0 dB for
   * the first, and each segment's range below the previous one.  Segment n
   * spans Edge(n + 1) to Edge(n).
   */
  function Edge(expanded: bool, l: Limits, n: nat): real
  {
    if n == 0 then 0.0 else Edge(expanded, l, n - 1) - Range(expanded, l, n - 1)
  }

  /** Thresholds strictly decrease down the bar. */
  lemma {:induction false} EdgeDecreasing(expanded: bool, l: Limits, i: nat, j: nat)
    requires i < j
    ensures Edge(expanded, l, j) < Edge(expanded, l, i)
    decreases j - i
  {
    if j > i + 1 {
      EdgeDecreasing(expanded, l, i, j - 1);
    }
  }

  /** Each segment's upper threshold (lower + range) is the previous segment's lower threshold; the first is 0 dB. */
  lemma SegmentsContiguous(expanded: bool, l: Limits, n: nat)
    ensures Edge(expanded, l, n + 1) + Range(expanded, l, n) == Edge(expanded, l, n)
    ensures n == 0 ==> Edge(expanded, l, n + 1) + Range(expanded, l, n) == 0.0
  {
  }

  /** On the ladder a peak lights the marker of at most one segment. */
  lemma {:induction false} AtMostOneMarker(expanded: bool, l: Limits, i: nat, j: nat, peak: real)
    requires i != j
    ensures !(PeakMarker(Edge(expanded, l, i + 1), Edge(expanded, l, i), peak)
              && PeakMarker(Edge(expanded, l, j + 1), Edge(expanded, l, j), peak))
  {
    if i < j {
      if i + 1 < j {
        EdgeDecreasing(expanded, l, i + 1, j);
      }
    } else {
      if j + 1 < i {
        EdgeDecreasing(expanded, l, j + 1, i);
      }
    }
  }

  // ---------------------------------------------------------------------
  // The layout
  // ---------------------------------------------------------------------

  datatype Bounds = Bounds(x: int, y: int, width: int, height: int)

  /** The height of segment n in pixels, before the one-pixel overlap setBounds adds. */
  function SegmentHeight(expanded: bool, l: Limits, mainHeight: int, n: nat): int
  {
    if expanded then mainHeight
    else if n < l.top then mainHeight
    else if n < l.green1 then 2 * mainHeight
    else if n < l.green2 then 6 * mainHeight
    else if n == l.numberOfBars - 1 then
      if l.headroom == 0 then 14 * mainHeight
      else if l.headroom == 12 then 20 * mainHeight
      else if l.headroom == 14 then 16 * mainHeight
      else 10 * mainHeight
    else 10 * mainHeight
  }

  /** The y position of segment n: the segments above it, back to back. */
  function SegmentTop(expanded: bool, l: Limits, mainHeight: int, n: nat): int
  {
    if n == 0 then 0 else SegmentTop(expanded, l, mainHeight, n - 1) + SegmentHeight(expanded, l, mainHeight, n - 1)
  }

  /** Across a run of segments of equal height the position grows by that height each time. */
  lemma {:induction false} TopAcrossBand(expanded: bool, l: Limits, mainHeight: int, j: nat, k: nat, c: int)
    requires j <= k
    requires forall n :: j <= n < k ==> SegmentHeight(expanded, l, mainHeight, n) == c
    ensures SegmentTop(expanded, l, mainHeight, k) == SegmentTop(expanded, l, mainHeight, j) + (k - j) * c
    decreases k - j
  {
    if j < k {
      TopAcrossBand(expanded, l, mainHeight, j, k - 1, c);
      assert (k - j) * c == (k - 1 - j) * c + c;
    }
  }

  /** For every headroom and either scale the segments tile exactly the 134 base heights of the bar. */
  lemma BarTiledBySegments(headroom: int, expanded: bool, mainHeight: int)
    ensures var l := BarLimits(headroom, expanded);
      SegmentTop(expanded, l, mainHeight, l.numberOfBars) == BarHeightInSegments * mainHeight
  {
    var l := BarLimits(headroom, expanded);
    var last := l.numberOfBars - 1;
    if expanded {
      TopAcrossBand(expanded, l, mainHeight, 0, l.numberOfBars, mainHeight);
    } else {
      TopAcrossBand(expanded, l, mainHeight, 0, l.top, mainHeight);
      TopAcrossBand(expanded, l, mainHeight, l.top, l.green1, 2 * mainHeight);
      TopAcrossBand(expanded, l, mainHeight, l.green1, l.green2, 6 * mainHeight);
      TopAcrossBand(expanded, l, mainHeight, l.green2, last, 10 * mainHeight);
      assert SegmentTop(expanded, l, mainHeight, l.numberOfBars)
        == l.top * mainHeight + (l.green1 - l.top) * 2 * mainHeight + (l.green2 - l.green1) * 6 * mainHeight
           + (last - l.green2) * 10 * mainHeight + SegmentHeight(expanded, l, mainHeight, last);
    }
  }

  /** The justified width of segment n: full in the red band, 85 % in amber and 75 % in green unless centred. */
  function SegmentWidth(l: Limits, justify: string, totalWidth: int, n: nat): (w: int)
    ensures n < l.red || (justify != "left" && justify != "right") ==> w == totalWidth
    ensures totalWidth >= 0 ==> 0 <= w <= totalWidth
  {
    if n < l.red || (justify != "left" && justify != "right") then totalWidth
    else if n < l.amber then Trunc(totalWidth as real * 0.85)
    else Trunc(totalWidth as real * 0.75)
  }

  /** The x position of segment n: a left-justified meter is flush with the right edge, the others start at 0. */
  function SegmentX(l: Limits, justify: string, totalWidth: int, n: nat): (x: int)
    ensures justify == "left" ==> x + SegmentWidth(l, justify, totalWidth, n) == totalWidth
    ensures justify != "left" ==> x == 0
  {
    if n >= l.red && justify == "left" then totalWidth - SegmentWidth(l, justify, totalWidth, n) else 0
  }

  /** Segments never widen down the bar. */
  lemma WidthsNarrowDownTheBar(l: Limits, justify: string, totalWidth: int, i: nat, j: nat)
    requires Ordered(l) && totalWidth >= 0 && i <= j
    ensures SegmentWidth(l, justify, totalWidth, j) <= SegmentWidth(l, justify, totalWidth, i)
  {
    if l.amber <= i && (justify == "left" || justify == "right") {
      assert SegmentWidth(l, justify, totalWidth, j) == SegmentWidth(l, justify, totalWidth, i);
    }
  }

  /** The bounds visibilityChanged gives segment n. */
  function SegmentBounds(expanded: bool, l: Limits, justify: string, totalWidth: int, mainHeight: int, n: nat): (b: Bounds)
    ensures b.y + b.height - 1 == SegmentTop(expanded, l, mainHeight, n + 1)
    ensures b.width == SegmentWidth(l, justify, totalWidth, n) && b.x == SegmentX(l, justify, totalWidth, n)
  {
    Bounds(SegmentX(l, justify, totalWidth, n), SegmentTop(expanded, l, mainHeight, n),
           SegmentWidth(l, justify, totalWidth, n), SegmentHeight(expanded, l, mainHeight, n) + 1)
  }

  /** Segment n of the ladder: its thresholds are the n-th step, its hue the n-th colour. */
  ghost predicate OnLadder(segment: MeterSegment, expanded: bool, l: Limits, n: nat)
    reads segment
  {
    segment.Valid()
    && segment.lowerThreshold == Edge(expanded, l, n + 1)
    && segment.thresholdRange == Range(expanded, l, n)
    && segment.hue == Hue(Colour(l, n))
  }

  /** The readings setLevels(level, peak) leaves in a segment. */
  ghost predicate ShowsLevels(segment: MeterSegment, level: real, peak: real)
    reads segment
  {
    segment.level == level
    && segment.brightness == Brightness(segment.lowerThreshold, segment.thresholdRange, level)
    && segment.peakMarker == PeakMarker(segment.lowerThreshold, segment.upperThreshold, peak)
  }

  /** The constructor's loop: one new segment per step, the threshold lowered by each segment's range. */
  method BuildSegments(expanded: bool, l: Limits) returns (segments: seq<MeterSegment>)
    ensures |segments| == l.numberOfBars
    ensures forall i, j :: 0 <= i < j < |segments| ==> segments[i] != segments[j]
    ensures forall k :: 0 <= k < |segments| ==> fresh(segments[k])
    ensures forall k :: 0 <= k < |segments| ==> OnLadder(segments[k], expanded, l, k) && !segments[k].peakMarker
  {
    segments := [];
    var threshold := 0.0;
    var n := 0;
    while n < l.numberOfBars
      invariant n <= l.numberOfBars && |segments| == n
      invariant threshold == Edge(expanded, l, n)
      invariant forall i, j :: 0 <= i < j < n ==> segments[i] != segments[j]
      invariant forall k :: 0 <= k < n ==> fresh(segments[k])
      invariant forall k :: 0 <= k < n ==> OnLadder(segments[k], expanded, l, k) && !segments[k].peakMarker
    {
      var range := if expanded then 0.1
                   else if n < l.top then 0.5
                   else if n < l.green1 then 1.0
                   else if n < l.green2 then 6.0
                   else 10.0;
      var colour := if n < l.red then 0 else if n < l.amber then 1 else 2;
      threshold := threshold - range;
      var segment := new MeterSegment(threshold, range, colour);
      segments := segments + [segment];
      n := n + 1;
    }
  }

  /** The bar with its segments. */
  class MeterBar {
    var isExpanded: bool
    var meterHeadroom: int
    var numberOfBars: nat
    var limitTopBars: nat
    var limitRedBars: nat
    var limitAmberBars: nat
    var limitGreenBars1: nat
    var limitGreenBars2: nat
    var posX: int
    var posY: int
    var width: int
    var mainSegmentHeight: int
    var justifyMeter: string
    var level: real
    var peak: real
    var segments: seq<MeterSegment>

    function Config(): (l: Limits)
      reads this
    {
      Limits(meterHeadroom, numberOfBars, limitTopBars, limitRedBars, limitAmberBars, limitGreenBars1, limitGreenBars2)
    }

    /** One distinct segment per step of the ladder. */
    ghost predicate Ladder()
      reads this, segments
    {
      Ordered(Config()) && |segments| == numberOfBars
      && (forall i, j :: 0 <= i < j < |segments| ==> segments[i] != segments[j])
      && (forall n :: 0 <= n < |segments| ==> OnLadder(segments[n], isExpanded, Config(), n))
    }

    /** The ladder, and no two segments showing the peak marker. */
    ghost predicate Valid()
      reads this, segments
    {
      Ladder()
      && (forall i, j :: 0 <= i < j < |segments| ==> !(segments[i].peakMarker && segments[j].peakMarker))
    }

    /**
     * The constructor; `initialPeak` stands for the peak field, which the
     * source leaves uninitialised.
     */
    constructor (x: int, y: int, totalWidth: int, headroom: int, expanded: bool, segmentHeight: int,
                 justify: string, initialPeak: real)
      ensures Valid()
      ensures Config() == BarLimits(headroom, expanded) && isExpanded == expanded
      ensures posX == x && posY == y && width == totalWidth && mainSegmentHeight == segmentHeight
      ensures justifyMeter == justify && level == 0.0 && peak == initialPeak
      ensures forall n :: 0 <= n < |segments| ==> fresh(segments[n])
    {
      var l := BarLimits(headroom, expanded);
      var segs := BuildSegments(expanded, l);
      isExpanded := expanded;
      meterHeadroom := l.headroom;
      numberOfBars := l.numberOfBars;
      limitTopBars := l.top;
      limitRedBars := l.red;
      limitAmberBars := l.amber;
      limitGreenBars1 := l.green1;
      limitGreenBars2 := l.green2;
      posX := x;
      posY := y;
      width := totalWidth;
      mainSegmentHeight := segmentHeight;
      justifyMeter := justify;
      level := 0.0;
      peak := initialPeak;
      segments := segs;
    }

    /**
     * visibilityChanged: the bounds of the bar and of each segment, in
     * order; the calls to setBounds are left to the caller.
     */
    method VisibilityChanged() returns (bar: Bounds, layout: seq<Bounds>)
      requires Valid()
      ensures bar == Bounds(posX, posY, width, BarHeightInSegments * mainSegmentHeight + 1)
      ensures |layout| == numberOfBars
      ensures forall n :: 0 <= n < numberOfBars ==>
        layout[n] == SegmentBounds(isExpanded, Config(), justifyMeter, width, mainSegmentHeight, n)
    {
      bar := Bounds(posX, posY, width, BarHeightInSegments * mainSegmentHeight + 1);
      var l := Config();
      var y := 0;
      var n := 0;
      layout := [];
      while n < numberOfBars
        invariant n <= numberOfBars && |layout| == n
        invariant y == SegmentTop(isExpanded, l, mainSegmentHeight, n)
        invariant forall k :: 0 <= k < n ==> layout[k] == SegmentBounds(isExpanded, l, justifyMeter, width, mainSegmentHeight, k)
      {
        var segmentWidth, x;
        if n < limitRedBars {
          segmentWidth, x := width, 0;
        } else if n < limitAmberBars {
          if justifyMeter == "left" {
            segmentWidth := Trunc(width as real * 0.85);
            x := width - segmentWidth;
          } else if justifyMeter == "right" {
            segmentWidth, x := Trunc(width as real * 0.85), 0;
          } else {
            segmentWidth, x := width, 0;
          }
        } else {
          if justifyMeter == "left" {
            segmentWidth := Trunc(width as real * 0.75);
            x := width - segmentWidth;
          } else if justifyMeter == "right" {
            segmentWidth, x := Trunc(width as real * 0.75), 0;
          } else {
            segmentWidth, x := width, 0;
          }
        }
        var segmentHeight := SegmentHeight(isExpanded, l, mainSegmentHeight, n);
        layout := layout + [Bounds(x, y, segmentWidth, segmentHeight + 1)];
        y := y + segmentHeight;
        n := n + 1;
      }
    }

    /**
     * setLevels: when the level or the peak differs from the stored one,
     * store both and pass them to every segment; otherwise nothing changes.
     * Either way at most one segment shows the peak marker afterwards.
     */
    method SetLevels(newLevel: real, newPeak: real)
      requires Valid()
      modifies this, segments
      ensures Valid() && segments == old(segments) && Config() == old(Config()) && isExpanded == old(isExpanded)
      ensures level == newLevel && peak == newPeak
      ensures old(level) == newLevel && old(peak) == newPeak ==> unchanged(segments)
      ensures old(level) != newLevel || old(peak) != newPeak ==>
        forall n :: 0 <= n < |segments| ==> ShowsLevels(segments[n], newLevel, newPeak)
    {
      if level != newLevel || peak != newPeak {
        level := newLevel;
        peak := newPeak;
        ForwardLevels();
      }
    }

    /** The loop of setLevels: every segment is given the stored level and peak. */
    method ForwardLevels()
      requires Ladder()
      modifies segments
      ensures Valid()
      ensures forall n :: 0 <= n < |segments| ==> ShowsLevels(segments[n], level, peak)
    {
      var n := 0;
      while n < |segments|
        invariant n <= |segments| && Ladder()
        invariant forall k :: 0 <= k < n ==> ShowsLevels(segments[k], level, peak)
      {
        var repaint := segments[n].SetLevels(level, peak);
        n := n + 1;
      }
      forall i, j | 0 <= i < j < |segments|
        ensures !(segments[i].peakMarker && segments[j].peakMarker)
      {
        assert OnLadder(segments[i], isExpanded, Config(), i) && OnLadder(segments[j], isExpanded, Config(), j);
        AtMostOneMarker(isExpanded, Config(), i, j, peak);
      }
    }
  }
}
