/**
 * Meter ballistics of the current plug-in (Source/meter_ballistics.cpp):
 * per-channel peak and average readings in decibels, their peak marks,
 * overall maxima and overflow counts, and the stereo and phase
 * correlation readings of a stereo pair.
 *
 * The ballistics are pure functions of the elapsed time and of the
 * readings before the update; the meter object keeps its readings in JUCE arrays and
 * updates them in place.
 */
module MeterBallistics {
  import opened Numeric
  import opened JuceArray
  import PluginParameters

  /** Largest RMS peak-to-average gain correction, in decibels. */
  const PeakToAverageCorrection: real := 2.9881

  /** The meters' floor: 70 dB of range, 0.01 dB margin, 20 dB crest factor and the correction. */
  const MeterMinimumDecibel: real := -(70.01 + 20.0 + PeakToAverageCorrection)

  /** Time in seconds the logarithmic readings need to cover 99 % of a step. */
  const AverageMeterInertia: real := 0.6
  const StereoMeterInertia: real := 1.2

  /** Peak marks are held this many seconds before they start to fall. */
  const PeakHoldTime: real := 10.0

  /** level2decibel: 20 log10 of the level, never below the meters' floor; a zero level reads as the floor. */
  function Level2Decibel(level: real, log10: Log10): (db: real)
    ensures db >= MeterMinimumDecibel
    ensures level == 0.0 ==> db == MeterMinimumDecibel
    ensures level != 0.0 ==> db == Max(20.0 * log10(level), MeterMinimumDecibel)
  {
    if level == 0.0 then MeterMinimumDecibel
    else
      var decibels := 20.0 * log10(level);
      if decibels < MeterMinimumDecibel then MeterMinimumDecibel else decibels
  }

  /** decibel2level: 10 to the power of a twentieth of the decibels. */
  function Decibel2Level(db: real, pow: Pow): (level: real)
  {
    pow(10.0, db / 20.0)
  }

  /** A level above the floor survives the trip to decibels and back when pow inverts log10 at that level. */
  lemma DecibelRoundTrip(level: real, log10: Log10, pow: Pow)
    requires level != 0.0 && 20.0 * log10(level) >= MeterMinimumDecibel
    requires pow(10.0, log10(level)) == level
    ensures Decibel2Level(Level2Decibel(level, log10), pow) == level
  {
    assert Level2Decibel(level, log10) / 20.0 == log10(level);
  }

  /** Level2Decibel keeps the order of levels wherever log10 does. */
  lemma Level2DecibelMonotonic(a: real, b: real, log10: Log10)
    requires a != 0.0 && b != 0.0 && log10(a) <= log10(b)
    ensures Level2Decibel(a, log10) <= Level2Decibel(b, log10)
  {
  }

  /**
   * PeakMeterBallistics: a rising peak is shown at once; a falling one
   * releases by 26 dB / 3 s, but never below the current peak.
   */
  function PeakMeterBallistics(timePassed: real, current: real, previous: real): (r: real)
    ensures r >= current
    ensures current >= previous ==> r == current
    ensures current < previous ==> r == Max(current, previous - 26.0 * timePassed / 3.0)
  {
    if current >= previous then current
    else
      var released := previous - 26.0 * timePassed / 3.0;
      if current > released then current else released
  }

  /** Over a non-negative time the peak reading never rises above the previous reading and the current peak, and falls by at most the release. */
  lemma PeakMeterBallisticsBounds(timePassed: real, current: real, previous: real)
    requires timePassed >= 0.0
    ensures PeakMeterBallistics(timePassed, current, previous) <= Max(current, previous)
    ensures PeakMeterBallistics(timePassed, current, previous) >= previous - 26.0 * timePassed / 3.0
  {
  }

  /** A peak mark and the time since it last changed (negative: infinite hold). */
  datatype PeakMark = PeakMark(level: real, lastChanged: real)

  /** A peak mark never shows more than 0 dB. */
  function ClampToFullScale(level: real): (r: real)
    ensures r <= 0.0 && r <= level
    ensures level <= 0.0 ==> r == level
  {
    if level >= 0.0 then 0.0 else level
  }

  /**
   * PeakMeterPeakBallistics: the mark follows a rising peak (clamped to
   * 0 dB) and restarts its timer; otherwise the timer advances (unless it
   * is negative) and the mark is held until it reaches 10 s, then falls by
   * 26 dB / 3 s, never below the current peak.
   */
  function PeakMeterPeakBallistics(timePassed: real, lastChanged: real, current: real, previous: real): (r: PeakMark)
    ensures ClampToFullScale(current) >= previous ==>
      r.level == ClampToFullScale(current) && r.lastChanged == (if lastChanged >= 0.0 then 0.0 else lastChanged)
    ensures ClampToFullScale(current) < previous ==>
      r.lastChanged == (if lastChanged >= 0.0 then lastChanged + timePassed else lastChanged)
    ensures ClampToFullScale(current) < previous && r.lastChanged < PeakHoldTime ==> r.level == previous
    ensures ClampToFullScale(current) < previous && r.lastChanged >= PeakHoldTime ==>
      r.level == Max(ClampToFullScale(current), previous - 26.0 * timePassed / 3.0)
  {
    var current := ClampToFullScale(current);
    if current >= previous then
      PeakMark(current, if lastChanged >= 0.0 then 0.0 else lastChanged)
    else
      var changed := if lastChanged >= 0.0 then lastChanged + timePassed else lastChanged;
      if changed < PeakHoldTime then PeakMark(previous, changed)
      else
        var released := previous - 26.0 * timePassed / 3.0;
        PeakMark(if current > released then current else released, changed)
  }

  /** The mark stays at or under the larger of the previous mark and 0 dB, and never under the clamped current peak. */
  lemma PeakMarkBounds(timePassed: real, lastChanged: real, current: real, previous: real)
    requires timePassed >= 0.0
    ensures PeakMeterPeakBallistics(timePassed, lastChanged, current, previous).level <= Max(previous, ClampToFullScale(current))
    ensures PeakMeterPeakBallistics(timePassed, lastChanged, current, previous).level >= ClampToFullScale(current)
  {
  }

  /** A mark at or below 0 dB stays at or below 0 dB. */
  lemma PeakMarkAtMostFullScale(timePassed: real, lastChanged: real, current: real, previous: real)
    requires timePassed >= 0.0 && previous <= 0.0
    ensures PeakMeterPeakBallistics(timePassed, lastChanged, current, previous).level <= 0.0
  {
    PeakMarkBounds(timePassed, lastChanged, current, previous);
  }

  /** Infinite hold: with a negative timer the mark is the larger of the previous mark and the clamped peak, and the timer stays. */
  lemma InfiniteHoldNeverFalls(timePassed: real, lastChanged: real, current: real, previous: real)
    requires lastChanged < 0.0
    ensures PeakMeterPeakBallistics(timePassed, lastChanged, current, previous)
      == PeakMark(Max(previous, ClampToFullScale(current)), lastChanged)
  {
  }

  /** Falling-peaks mode: a mark not exceeded for less than 10 s in total is held. */
  lemma MarkHeldDuringHoldTime(timePassed: real, lastChanged: real, current: real, previous: real)
    requires 0.0 <= lastChanged && lastChanged + timePassed < PeakHoldTime
    ensures PeakMeterPeakBallistics(timePassed, lastChanged, current, previous).level == Max(previous, ClampToFullScale(current))
  {
  }

  /**
   * LogMeterBallistics: the readout moves towards the level, leaving the
   * fraction pow(0.01, t / inertia) of the distance; an unchanged level
   * leaves it alone.
   */
  function LogMeterBallistics(inertia: real, timePassed: real, level: real, readout: real, pow: Pow): (r: real)
    requires inertia > 0.0
    ensures level == readout ==> r == readout
    ensures level != readout ==> r - level == pow(0.01, timePassed / inertia) * (readout - level)
  {
    if level != readout then
      var coefficient := pow(0.01, timePassed / inertia);
      coefficient * (readout - level) + level
    else readout
  }

  /** With a coefficient in [0, 1] the new readout lies between the previous readout and the level. */
  lemma LogMeterBetween(inertia: real, timePassed: real, level: real, readout: real, pow: Pow)
    requires inertia > 0.0
    requires 0.0 <= pow(0.01, timePassed / inertia) <= 1.0
    ensures level <= readout ==> level <= LogMeterBallistics(inertia, timePassed, level, readout, pow) <= readout
    ensures readout <= level ==> readout <= LogMeterBallistics(inertia, timePassed, level, readout, pow) <= level
  {
    var c := pow(0.01, timePassed / inertia);
    if level < readout {
      ProductNonNegative(c, readout - level);
      ProductNonNegative(1.0 - c, readout - level);
    } else if readout < level {
      ProductNonNegative(c, level - readout);
      ProductNonNegative(1.0 - c, level - readout);
    }
  }

  lemma ProductNonNegative(a: real, b: real)
    requires a >= 0.0 && b >= 0.0
    ensures a * b >= 0.0
  {
  }

  /** After exactly the inertia time the readout has covered 99 % of the step. */
  lemma LogMeterInertia(inertia: real, level: real, readout: real, pow: Pow)
    requires inertia > 0.0 && pow(0.01, 1.0) == 0.01
    ensures LogMeterBallistics(inertia, inertia, level, readout, pow) - level == 0.01 * (readout - level)
  {
    assert inertia / inertia == 1.0;
  }

  /** The readings of a meter: all per-channel arrays, the algorithm and the stereo pair's readings. */
  datatype Meter = Meter(
    channels: nat, algorithm: int,
    peakLevels: seq<real>, peakPeakLevels: seq<real>, maximumPeakLevels: seq<real>,
    averageLevels: seq<real>, averagePeakLevels: seq<real>,
    overflows: seq<int>, peakLastChanged: seq<real>, averageLastChanged: seq<real>,
    stereoMeterValue: real, phaseCorrelation: real)

  predicate Consistent(m: Meter)
  {
    |m.peakLevels| == m.channels && |m.peakPeakLevels| == m.channels && |m.maximumPeakLevels| == m.channels
    && |m.averageLevels| == m.channels && |m.averagePeakLevels| == m.channels && |m.overflows| == m.channels
    && |m.peakLastChanged| == m.channels && |m.averageLastChanged| == m.channels
  }

  function HoldTimer(infiniteHold: bool): (t: real)
    ensures t < 0.0 <==> infiniteHold
  {
    if infiniteHold then -1.0 else 0.0
  }

  /** reset: every level to the floor, no overflows, centred stereo reading, correlation +1; hold timers stay. */
  function Reset(m: Meter): (r: Meter)
    ensures r.channels == m.channels && r.algorithm == m.algorithm
    ensures r.peakLastChanged == m.peakLastChanged && r.averageLastChanged == m.averageLastChanged
    ensures r.phaseCorrelation == 1.0 && r.stereoMeterValue == 0.0
    ensures Consistent(m) ==> Consistent(r)
    ensures Consistent(m) ==> forall c :: 0 <= c < m.channels ==>
      r.peakLevels[c] == MeterMinimumDecibel && r.peakPeakLevels[c] == MeterMinimumDecibel
      && r.maximumPeakLevels[c] == MeterMinimumDecibel && r.averageLevels[c] == MeterMinimumDecibel
      && r.averagePeakLevels[c] == MeterMinimumDecibel && r.overflows[c] == 0
  {
    var n := m.channels;
    FilledValues(m.peakLevels, n, MeterMinimumDecibel); FilledValues(m.peakPeakLevels, n, MeterMinimumDecibel);
    FilledValues(m.averageLevels, n, MeterMinimumDecibel); FilledValues(m.averagePeakLevels, n, MeterMinimumDecibel);
    FilledValues(m.maximumPeakLevels, n, MeterMinimumDecibel); FilledValues(m.overflows, n, 0);
    m.(phaseCorrelation := 1.0, stereoMeterValue := 0.0,
       peakLevels := Filled(m.peakLevels, n, MeterMinimumDecibel),
       peakPeakLevels := Filled(m.peakPeakLevels, n, MeterMinimumDecibel),
       averageLevels := Filled(m.averageLevels, n, MeterMinimumDecibel),
       averagePeakLevels := Filled(m.averagePeakLevels, n, MeterMinimumDecibel),
       maximumPeakLevels := Filled(m.maximumPeakLevels, n, MeterMinimumDecibel),
       overflows := Filled(m.overflows, n, 0))
  }

  /** The meter the constructor builds from empty arrays. */
  function Initial(channels: nat, algorithm: int, peakHold: bool, averageHold: bool): (m: Meter)
    ensures Consistent(m) && m.channels == channels && m.algorithm == algorithm
    ensures forall c :: 0 <= c < channels ==>
      m.peakLastChanged[c] == HoldTimer(peakHold) && m.averageLastChanged[c] == HoldTimer(averageHold)
    ensures forall c :: 0 <= c < channels ==> m.maximumPeakLevels[c] == MeterMinimumDecibel && m.overflows[c] == 0
  {
    FilledValues([], channels, HoldTimer(peakHold)); FilledValues([], channels, HoldTimer(averageHold));
    FilledValues([], channels, MeterMinimumDecibel); FilledValues([], channels, 0);
    Reset(Meter(channels, algorithm, [], [], [], [], [], [],
                Filled([], channels, HoldTimer(peakHold)), Filled([], channels, HoldTimer(averageHold)), 0.0, 1.0))
  }

  /** `r` is the largest of `floor` and the elements of `s`. */
  predicate IsMaxFrom(r: real, floor: real, s: seq<real>)
  {
    r >= floor && (forall c :: 0 <= c < |s| ==> r >= s[c])
    && (r == floor || exists c :: 0 <= c < |s| && r == s[c])
  }

  /** The reading of one channel's meter when ITU-R BS.1770 shows a single meter for all channels. */
  function SingleMeter(m: Meter, channel: int, s: seq<real>, r: real): bool
  {
    if channel == 0 then IsMaxFrom(r, MeterMinimumDecibel, s) else r == MeterMinimumDecibel
  }

  /** The peak half of updateChannel: overall maximum, peak reading and peak mark of one channel, from a peak in decibels. */
  function PeakUpdate(m: Meter, channel: int, timePassed: real, db: real): (r: Meter)
    requires Consistent(m) && 0 <= channel < m.channels
    ensures Consistent(r) && r.channels == m.channels && r.algorithm == m.algorithm
    ensures r.stereoMeterValue == m.stereoMeterValue && r.phaseCorrelation == m.phaseCorrelation
    ensures r.averageLevels == m.averageLevels && r.averagePeakLevels == m.averagePeakLevels
    ensures r.averageLastChanged == m.averageLastChanged && r.overflows == m.overflows
    ensures r.maximumPeakLevels == m.maximumPeakLevels[channel := Max(m.maximumPeakLevels[channel], db)]
    ensures r.peakLevels == m.peakLevels[channel := PeakMeterBallistics(timePassed, db, m.peakLevels[channel])]
    ensures var mark := PeakMeterPeakBallistics(timePassed, m.peakLastChanged[channel], db, m.peakPeakLevels[channel]);
      r.peakPeakLevels == m.peakPeakLevels[channel := mark.level] && r.peakLastChanged == m.peakLastChanged[channel := mark.lastChanged]
  {
    var maximum := if db > m.maximumPeakLevels[channel] then db else m.maximumPeakLevels[channel];
    var peakMark := PeakMeterPeakBallistics(timePassed, m.peakLastChanged[channel], db, m.peakPeakLevels[channel]);
    m.(maximumPeakLevels := m.maximumPeakLevels[channel := maximum],
       peakLevels := m.peakLevels[channel := PeakMeterBallistics(timePassed, db, m.peakLevels[channel])],
       peakPeakLevels := m.peakPeakLevels[channel := peakMark.level],
       peakLastChanged := m.peakLastChanged[channel := peakMark.lastChanged])
  }

  /** The average half of updateChannel: average reading and its peak mark of one channel, from the filtered level in decibels. */
  function AverageUpdate(m: Meter, channel: int, timePassed: real, averageFiltered: real, pow: Pow): (r: Meter)
    requires Consistent(m) && 0 <= channel < m.channels
    ensures Consistent(r) && r.channels == m.channels && r.algorithm == m.algorithm
    ensures r.stereoMeterValue == m.stereoMeterValue && r.phaseCorrelation == m.phaseCorrelation
    ensures r.peakLevels == m.peakLevels && r.peakPeakLevels == m.peakPeakLevels && r.maximumPeakLevels == m.maximumPeakLevels
    ensures r.peakLastChanged == m.peakLastChanged && r.overflows == m.overflows
    ensures r.averageLevels == m.averageLevels[channel := LogMeterBallistics(AverageMeterInertia, timePassed, averageFiltered, m.averageLevels[channel], pow)]
    ensures var mark := PeakMeterPeakBallistics(timePassed, m.averageLastChanged[channel], r.averageLevels[channel], m.averagePeakLevels[channel]);
      r.averagePeakLevels == m.averagePeakLevels[channel := mark.level] && r.averageLastChanged == m.averageLastChanged[channel := mark.lastChanged]
  {
    var average := LogMeterBallistics(AverageMeterInertia, timePassed, averageFiltered, m.averageLevels[channel], pow);
    var averageMark := PeakMeterPeakBallistics(timePassed, m.averageLastChanged[channel], average, m.averagePeakLevels[channel]);
    m.(averageLevels := m.averageLevels[channel := average],
       averagePeakLevels := m.averagePeakLevels[channel := averageMark.level],
       averageLastChanged := m.averageLastChanged[channel := averageMark.lastChanged])
  }

  /** updateChannel on the abstract state.  The RMS level is converted to decibels and then unused. */
  function ChannelUpdate(m: Meter, channel: int, timePassed: real, peak: real, rms: real, averageFiltered: real,
                         overflows: int, log10: Log10, pow: Pow): (r: Meter)
    requires Consistent(m) && 0 <= channel < m.channels
    ensures Consistent(r) && r.channels == m.channels && r.algorithm == m.algorithm
    ensures r.stereoMeterValue == m.stereoMeterValue && r.phaseCorrelation == m.phaseCorrelation
    ensures r.maximumPeakLevels[channel] == Max(m.maximumPeakLevels[channel], Level2Decibel(peak, log10))
    ensures r.overflows[channel] == m.overflows[channel] + overflows
    ensures r.peakLevels[channel] == PeakMeterBallistics(timePassed, Level2Decibel(peak, log10), m.peakLevels[channel])
    ensures r.averageLevels[channel] == LogMeterBallistics(AverageMeterInertia, timePassed, averageFiltered, m.averageLevels[channel], pow)
    ensures PeakMark(r.peakPeakLevels[channel], r.peakLastChanged[channel])
      == PeakMeterPeakBallistics(timePassed, m.peakLastChanged[channel], Level2Decibel(peak, log10), m.peakPeakLevels[channel])
    ensures PeakMark(r.averagePeakLevels[channel], r.averageLastChanged[channel])
      == PeakMeterPeakBallistics(timePassed, m.averageLastChanged[channel], r.averageLevels[channel], m.averagePeakLevels[channel])
    ensures forall c :: 0 <= c < m.channels && c != channel ==>
      r.peakLevels[c] == m.peakLevels[c] && r.peakPeakLevels[c] == m.peakPeakLevels[c]
      && r.maximumPeakLevels[c] == m.maximumPeakLevels[c] && r.averageLevels[c] == m.averageLevels[c]
      && r.averagePeakLevels[c] == m.averagePeakLevels[c] && r.overflows[c] == m.overflows[c]
      && r.peakLastChanged[c] == m.peakLastChanged[c] && r.averageLastChanged[c] == m.averageLastChanged[c]
  {
    var db := Level2Decibel(peak, log10);
    var maximum := if db > m.maximumPeakLevels[channel] then db else m.maximumPeakLevels[channel];
    var peakMark := PeakMeterPeakBallistics(timePassed, m.peakLastChanged[channel], db, m.peakPeakLevels[channel]);
    var average := LogMeterBallistics(AverageMeterInertia, timePassed, averageFiltered, m.averageLevels[channel], pow);
    var averageMark := PeakMeterPeakBallistics(timePassed, m.averageLastChanged[channel], average, m.averagePeakLevels[channel]);
    m.(maximumPeakLevels := m.maximumPeakLevels[channel := maximum],
       peakLevels := m.peakLevels[channel := PeakMeterBallistics(timePassed, db, m.peakLevels[channel])],
       peakPeakLevels := m.peakPeakLevels[channel := peakMark.level],
       peakLastChanged := m.peakLastChanged[channel := peakMark.lastChanged],
       averageLevels := m.averageLevels[channel := average],
       averagePeakLevels := m.averagePeakLevels[channel := averageMark.level],
       averageLastChanged := m.averageLastChanged[channel := averageMark.lastChanged],
       overflows := m.overflows[channel := m.overflows[channel] + overflows])
  }

  /** updateChannel is its peak half, then its average half, then the overflow count. */
  lemma ChannelUpdateInSteps(m: Meter, channel: int, timePassed: real, peak: real, rms: real, averageFiltered: real,
                             overflows: int, log10: Log10, pow: Pow)
    requires Consistent(m) && 0 <= channel < m.channels
    ensures var averaged := AverageUpdate(PeakUpdate(m, channel, timePassed, Level2Decibel(peak, log10)), channel, timePassed, averageFiltered, pow);
      averaged.(overflows := m.overflows[channel := m.overflows[channel] + overflows])
      == ChannelUpdate(m, channel, timePassed, peak, rms, averageFiltered, overflows, log10, pow)
  {
  }

  /** One call of updateChannel. */
  datatype ChannelData = ChannelData(channel: int, timePassed: real, peak: real, rms: real, averageFiltered: real, overflows: int)

  predicate ForChannels(updates: seq<ChannelData>, channels: nat)
  {
    forall k :: 0 <= k < |updates| ==> 0 <= updates[k].channel < channels
  }

  /** The meter after a run of updateChannel calls. */
  function UpdateAll(m: Meter, updates: seq<ChannelData>, log10: Log10, pow: Pow): (r: Meter)
    requires Consistent(m) && ForChannels(updates, m.channels)
    ensures Consistent(r) && r.channels == m.channels
    decreases |updates|
  {
    if updates == [] then m
    else
      var u := updates[|updates| - 1];
      var before := UpdateAll(m, updates[..|updates| - 1], log10, pow);
      ChannelUpdate(before, u.channel, u.timePassed, u.peak, u.rms, u.averageFiltered, u.overflows, log10, pow)
  }

  lemma UpdateAllStep(m: Meter, updates: seq<ChannelData>, u: ChannelData, log10: Log10, pow: Pow)
    requires Consistent(m) && ForChannels(updates + [u], m.channels)
    ensures ForChannels(updates, m.channels)
    ensures UpdateAll(m, updates + [u], log10, pow)
      == ChannelUpdate(UpdateAll(m, updates, log10, pow), u.channel, u.timePassed, u.peak, u.rms, u.averageFiltered,
                       u.overflows, log10, pow)
  {
    assert forall k :: 0 <= k < |updates| ==> updates[k] == (updates + [u])[k];
    assert (updates + [u])[..|updates|] == updates;
  }

  /** The run of the first k + 1 updates is the run of the first k, then update k. */
  lemma UpdateAllPrefixStep(m: Meter, updates: seq<ChannelData>, k: nat, log10: Log10, pow: Pow)
    requires Consistent(m) && ForChannels(updates, m.channels) && k < |updates|
    ensures ForChannels(updates[..k], m.channels) && ForChannels(updates[..k + 1], m.channels)
    ensures var u := updates[k];
      UpdateAll(m, updates[..k + 1], log10, pow)
      == ChannelUpdate(UpdateAll(m, updates[..k], log10, pow), u.channel, u.timePassed, u.peak, u.rms, u.averageFiltered,
                       u.overflows, log10, pow)
  {
    assert updates[..k + 1] == updates[..k] + [updates[k]];
    UpdateAllStep(m, updates[..k], updates[k], log10, pow);
  }

  /** The decibel peaks of the updates that concern one channel. */
  function PeaksOn(updates: seq<ChannelData>, channel: int, log10: Log10): (s: seq<real>)
    ensures |s| <= |updates|
  {
    if updates == [] then []
    else
      var u := updates[|updates| - 1];
      PeaksOn(updates[..|updates| - 1], channel, log10)
      + (if u.channel == channel then [Level2Decibel(u.peak, log10)] else [])
  }

  /** The overflow counts of the updates that concern one channel. */
  function OverflowsOn(updates: seq<ChannelData>, channel: int): (s: seq<int>)
    ensures |s| <= |updates|
  {
    if updates == [] then []
    else
      var u := updates[|updates| - 1];
      OverflowsOn(updates[..|updates| - 1], channel) + (if u.channel == channel then [u.overflows] else [])
  }

  /** The updates of one pass over the channels, channel c at position c. */
  predicate InChannelOrder(updates: seq<ChannelData>)
  {
    forall c :: 0 <= c < |updates| ==> updates[c].channel == c
  }

  /** In one pass over the channels each channel is updated exactly once, when it is among them. */
  lemma {:induction false} OnePassPerChannel(updates: seq<ChannelData>, channel: int, log10: Log10)
    requires InChannelOrder(updates) && 0 <= channel
    ensures OverflowsOn(updates, channel) == if channel < |updates| then [updates[channel].overflows] else []
    ensures PeaksOn(updates, channel, log10) == if channel < |updates| then [Level2Decibel(updates[channel].peak, log10)] else []
  {
    if updates != [] {
      var rest := updates[..|updates| - 1];
      assert forall c :: 0 <= c < |rest| ==> rest[c] == updates[c];
      OnePassPerChannel(rest, channel, log10);
      if channel < |rest| {
        assert OverflowsOn(updates, channel) == OverflowsOn(rest, channel) + [];
        assert PeaksOn(updates, channel, log10) == PeaksOn(rest, channel, log10) + [];
      }
    }
  }

  /**
   * Over any run of updates, a channel's maximum peak is the largest of
   * its starting maximum and every decibel peak it was given, and its
   * overflow count is the starting count plus all counts it was given.
   */
  lemma {:induction false} UpdateAllAccumulates(m: Meter, updates: seq<ChannelData>, log10: Log10, pow: Pow, channel: int)
    requires Consistent(m) && ForChannels(updates, m.channels) && 0 <= channel < m.channels
    ensures IsMaxFrom(UpdateAll(m, updates, log10, pow).maximumPeakLevels[channel],
                      m.maximumPeakLevels[channel], PeaksOn(updates, channel, log10))
    ensures UpdateAll(m, updates, log10, pow).overflows[channel] == m.overflows[channel] + SumInts(OverflowsOn(updates, channel))
    decreases |updates|
  {
    if updates != [] {
      var rest := updates[..|updates| - 1];
      var u := updates[|updates| - 1];
      assert ForChannels(rest, m.channels);
      UpdateAllAccumulates(m, rest, log10, pow, channel);
      var before := UpdateAll(m, rest, log10, pow);
      var peaks := PeaksOn(rest, channel, log10);
      var after := UpdateAll(m, updates, log10, pow);
      if u.channel == channel {
        var db := Level2Decibel(u.peak, log10);
        assert PeaksOn(updates, channel, log10) == peaks + [db];
        assert OverflowsOn(updates, channel) == OverflowsOn(rest, channel) + [u.overflows];
        assert (peaks + [db])[|peaks|] == db;
        forall c | 0 <= c < |peaks| ensures (peaks + [db])[c] == peaks[c] {
        }
        var previous := before.maximumPeakLevels[channel];
        if previous == m.maximumPeakLevels[channel] {
        } else {
          var c :| 0 <= c < |peaks| && previous == peaks[c];
          assert (peaks + [db])[c] == previous;
        }
      } else {
        assert PeaksOn(updates, channel, log10) == peaks;
        assert OverflowsOn(updates, channel) == OverflowsOn(rest, channel);
      }
    }
  }

  /** The meter object: its per-channel JUCE arrays are sequences it reassigns. */
  class MeterBallistics {
    const numberOfChannels: nat
    var averageAlgorithm: int
    var peakMeterLevels: seq<real>
    var peakMeterPeakLevels: seq<real>
    var maximumPeakLevels: seq<real>
    var averageMeterLevels: seq<real>
    var averageMeterPeakLevels: seq<real>
    var numberOfOverflows: seq<int>
    var peakMeterPeakLastChanged: seq<real>
    var averageMeterPeakLastChanged: seq<real>
    var stereoMeterValue: real
    var phaseCorrelation: real

    function State(): (m: Meter)
      reads this
      ensures m.channels == numberOfChannels
    {
      Meter(numberOfChannels, averageAlgorithm, peakMeterLevels, peakMeterPeakLevels, maximumPeakLevels,
            averageMeterLevels, averageMeterPeakLevels, numberOfOverflows,
            peakMeterPeakLastChanged, averageMeterPeakLastChanged, stereoMeterValue, phaseCorrelation)
    }

    predicate Valid()
      reads this
    {
      Consistent(State())
    }

    constructor (channels: nat, algorithm: int, peakMeterInfiniteHold: bool, averageMeterInfiniteHold: bool)
      ensures Valid() && State() == Initial(channels, algorithm, peakMeterInfiniteHold, averageMeterInfiniteHold)
    {
      numberOfChannels := channels;
      peakMeterLevels, peakMeterPeakLevels, maximumPeakLevels := [], [], [];
      averageMeterLevels, averageMeterPeakLevels, numberOfOverflows := [], [], [];
      peakMeterPeakLastChanged, averageMeterPeakLastChanged := [], [];
      new;
      SetAverageAlgorithm(algorithm);
      SetPeakMeterInfiniteHold(peakMeterInfiniteHold);
      SetAverageMeterInfiniteHold(averageMeterInfiniteHold);
      ResetReadings();
    }

    method ResetReadings()
      modifies this
      ensures State() == Reset(old(State()))
    {
      phaseCorrelation := 1.0;
      stereoMeterValue := 0.0;
      var channel := 0;
      while channel < numberOfChannels
        invariant 0 <= channel <= numberOfChannels
        invariant averageAlgorithm == old(averageAlgorithm) && phaseCorrelation == 1.0 && stereoMeterValue == 0.0
        invariant peakMeterPeakLastChanged == old(peakMeterPeakLastChanged)
        invariant averageMeterPeakLastChanged == old(averageMeterPeakLastChanged)
        invariant peakMeterLevels == Filled(old(peakMeterLevels), channel, MeterMinimumDecibel)
        invariant peakMeterPeakLevels == Filled(old(peakMeterPeakLevels), channel, MeterMinimumDecibel)
        invariant averageMeterLevels == Filled(old(averageMeterLevels), channel, MeterMinimumDecibel)
        invariant averageMeterPeakLevels == Filled(old(averageMeterPeakLevels), channel, MeterMinimumDecibel)
        invariant maximumPeakLevels == Filled(old(maximumPeakLevels), channel, MeterMinimumDecibel)
        invariant numberOfOverflows == Filled(old(numberOfOverflows), channel, 0)
      {
        peakMeterLevels := Set(peakMeterLevels, channel, MeterMinimumDecibel);
        peakMeterPeakLevels := Set(peakMeterPeakLevels, channel, MeterMinimumDecibel);
        averageMeterLevels := Set(averageMeterLevels, channel, MeterMinimumDecibel);
        averageMeterPeakLevels := Set(averageMeterPeakLevels, channel, MeterMinimumDecibel);
        maximumPeakLevels := Set(maximumPeakLevels, channel, MeterMinimumDecibel);
        numberOfOverflows := Set(numberOfOverflows, channel, 0);
        channel := channel + 1;
      }
    }

    method SetAverageAlgorithm(algorithm: int)
      modifies this
      ensures State() == old(State()).(algorithm := algorithm)
    {
      averageAlgorithm := algorithm;
    }

    method SetPeakMeterInfiniteHold(infiniteHold: bool)
      modifies this
      ensures State() == old(State()).(peakLastChanged := Filled(old(peakMeterPeakLastChanged), numberOfChannels, HoldTimer(infiniteHold)))
    {
      var channel := 0;
      while channel < numberOfChannels
        invariant 0 <= channel <= numberOfChannels
        invariant State() == old(State()).(peakLastChanged := Filled(old(peakMeterPeakLastChanged), channel, HoldTimer(infiniteHold)))
      {
        if infiniteHold {
          peakMeterPeakLastChanged := Set(peakMeterPeakLastChanged, channel, -1.0);
        } else {
          peakMeterPeakLastChanged := Set(peakMeterPeakLastChanged, channel, 0.0);
        }
        channel := channel + 1;
      }
    }

    method SetAverageMeterInfiniteHold(infiniteHold: bool)
      modifies this
      ensures State() == old(State()).(averageLastChanged := Filled(old(averageMeterPeakLastChanged), numberOfChannels, HoldTimer(infiniteHold)))
    {
      var channel := 0;
      while channel < numberOfChannels
        invariant 0 <= channel <= numberOfChannels
        invariant State() == old(State()).(averageLastChanged := Filled(old(averageMeterPeakLastChanged), channel, HoldTimer(infiniteHold)))
      {
        if infiniteHold {
          averageMeterPeakLastChanged := Set(averageMeterPeakLastChanged, channel, -1.0);
        } else {
          averageMeterPeakLastChanged := Set(averageMeterPeakLastChanged, channel, 0.0);
        }
        channel := channel + 1;
      }
    }

    /** The loop the ITU-R BS.1770 getters share: the largest element, starting from the floor. */
    static method MaximumFromFloor(s: seq<real>) returns (r: real)
      ensures IsMaxFrom(r, MeterMinimumDecibel, s)
    {
      r := MeterMinimumDecibel;
      var channel := 0;
      while channel < |s|
        invariant 0 <= channel <= |s|
        invariant IsMaxFrom(r, MeterMinimumDecibel, s[..channel])
      {
        if s[channel] > r {
          r := s[channel];
        }
        assert forall c :: 0 <= c < channel ==> s[..channel + 1][c] == s[..channel][c];
        channel := channel + 1;
      }
      assert s[..channel] == s;
    }

    method GetPeakMeterLevel(channel: int) returns (r: real)
      requires Valid() && 0 <= channel < numberOfChannels
      ensures averageAlgorithm == PluginParameters.AlgorithmItuBs1770 ==> SingleMeter(State(), channel, peakMeterLevels, r)
      ensures averageAlgorithm != PluginParameters.AlgorithmItuBs1770 ==> r == peakMeterLevels[channel]
    {
      if averageAlgorithm == PluginParameters.AlgorithmItuBs1770 {
        r := MeterMinimumDecibel;
        if channel == 0 {
          r := MaximumFromFloor(peakMeterLevels);
        }
      } else {
        r := peakMeterLevels[channel];
      }
    }

    method GetPeakMeterPeakLevel(channel: int) returns (r: real)
      requires Valid() && 0 <= channel < numberOfChannels
      ensures averageAlgorithm == PluginParameters.AlgorithmItuBs1770 ==> SingleMeter(State(), channel, peakMeterPeakLevels, r)
      ensures averageAlgorithm != PluginParameters.AlgorithmItuBs1770 ==> r == peakMeterPeakLevels[channel]
    {
      if averageAlgorithm == PluginParameters.AlgorithmItuBs1770 {
        r := MeterMinimumDecibel;
        if channel == 0 {
          r := MaximumFromFloor(peakMeterPeakLevels);
        }
      } else {
        r := peakMeterPeakLevels[channel];
      }
    }

    method GetMaximumPeakLevel(channel: int) returns (r: real)
      requires Valid() && 0 <= channel < numberOfChannels
      ensures averageAlgorithm == PluginParameters.AlgorithmItuBs1770 ==> SingleMeter(State(), channel, maximumPeakLevels, r)
      ensures averageAlgorithm != PluginParameters.AlgorithmItuBs1770 ==> r == maximumPeakLevels[channel]
    {
      if averageAlgorithm == PluginParameters.AlgorithmItuBs1770 {
        r := MeterMinimumDecibel;
        if channel == 0 {
          r := MaximumFromFloor(maximumPeakLevels);
        }
      } else {
        r := maximumPeakLevels[channel];
      }
    }

    /** In ITU-R BS.1770 mode only the first channel's average meter is shown. */
    function GetAverageMeterLevel(channel: int): (r: real)
      reads this
      requires Valid() && 0 <= channel < numberOfChannels
      ensures averageAlgorithm == PluginParameters.AlgorithmItuBs1770 && channel != 0 ==> r == MeterMinimumDecibel
      ensures averageAlgorithm != PluginParameters.AlgorithmItuBs1770 || channel == 0 ==> r == averageMeterLevels[channel]
    {
      if averageAlgorithm == PluginParameters.AlgorithmItuBs1770 && channel != 0 then MeterMinimumDecibel
      else averageMeterLevels[channel]
    }

    function GetAverageMeterPeakLevel(channel: int): (r: real)
      reads this
      requires Valid() && 0 <= channel < numberOfChannels
      ensures averageAlgorithm == PluginParameters.AlgorithmItuBs1770 && channel != 0 ==> r == MeterMinimumDecibel
      ensures averageAlgorithm != PluginParameters.AlgorithmItuBs1770 || channel == 0 ==> r == averageMeterPeakLevels[channel]
    {
      if averageAlgorithm == PluginParameters.AlgorithmItuBs1770 && channel != 0 then MeterMinimumDecibel
      else averageMeterPeakLevels[channel]
    }

    /** In ITU-R BS.1770 mode the first channel reports the overflows of all channels, the others none. */
    method GetNumberOfOverflows(channel: int) returns (r: int)
      requires Valid() && 0 <= channel < numberOfChannels
      ensures averageAlgorithm == PluginParameters.AlgorithmItuBs1770 ==>
        r == (if channel == 0 then SumInts(numberOfOverflows) else 0)
      ensures averageAlgorithm != PluginParameters.AlgorithmItuBs1770 ==> r == numberOfOverflows[channel]
    {
      if averageAlgorithm == PluginParameters.AlgorithmItuBs1770 {
        r := 0;
        if channel == 0 {
          var c := 0;
          while c < numberOfChannels
            invariant 0 <= c <= numberOfChannels
            invariant r == SumInts(numberOfOverflows[..c])
          {
            assert numberOfOverflows[..c + 1][..c] == numberOfOverflows[..c];
            r := r + numberOfOverflows[c];
            c := c + 1;
          }
          assert numberOfOverflows[..c] == numberOfOverflows;
        }
      } else {
        r := numberOfOverflows[channel];
      }
    }

    /** Only a stereo pair has a stereo reading; other layouts read centred. */
    function GetStereoMeterValue(): (r: real)
      reads this
      ensures numberOfChannels != 2 ==> r == 0.0
      ensures numberOfChannels == 2 ==> r == stereoMeterValue
    {
      if numberOfChannels == 2 then stereoMeterValue else 0.0
    }

    method SetStereoMeterValue(timePassed: real, value: real, pow: Pow)
      requires numberOfChannels == 2
      modifies this
      ensures State() == old(State()).(stereoMeterValue := LogMeterBallistics(StereoMeterInertia, timePassed, value, old(stereoMeterValue), pow))
    {
      stereoMeterValue := LogMeterBallistics(StereoMeterInertia, timePassed, value, stereoMeterValue, pow);
    }

    /** Only a stereo pair has a correlation; other layouts read +1. */
    function GetPhaseCorrelation(): (r: real)
      reads this
      ensures numberOfChannels != 2 ==> r == 1.0
      ensures numberOfChannels == 2 ==> r == phaseCorrelation
    {
      if numberOfChannels == 2 then phaseCorrelation else 1.0
    }

    method SetPhaseCorrelation(timePassed: real, value: real, pow: Pow)
      requires numberOfChannels == 2
      modifies this
      ensures State() == old(State()).(phaseCorrelation := LogMeterBallistics(StereoMeterInertia, timePassed, value, old(phaseCorrelation), pow))
    {
      phaseCorrelation := LogMeterBallistics(StereoMeterInertia, timePassed, value, phaseCorrelation, pow);
    }

    method UpdateChannel(channel: int, timePassed: real, peak: real, rms: real, averageFiltered: real,
                         overflows: int, log10: Log10, pow: Pow)
      requires Valid() && 0 <= channel < numberOfChannels
      modifies this
      ensures Valid()
      ensures State() == ChannelUpdate(old(State()), channel, timePassed, peak, rms, averageFiltered, overflows, log10, pow)
    {
      var peakDecibel := Level2Decibel(peak, log10);
      var rmsDecibel := Level2Decibel(rms, log10);
      UpdatePeakReadings(channel, timePassed, peakDecibel);
      UpdateAverageReadings(channel, timePassed, averageFiltered, pow);
      numberOfOverflows := numberOfOverflows[channel := numberOfOverflows[channel] + overflows];
      ChannelUpdateInSteps(old(State()), channel, timePassed, peak, rms, averageFiltered, overflows, log10, pow);
    }

    /** Maximum, peak reading and peak mark of one channel. */
    method UpdatePeakReadings(channel: int, timePassed: real, peakDecibel: real)
      requires Valid() && 0 <= channel < numberOfChannels
      modifies this
      ensures Valid()
      ensures State() == PeakUpdate(old(State()), channel, timePassed, peakDecibel)
    {
      if peakDecibel > maximumPeakLevels[channel] {
        maximumPeakLevels := maximumPeakLevels[channel := peakDecibel];
      }
      peakMeterLevels := peakMeterLevels[channel := PeakMeterBallistics(timePassed, peakDecibel, peakMeterLevels[channel])];
      var peakMark := PeakMeterPeakBallistics(timePassed, peakMeterPeakLastChanged[channel], peakDecibel, peakMeterPeakLevels[channel]);
      peakMeterPeakLastChanged := peakMeterPeakLastChanged[channel := peakMark.lastChanged];
      peakMeterPeakLevels := peakMeterPeakLevels[channel := peakMark.level];
    }

    /** Average reading (AverageMeterBallistics) and its peak mark of one channel. */
    method UpdateAverageReadings(channel: int, timePassed: real, averageFiltered: real, pow: Pow)
      requires Valid() && 0 <= channel < numberOfChannels
      modifies this
      ensures Valid()
      ensures State() == AverageUpdate(old(State()), channel, timePassed, averageFiltered, pow)
    {
      averageMeterLevels := averageMeterLevels[channel := LogMeterBallistics(AverageMeterInertia, timePassed, averageFiltered, averageMeterLevels[channel], pow)];
      var averageMark := PeakMeterPeakBallistics(timePassed, averageMeterPeakLastChanged[channel], averageMeterLevels[channel], averageMeterPeakLevels[channel]);
      averageMeterPeakLastChanged := averageMeterPeakLastChanged[channel := averageMark.lastChanged];
      averageMeterPeakLevels := averageMeterPeakLevels[channel := averageMark.level];
    }
  }
}
