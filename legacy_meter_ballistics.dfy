/**
 * Meter ballistics of the original plug-in (src/meter_ballistics.cpp):
 * the same quantities as the current meter, computed with a frame rate
 * (updates per second) instead of the elapsed time, with a decibel floor
 * derived from a sqrt(2) average correction, and stored in plain C arrays
 * of one element per channel.
 */
module LegacyMeterBallistics {
  import opened Numeric
  import opened JuceArray
  import MeterBallistics

  /** Largest crest factor the floor allows for (K-20). */
  const MaximumHeadroom: real := 20.0
  const HoldTime: real := 10.0

  /** The constructor's average correction, 20 log10(sqrt 2). */
  function AverageCorrection(log10: Log10, sqrt: Sqrt): (c: real)
  {
    20.0 * log10(sqrt(2.0))
  }

  /** The constructor's floor: 70 dB of range below the K-20 headroom and the average correction. */
  function MinimumDecibel(correction: real): (floor: real)
    ensures correction >= 0.0 ==> floor <= -(MaximumHeadroom + 70.0)
  {
    -(MaximumHeadroom + correction + 70.0)
  }

  /** level2decibel: 20 log10 of the level, never below the floor; a zero level reads as the floor. */
  function Level2Decibel(level: real, floor: real, log10: Log10): (db: real)
    ensures db >= floor
    ensures level == 0.0 ==> db == floor
    ensures level != 0.0 ==> db == Max(20.0 * log10(level), floor)
  {
    if level == 0.0 then floor
    else
      var output := 20.0 * log10(level);
      if output < floor then floor else output
  }

  /**
   * PeakMeterBallistics: a rising level is shown at once; a falling one
   * loses a fixed 26 / (3 timeFrame) dB per update, with no floor at the
   * current level.
   */
  function PeakMeterBallistics(timeFrame: real, current: real, previous: real): (r: real)
    requires timeFrame > 0.0
    ensures current >= previous ==> r == current
    ensures current < previous ==> r == previous - 26.0 / (3.0 * timeFrame)
  {
    if current >= previous then current
    else previous - 26.0 / (3.0 * timeFrame)
  }

  /** Unlike the current meter, a falling reading can drop below the current level. */
  lemma PeakMeterFallsBelowCurrentLevel()
    ensures PeakMeterBallistics(1.0, -50.0, -49.0) < -50.0
    ensures MeterBallistics.PeakMeterBallistics(1.0, -50.0, -49.0) == -50.0
  {
  }

  /** The step both logarithmic ballistics take: leave the fraction c of the distance to the target. */
  function Approach(c: real, target: real, readout: real): (r: real)
    ensures target == readout ==> r == readout
    ensures target != readout ==> r - target == c * (readout - target)
  {
    if target != readout then c * (readout - target) + target
    else readout
  }

  /** With c in [0, 1] the step ends between the old readout and the target. */
  lemma ApproachBetween(c: real, target: real, readout: real)
    requires 0.0 <= c <= 1.0
    ensures target <= readout ==> target <= Approach(c, target, readout) <= readout
    ensures readout <= target ==> readout <= Approach(c, target, readout) <= target
  {
    if target < readout {
      MeterBallistics.ProductNonNegative(c, readout - target);
      MeterBallistics.ProductNonNegative(1.0 - c, readout - target);
    } else if readout < target {
      MeterBallistics.ProductNonNegative(c, target - readout);
      MeterBallistics.ProductNonNegative(1.0 - c, target - readout);
    }
  }

  /**
   * AverageMeterBallistics: the logarithmic step on levels normalised by
   * the floor, with coefficient pow(0.01, 1 / (0.6 timeFrame)).
   */
  function AverageMeterBallistics(timeFrame: real, current: real, previous: real, floor: real, pow: Pow): (r: real)
    requires timeFrame > 0.0 && floor != 0.0
    ensures current == previous ==> r == previous
  {
    var output := previous / floor;
    var temp := current / floor;
    if temp != output then
      var coefficient := pow(0.01, 1.0 / (0.6 * timeFrame));
      (coefficient * (output - temp) + temp) * floor
    else output * floor
  }

  /** With a coefficient in [0, 1] the average reading lies between the old reading and the current level. */
  lemma {:induction false} AverageMeterBetween(timeFrame: real, current: real, previous: real, floor: real, pow: Pow)
    requires timeFrame > 0.0 && floor < 0.0
    requires 0.0 <= pow(0.01, 1.0 / (0.6 * timeFrame)) <= 1.0
    ensures previous <= current ==> previous <= AverageMeterBallistics(timeFrame, current, previous, floor, pow) <= current
    ensures current <= previous ==> current <= AverageMeterBallistics(timeFrame, current, previous, floor, pow) <= previous
  {
    var c := pow(0.01, 1.0 / (0.6 * timeFrame));
    var output := previous / floor;
    var temp := current / floor;
    var r := AverageMeterBallistics(timeFrame, current, previous, floor, pow);
    assert output * floor == previous && temp * floor == current;
    if temp != output {
      var s := Approach(c, temp, output);
      ApproachBetween(c, temp, output);
      assert r == s * floor;
      ScaleByNegative(s, temp, output, floor);
    }
  }

  /** Multiplying by a negative floor turns an interval around. */
  lemma ScaleByNegative(s: real, a: real, b: real, floor: real)
    requires floor < 0.0
    requires (a <= b ==> a <= s <= b) && (b <= a ==> b <= s <= a)
    ensures (a * floor <= b * floor ==> a * floor <= s * floor <= b * floor)
    ensures (b * floor <= a * floor ==> b * floor <= s * floor <= a * floor)
  {
    if a <= b {
      assert (s - a) * floor <= 0.0 && (b - s) * floor <= 0.0;
    } else {
      assert (s - b) * floor <= 0.0 && (a - s) * floor <= 0.0;
    }
  }

  /** StereoMeterBallistics (and CorrelationMeterBallistics): the logarithmic step with coefficient pow(0.01, 1 / (1.2 timeFrame)). */
  function StereoMeterBallistics(timeFrame: real, current: real, previous: real, pow: Pow): (r: real)
    requires timeFrame > 0.0
    ensures current == previous ==> r == previous
    ensures current != previous ==> r - current == pow(0.01, 1.0 / (1.2 * timeFrame)) * (previous - current)
  {
    Approach(pow(0.01, 1.0 / (1.2 * timeFrame)), current, previous)
  }

  /** With a coefficient in [0, 1] the stereo (or correlation) reading lies between the old reading and the new value. */
  lemma StereoMeterBetween(timeFrame: real, current: real, previous: real, pow: Pow)
    requires timeFrame > 0.0
    requires 0.0 <= pow(0.01, 1.0 / (1.2 * timeFrame)) <= 1.0
    ensures current <= previous ==> current <= StereoMeterBallistics(timeFrame, current, previous, pow) <= previous
    ensures previous <= current ==> previous <= StereoMeterBallistics(timeFrame, current, previous, pow) <= current
  {
    ApproachBetween(pow(0.01, 1.0 / (1.2 * timeFrame)), current, previous);
  }

  /**
   * PeakMeterPeakBallistics: the mark follows a rising level (clamped to
   * 0 dB) and restarts a non-negative timer; otherwise the timer advances
   * by 1 / timeFrame (unless negative), the mark is kept, and once the
   * timer exceeds 10 s it drops by 26 / (3 timeFrame) dB.
   */
  function PeakMeterPeakBallistics(timeFrame: real, lastChanged: real, current: real, previous: real): (r: MeterBallistics.PeakMark)
    requires timeFrame > 0.0
    ensures MeterBallistics.ClampToFullScale(current) >= previous ==>
      r.level == MeterBallistics.ClampToFullScale(current) && r.lastChanged == (if lastChanged >= 0.0 then 0.0 else lastChanged)
    ensures MeterBallistics.ClampToFullScale(current) < previous ==>
      r.lastChanged == (if lastChanged >= 0.0 then lastChanged + 1.0 / timeFrame else lastChanged)
      && r.level == (if r.lastChanged > HoldTime then previous - 26.0 / (3.0 * timeFrame) else previous)
  {
    var current := MeterBallistics.ClampToFullScale(current);
    if current >= previous then
      MeterBallistics.PeakMark(current, if lastChanged >= 0.0 then 0.0 else lastChanged)
    else
      var changed := if lastChanged >= 0.0 then lastChanged + 1.0 / timeFrame else lastChanged;
      MeterBallistics.PeakMark(if changed > HoldTime then previous - 26.0 / (3.0 * timeFrame) else previous, changed)
  }

  /** A negative timer never changes and the mark never decreases. */
  lemma InfiniteHoldNeverDecays(timeFrame: real, lastChanged: real, current: real, previous: real)
    requires timeFrame > 0.0 && lastChanged < 0.0
    ensures PeakMeterPeakBallistics(timeFrame, lastChanged, current, previous).lastChanged == lastChanged
    ensures PeakMeterPeakBallistics(timeFrame, lastChanged, current, previous).level >= previous
  {
  }

  /** A mark at or below 0 dB stays at or below 0 dB, and a timer of exactly 10 s still holds. */
  lemma PeakMarkBounds(timeFrame: real, lastChanged: real, current: real, previous: real)
    requires timeFrame > 0.0 && previous <= 0.0
    ensures PeakMeterPeakBallistics(timeFrame, lastChanged, current, previous).level <= 0.0
    ensures PeakMeterPeakBallistics(timeFrame, lastChanged, current, previous).lastChanged == HoldTime ==>
      PeakMeterPeakBallistics(timeFrame, lastChanged, current, previous).level >= previous
  {
  }

  /**
   * The raw stereo meter value of updateStereoMeter: 0 when both averages
   * are below 0.0001, otherwise the difference right - left relative to
   * the larger of the two.
   */
  function RawStereoValue(left: real, right: real): (v: real)
    ensures left < 0.0001 && right < 0.0001 ==> v == 0.0
  {
    if left < 0.0001 && right < 0.0001 then 0.0
    else if right >= left then (right - left) / right
    else (right - left) / left
  }

  /** For non-negative averages the raw stereo value lies in [-1, 1] and is non-negative exactly when right >= left. */
  lemma RawStereoValueBounds(left: real, right: real)
    requires left >= 0.0 && right >= 0.0
    ensures -1.0 <= RawStereoValue(left, right) <= 1.0
    ensures !(left < 0.0001 && right < 0.0001) ==> (RawStereoValue(left, right) >= 0.0 <==> right >= left)
  {
    if !(left < 0.0001 && right < 0.0001) {
      if right >= left {
        assert right > 0.0;
        assert 0.0 <= right - left <= right;
        DivisionBounds(right - left, right);
      } else {
        assert left > 0.0;
        assert -left <= right - left < 0.0;
        DivisionBounds(left - right, left);
        assert (right - left) / left == -((left - right) / left) by {
          assert right - left == -(left - right);
          NegatedQuotient(left - right, left);
        }
      }
    }
  }

  lemma NegatedQuotient(a: real, b: real)
    requires b != 0.0
    ensures (-a) / b == -(a / b)
  {
  }

  lemma DivisionBounds(a: real, b: real)
    requires b > 0.0 && 0.0 <= a <= b
    ensures 0.0 <= a / b <= 1.0
    ensures a > 0.0 ==> a / b > 0.0
  {
  }

  /** The readings of a legacy meter. */
  datatype Readings = Readings(
    peakMeter: seq<real>, averageMeter: seq<real>, peakMeterPeak: seq<real>, averageMeterPeak: seq<real>,
    peakMeterMaximumPeak: seq<real>, overflows: seq<int>,
    peakMeterPeakLastChanged: seq<real>, averageMeterPeakLastChanged: seq<real>,
    stereoMeterValue: real, correlationMeterValue: real)

  predicate Sized(r: Readings, n: nat)
  {
    |r.peakMeter| == n && |r.averageMeter| == n && |r.peakMeterPeak| == n && |r.averageMeterPeak| == n
    && |r.peakMeterMaximumPeak| == n && |r.overflows| == n
    && |r.peakMeterPeakLastChanged| == n && |r.averageMeterPeakLastChanged| == n
  }

  /** reset: peak readings to the floor, average readings to the floor plus the correction, no overflows. */
  function Reset(r: Readings, floor: real, correction: real): (t: Readings)
    ensures t.correlationMeterValue == 1.0 && t.stereoMeterValue == 0.0
    ensures t.peakMeterPeakLastChanged == r.peakMeterPeakLastChanged && t.averageMeterPeakLastChanged == r.averageMeterPeakLastChanged
    ensures forall n :: Sized(r, n) ==> Sized(t, n) && forall c :: 0 <= c < n ==>
      t.peakMeter[c] == floor && t.peakMeterPeak[c] == floor && t.peakMeterMaximumPeak[c] == floor
      && t.averageMeter[c] == floor + correction && t.averageMeterPeak[c] == floor + correction && t.overflows[c] == 0
  {
    var n := |r.peakMeter|;
    FilledValues(r.peakMeter, n, floor); FilledValues(r.averageMeter, n, floor + correction);
    FilledValues(r.peakMeterPeak, n, floor); FilledValues(r.averageMeterPeak, n, floor + correction);
    FilledValues(r.peakMeterMaximumPeak, n, floor); FilledValues(r.overflows, n, 0);
    r.(correlationMeterValue := 1.0, stereoMeterValue := 0.0,
       peakMeter := Filled(r.peakMeter, n, floor),
       averageMeter := Filled(r.averageMeter, n, floor + correction),
       peakMeterPeak := Filled(r.peakMeterPeak, n, floor),
       averageMeterPeak := Filled(r.averageMeterPeak, n, floor + correction),
       peakMeterMaximumPeak := Filled(r.peakMeterMaximumPeak, n, floor),
       overflows := Filled(r.overflows, n, 0))
  }

  /** updateChannel for a channel inside the arrays (the branch every valid call takes). */
  function ChannelUpdate(r: Readings, channel: int, timeFrame: real, peak: real, average: real, overflows: int,
                         floor: real, correction: real, log10: Log10, pow: Pow): (t: Readings)
    requires Sized(r, |r.peakMeter|) && 0 <= channel < |r.peakMeter| && timeFrame > 0.0 && floor != 0.0
    ensures Sized(t, |r.peakMeter|)
    ensures t.stereoMeterValue == r.stereoMeterValue && t.correlationMeterValue == r.correlationMeterValue
    ensures t.peakMeterMaximumPeak[channel] == Max(r.peakMeterMaximumPeak[channel], Level2Decibel(peak, floor, log10))
    ensures t.overflows[channel] == r.overflows[channel] + overflows
    ensures t.peakMeter[channel] == PeakMeterBallistics(timeFrame, Level2Decibel(peak, floor, log10), r.peakMeter[channel])
    ensures t.averageMeter[channel]
      == AverageMeterBallistics(timeFrame, Level2Decibel(average, floor, log10) + correction, r.averageMeter[channel], floor, pow)
    ensures MeterBallistics.PeakMark(t.peakMeterPeak[channel], t.peakMeterPeakLastChanged[channel])
      == PeakMeterPeakBallistics(timeFrame, r.peakMeterPeakLastChanged[channel], Level2Decibel(peak, floor, log10), r.peakMeterPeak[channel])
    ensures MeterBallistics.PeakMark(t.averageMeterPeak[channel], t.averageMeterPeakLastChanged[channel])
      == PeakMeterPeakBallistics(timeFrame, r.averageMeterPeakLastChanged[channel], t.averageMeter[channel], r.averageMeterPeak[channel])
    ensures forall c :: 0 <= c < |r.peakMeter| && c != channel ==>
      t.peakMeter[c] == r.peakMeter[c] && t.averageMeter[c] == r.averageMeter[c]
      && t.peakMeterPeak[c] == r.peakMeterPeak[c] && t.averageMeterPeak[c] == r.averageMeterPeak[c]
      && t.peakMeterMaximumPeak[c] == r.peakMeterMaximumPeak[c] && t.overflows[c] == r.overflows[c]
      && t.peakMeterPeakLastChanged[c] == r.peakMeterPeakLastChanged[c]
      && t.averageMeterPeakLastChanged[c] == r.averageMeterPeakLastChanged[c]
  {
    var db := Level2Decibel(peak, floor, log10);
    var averageDb := Level2Decibel(average, floor, log10) + correction;
    var maximum := if db > r.peakMeterMaximumPeak[channel] then db else r.peakMeterMaximumPeak[channel];
    var peakMark := PeakMeterPeakBallistics(timeFrame, r.peakMeterPeakLastChanged[channel], db, r.peakMeterPeak[channel]);
    var averageLevel := AverageMeterBallistics(timeFrame, averageDb, r.averageMeter[channel], floor, pow);
    var averageMark := PeakMeterPeakBallistics(timeFrame, r.averageMeterPeakLastChanged[channel], averageLevel, r.averageMeterPeak[channel]);
    r.(peakMeterMaximumPeak := r.peakMeterMaximumPeak[channel := maximum],
       peakMeter := r.peakMeter[channel := PeakMeterBallistics(timeFrame, db, r.peakMeter[channel])],
       peakMeterPeak := r.peakMeterPeak[channel := peakMark.level],
       peakMeterPeakLastChanged := r.peakMeterPeakLastChanged[channel := peakMark.lastChanged],
       averageMeter := r.averageMeter[channel := averageLevel],
       averageMeterPeak := r.averageMeterPeak[channel := averageMark.level],
       averageMeterPeakLastChanged := r.averageMeterPeakLastChanged[channel := averageMark.lastChanged],
       overflows := r.overflows[channel := r.overflows[channel] + overflows])
  }

  /** The legacy meter object with one C array per reading. */
  class LegacyMeterBallistics {
    const numberOfChannels: nat
    const averageCorrection: real
    const meterMinimumDecibel: real
    var peakMeter: array<real>
    var averageMeter: array<real>
    var peakMeterPeak: array<real>
    var averageMeterPeak: array<real>
    var peakMeterMaximumPeak: array<real>
    var overflows: array<int>
    var peakMeterPeakLastChanged: array<real>
    var averageMeterPeakLastChanged: array<real>
    var stereoMeterValue: real
    var correlationMeterValue: real

    ghost predicate Valid()
      reads this
    {
      peakMeter.Length == numberOfChannels && averageMeter.Length == numberOfChannels
      && peakMeterPeak.Length == numberOfChannels && averageMeterPeak.Length == numberOfChannels
      && peakMeterMaximumPeak.Length == numberOfChannels && overflows.Length == numberOfChannels
      && peakMeterPeakLastChanged.Length == numberOfChannels && averageMeterPeakLastChanged.Length == numberOfChannels
      && Distinct()
      && meterMinimumDecibel < 0.0
    }

    ghost predicate Distinct()
      reads this
    {
      peakMeter != averageMeter && peakMeter != peakMeterPeak && peakMeter != averageMeterPeak && peakMeter != peakMeterMaximumPeak && peakMeter != peakMeterPeakLastChanged && peakMeter != averageMeterPeakLastChanged
      && averageMeter != peakMeterPeak && averageMeter != averageMeterPeak && averageMeter != peakMeterMaximumPeak && averageMeter != peakMeterPeakLastChanged && averageMeter != averageMeterPeakLastChanged
      && peakMeterPeak != averageMeterPeak && peakMeterPeak != peakMeterMaximumPeak && peakMeterPeak != peakMeterPeakLastChanged && peakMeterPeak != averageMeterPeakLastChanged
      && averageMeterPeak != peakMeterMaximumPeak && averageMeterPeak != peakMeterPeakLastChanged && averageMeterPeak != averageMeterPeakLastChanged
      && peakMeterMaximumPeak != peakMeterPeakLastChanged && peakMeterMaximumPeak != averageMeterPeakLastChanged
      && peakMeterPeakLastChanged != averageMeterPeakLastChanged
    }

    function State(): (r: Readings)
      reads this, peakMeter, averageMeter, peakMeterPeak, averageMeterPeak, peakMeterMaximumPeak, overflows,
        peakMeterPeakLastChanged, averageMeterPeakLastChanged
    {
      Readings(peakMeter[..], averageMeter[..], peakMeterPeak[..], averageMeterPeak[..], peakMeterMaximumPeak[..],
               overflows[..], peakMeterPeakLastChanged[..], averageMeterPeakLastChanged[..],
               stereoMeterValue, correlationMeterValue)
    }

    /** The floor's formula needs log10(sqrt 2) >= 0, which holds for the real functions. */
    constructor (channels: nat, peakHold: bool, averageHold: bool, log10: Log10, sqrt: Sqrt)
      requires log10(sqrt(2.0)) >= 0.0
      ensures Valid() && numberOfChannels == channels
      ensures averageCorrection == AverageCorrection(log10, sqrt) && meterMinimumDecibel == MinimumDecibel(averageCorrection)
      ensures peakMeter[..] == peakMeterPeak[..] == peakMeterMaximumPeak[..] == seq(channels, _ => meterMinimumDecibel)
      ensures averageMeter[..] == averageMeterPeak[..] == seq(channels, _ => meterMinimumDecibel + averageCorrection)
      ensures overflows[..] == seq(channels, _ => 0)
      ensures stereoMeterValue == 0.0 && correlationMeterValue == 1.0
      ensures forall c :: 0 <= c < channels ==>
        peakMeterPeakLastChanged[c] == MeterBallistics.HoldTimer(peakHold)
        && averageMeterPeakLastChanged[c] == MeterBallistics.HoldTimer(averageHold)
    {
      averageCorrection := AverageCorrection(log10, sqrt);
      meterMinimumDecibel := MinimumDecibel(AverageCorrection(log10, sqrt));
      numberOfChannels := channels;
      peakMeter := new real[channels];
      averageMeter := new real[channels];
      peakMeterPeak := new real[channels];
      averageMeterPeak := new real[channels];
      peakMeterMaximumPeak := new real[channels];
      overflows := new int[channels];
      peakMeterPeakLastChanged := new real[channels];
      averageMeterPeakLastChanged := new real[channels];
      new;
      SetPeakHold(peakHold);
      SetAverageHold(averageHold);
      ghost var before := State();
      ResetReadings();
      FilledOfLength(before.peakMeter, channels, meterMinimumDecibel);
      FilledOfLength(before.peakMeterPeak, channels, meterMinimumDecibel);
      FilledOfLength(before.peakMeterMaximumPeak, channels, meterMinimumDecibel);
      FilledOfLength(before.averageMeter, channels, meterMinimumDecibel + averageCorrection);
      FilledOfLength(before.averageMeterPeak, channels, meterMinimumDecibel + averageCorrection);
      FilledOfLength(before.overflows, channels, 0);
    }

    method ResetReadings()
      requires Valid()
      modifies this, peakMeter, averageMeter, peakMeterPeak, averageMeterPeak, peakMeterMaximumPeak, overflows
      ensures Valid() && unchanged(`peakMeter, `averageMeter, `peakMeterPeak, `averageMeterPeak, `peakMeterMaximumPeak, `overflows)
      ensures unchanged(`peakMeterPeakLastChanged, `averageMeterPeakLastChanged)
      ensures State() == Reset(old(State()), meterMinimumDecibel, averageCorrection)
    {
      correlationMeterValue := 1.0;
      stereoMeterValue := 0.0;
      var channel := 0;
      while channel < numberOfChannels
        invariant 0 <= channel <= numberOfChannels && Valid()
        invariant unchanged(`peakMeter, `averageMeter, `peakMeterPeak, `averageMeterPeak, `peakMeterMaximumPeak, `overflows)
        invariant unchanged(`peakMeterPeakLastChanged, `averageMeterPeakLastChanged)
        invariant correlationMeterValue == 1.0 && stereoMeterValue == 0.0
        invariant peakMeter[..] == Filled(old(peakMeter[..]), channel, meterMinimumDecibel)
        invariant averageMeter[..] == Filled(old(averageMeter[..]), channel, meterMinimumDecibel + averageCorrection)
        invariant peakMeterPeak[..] == Filled(old(peakMeterPeak[..]), channel, meterMinimumDecibel)
        invariant averageMeterPeak[..] == Filled(old(averageMeterPeak[..]), channel, meterMinimumDecibel + averageCorrection)
        invariant peakMeterMaximumPeak[..] == Filled(old(peakMeterMaximumPeak[..]), channel, meterMinimumDecibel)
        invariant overflows[..] == Filled(old(overflows[..]), channel, 0)
        invariant peakMeterPeakLastChanged[..] == old(peakMeterPeakLastChanged[..])
        invariant averageMeterPeakLastChanged[..] == old(averageMeterPeakLastChanged[..])
      {
        peakMeter[channel] := meterMinimumDecibel;
        averageMeter[channel] := meterMinimumDecibel + averageCorrection;
        peakMeterPeak[channel] := meterMinimumDecibel;
        averageMeterPeak[channel] := meterMinimumDecibel + averageCorrection;
        peakMeterMaximumPeak[channel] := meterMinimumDecibel;
        overflows[channel] := 0;
        channel := channel + 1;
      }
    }

    method SetPeakHold(peakHold: bool)
      requires Valid()
      modifies peakMeterPeakLastChanged
      ensures Valid()
      ensures peakMeterPeakLastChanged[..] == seq(numberOfChannels, _ => MeterBallistics.HoldTimer(peakHold))
    {
      var channel := 0;
      while channel < numberOfChannels
        invariant 0 <= channel <= numberOfChannels
        invariant forall c :: 0 <= c < channel ==> peakMeterPeakLastChanged[c] == MeterBallistics.HoldTimer(peakHold)
      {
        if peakHold {
          peakMeterPeakLastChanged[channel] := -1.0;
        } else {
          peakMeterPeakLastChanged[channel] := 0.0;
        }
        channel := channel + 1;
      }
    }

    method SetAverageHold(averageHold: bool)
      requires Valid()
      modifies averageMeterPeakLastChanged
      ensures Valid()
      ensures averageMeterPeakLastChanged[..] == seq(numberOfChannels, _ => MeterBallistics.HoldTimer(averageHold))
    {
      var channel := 0;
      while channel < numberOfChannels
        invariant 0 <= channel <= numberOfChannels
        invariant forall c :: 0 <= c < channel ==> averageMeterPeakLastChanged[c] == MeterBallistics.HoldTimer(averageHold)
      {
        if averageHold {
          averageMeterPeakLastChanged[channel] := -1.0;
        } else {
          averageMeterPeakLastChanged[channel] := 0.0;
        }
        channel := channel + 1;
      }
    }

    function GetStereoMeterValue(): real
      reads this
    {
      stereoMeterValue
    }

    function GetCorrelationMeterValue(): real
      reads this
    {
      correlationMeterValue
    }

    function GetPeakMeterLeft(): real
      reads this, peakMeter
      requires Valid() && numberOfChannels >= 1
    {
      peakMeter[0]
    }

    function GetPeakMeterRight(): real
      reads this, peakMeter
      requires Valid() && numberOfChannels >= 2
    {
      peakMeter[1]
    }

    function GetAverageMeterLeft(): real
      reads this, averageMeter
      requires Valid() && numberOfChannels >= 1
    {
      averageMeter[0]
    }

    function GetAverageMeterRight(): real
      reads this, averageMeter
      requires Valid() && numberOfChannels >= 2
    {
      averageMeter[1]
    }

    function GetPeakMeterLeftPeak(): real
      reads this, peakMeterPeak
      requires Valid() && numberOfChannels >= 1
    {
      peakMeterPeak[0]
    }

    function GetPeakMeterRightPeak(): real
      reads this, peakMeterPeak
      requires Valid() && numberOfChannels >= 2
    {
      peakMeterPeak[1]
    }

    function GetPeakMeterLeftMaximumPeak(): real
      reads this, peakMeterMaximumPeak
      requires Valid() && numberOfChannels >= 1
    {
      peakMeterMaximumPeak[0]
    }

    function GetPeakMeterRightMaximumPeak(): real
      reads this, peakMeterMaximumPeak
      requires Valid() && numberOfChannels >= 2
    {
      peakMeterMaximumPeak[1]
    }

    function GetAverageMeterLeftPeak(): real
      reads this, averageMeterPeak
      requires Valid() && numberOfChannels >= 1
    {
      averageMeterPeak[0]
    }

    function GetAverageMeterRightPeak(): real
      reads this, averageMeterPeak
      requires Valid() && numberOfChannels >= 2
    {
      averageMeterPeak[1]
    }

    function GetOverflowsLeft(): int
      reads this, overflows
      requires Valid() && numberOfChannels >= 1
    {
      overflows[0]
    }

    function GetOverflowsRight(): int
      reads this, overflows
      requires Valid() && numberOfChannels >= 2
    {
      overflows[1]
    }

    method UpdateStereoMeter(timeFrame: real, averageLeft: real, averageRight: real, pow: Pow)
      requires timeFrame > 0.0
      modifies this
      ensures stereoMeterValue == StereoMeterBallistics(timeFrame, RawStereoValue(averageLeft, averageRight), old(stereoMeterValue), pow)
      ensures correlationMeterValue == old(correlationMeterValue)
    {
      var previous := stereoMeterValue;
      var raw := RawStereoValue(averageLeft, averageRight);
      stereoMeterValue := StereoMeterBallistics(timeFrame, raw, previous, pow);
    }

    method UpdateCorrelation(timeFrame: real, correlation: real, pow: Pow)
      requires timeFrame > 0.0
      modifies this
      ensures correlationMeterValue == StereoMeterBallistics(timeFrame, correlation, old(correlationMeterValue), pow)
      ensures stereoMeterValue == old(stereoMeterValue)
    {
      correlationMeterValue := StereoMeterBallistics(timeFrame, correlation, correlationMeterValue, pow);
    }

    /**
     * The source first tests for a mono meter asked to update a channel
     * other than 0 and then copies channel 0 into that channel; with one
     * element per array that index lies outside the arrays, so every call
     * that stays inside them takes the second branch.
     */
    method UpdateChannel(channel: int, timeFrame: real, peak: real, average: real, overflowCount: int, log10: Log10, pow: Pow)
      requires Valid() && 0 <= channel < numberOfChannels && timeFrame > 0.0
      modifies peakMeter, averageMeter, peakMeterPeak, averageMeterPeak, peakMeterMaximumPeak, overflows,
        peakMeterPeakLastChanged, averageMeterPeakLastChanged
      ensures Valid()
      ensures State() == ChannelUpdate(old(State()), channel, timeFrame, peak, average, overflowCount,
                                       meterMinimumDecibel, averageCorrection, log10, pow)
    {
      if numberOfChannels == 1 && channel > 0 {
        assert false;
      } else {
        ghost var target := ChannelUpdate(State(), channel, timeFrame, peak, average, overflowCount,
                                          meterMinimumDecibel, averageCorrection, log10, pow);
        var peakDb := Level2Decibel(peak, meterMinimumDecibel, log10);
        var averageDb := Level2Decibel(average, meterMinimumDecibel, log10) + averageCorrection;
        var maximum := peakMeterMaximumPeak[channel];
        if peakDb > maximum {
          maximum := peakDb;
        }
        var peakLevel := PeakMeterBallistics(timeFrame, peakDb, peakMeter[channel]);
        var peakMark := PeakMeterPeakBallistics(timeFrame, peakMeterPeakLastChanged[channel], peakDb, peakMeterPeak[channel]);
        var averageLevel := AverageMeterBallistics(timeFrame, averageDb, averageMeter[channel], meterMinimumDecibel, pow);
        var averageMark := PeakMeterPeakBallistics(timeFrame, averageMeterPeakLastChanged[channel], averageLevel, averageMeterPeak[channel]);
        var overflowTotal := overflows[channel] + overflowCount;
        peakMeterMaximumPeak[channel] := maximum;
        peakMeter[channel] := peakLevel;
        peakMeterPeakLastChanged[channel] := peakMark.lastChanged;
        peakMeterPeak[channel] := peakMark.level;
        averageMeter[channel] := averageLevel;
        averageMeterPeakLastChanged[channel] := averageMark.lastChanged;
        averageMeterPeak[channel] := averageMark.level;
        overflows[channel] := overflowTotal;
        assert peakMeterMaximumPeak[..] == target.peakMeterMaximumPeak;
        assert peakMeter[..] == target.peakMeter;
        assert peakMeterPeak[..] == target.peakMeterPeak && peakMeterPeakLastChanged[..] == target.peakMeterPeakLastChanged;
        assert averageMeter[..] == target.averageMeter;
        assert averageMeterPeak[..] == target.averageMeterPeak && averageMeterPeakLastChanged[..] == target.averageMeterPeakLastChanged;
        assert overflows[..] == target.overflows;
      }
    }
  }
}
