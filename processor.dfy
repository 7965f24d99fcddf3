/**
 * The audio side of the current K-Meter processor (Source/plugin_processor.cpp):
 * parameter forcing for the Mono switch, the supported sample rates, the
 * per-block bookkeeping of processBlock (mono mixdown, input ring buffer,
 * delayed output) and the per-chunk measurements of processBufferChunk
 * (peak, RMS, overflows, phase correlation and stereo value) that feed the
 * meter ballistics.
 */
module Processor {
  import opened Numeric
  import Ring = AudioRingBuffer
  import MB = MeterBallistics
  import PluginParameters
  import LegacyMeterBallistics

  /** Samples per measured chunk, and the latency of the plug-in. */
  const BufferSize: nat := 1024

  /** Just under 32767 / 32768, full scale in the 16-bit domain: absolute levels above it count as overflows. */
  const OverflowThreshold: real := 0.9999

  /** -80 dB: quieter RMS levels are not measured for stereo value and correlation. */
  const SilenceThreshold: real := 0.0001

  // ---------------------------------------------------------------------
  // changeParameter and prepareToPlay
  // ---------------------------------------------------------------------

  /**
   * The value changeParameter passes on: the Mono switch is forced on for
   * fewer than two input channels and off for more than two.
   */
  function ChangedValue(index: int, value: int, numInputChannels: int): (v: int)
    ensures index != PluginParameters.Mono ==> v == value
    ensures index == PluginParameters.Mono && numInputChannels < 2 ==> v == 1
    ensures index == PluginParameters.Mono && numInputChannels > 2 ==> v == 0
    ensures index == PluginParameters.Mono && numInputChannels == 2 ==> v == value
  {
    if index == PluginParameters.Mono then
      if numInputChannels < 2 then 1
      else if numInputChannels > 2 then 0
      else value
    else value
  }

  /** The normalised host value changeParameter sends: the translated forced value. */
  function HostValue(index: int, value: int, numInputChannels: int): (f: real)
    requires 0 <= index < PluginParameters.NumParameters
  {
    PluginParameters.TranslateParameterToFloat(index, ChangedValue(index, value, numInputChannels))
  }

  /**
   * Whatever a caller asks for, a layout other than stereo makes the host
   * see the Mono switch that layout fixes: on for mono, off for surround.
   */
  lemma MonoForcedByLayout(value: int, numInputChannels: int)
    requires numInputChannels != 2
    ensures PluginParameters.TranslateParameterToInt(PluginParameters.Mono, HostValue(PluginParameters.Mono, value, numInputChannels))
      == if numInputChannels < 2 then 1 else 0
  {
    PluginParameters.TranslateRoundTrip(PluginParameters.Mono, ChangedValue(PluginParameters.Mono, value, numInputChannels));
  }

  /** prepareToPlay refuses sample rates below 44.1 kHz and above 192 kHz. */
  function SampleRateIsValid(sampleRate: real): (valid: bool)
    ensures valid ==> 44100.0 <= sampleRate <= 192000.0
    ensures sampleRate < 44100.0 || sampleRate > 192000.0 ==> !valid
  {
    !(sampleRate < 44100.0 || sampleRate > 192000.0)
  }

  // ---------------------------------------------------------------------
  // countOverflows and the mono mixdown
  // ---------------------------------------------------------------------

  /** The overflows among the `length` samples before the current position (further `preDelay` back). */
  method CountOverflows(ring: Ring.AudioRingBuffer, channel: nat, length: nat, preDelay: nat) returns (overflows: nat)
    requires ring.Valid() && channel < ring.channels && length <= ring.length + 1 && preDelay <= ring.preDelay
    ensures overflows == CountBeyond(ring.Window(channel, length, preDelay), OverflowThreshold)
    ensures overflows <= length
  {
    overflows := 0;
    var sample: nat := 0;
    while sample < length
      invariant sample <= length
      invariant overflows == CountBeyond(ring.Window(channel, sample, preDelay), OverflowThreshold)
    {
      var value := ring.GetSample(channel, sample, preDelay);
      if value < -OverflowThreshold || value > OverflowThreshold {
        overflows := overflows + 1;
      }
      assert ring.Window(channel, sample + 1, preDelay)[..sample] == ring.Window(channel, sample, preDelay);
      sample := sample + 1;
    }
  }

  /** The mean of the two stereo samples, as the mixdown writes it to both channels. */
  function MonoSample(left: real, right: real): (m: real)
    ensures left == right ==> m == left
    ensures left <= right ==> left <= m <= right
    ensures right <= left ==> right <= m <= left
  {
    0.5 * (left + right)
  }

  /** Replaces both channels of the first `numSamples` samples by their mean. */
  method MixDownToMono(buffer: array2<real>, numSamples: nat)
    requires buffer.Length0 >= 2 && numSamples <= buffer.Length1
    modifies buffer
    ensures forall k :: 0 <= k < numSamples ==>
      buffer[0, k] == MonoSample(old(buffer[0, k]), old(buffer[1, k])) && buffer[1, k] == buffer[0, k]
    ensures forall c, k :: 0 <= c < buffer.Length0 && 0 <= k < buffer.Length1 && (c >= 2 || k >= numSamples) ==>
      buffer[c, k] == old(buffer[c, k])
  {
    var i: nat := 0;
    while i < numSamples
      invariant i <= numSamples
      invariant forall k :: 0 <= k < i ==>
        buffer[0, k] == MonoSample(old(buffer[0, k]), old(buffer[1, k])) && buffer[1, k] == buffer[0, k]
      invariant forall c, k :: 0 <= c < buffer.Length0 && 0 <= k < buffer.Length1 && (c >= 2 || k >= i) ==>
        buffer[c, k] == old(buffer[c, k])
    {
      buffer[0, i] := 0.5 * (buffer[0, i] + buffer[1, i]);
      buffer[1, i] := buffer[0, i];
      i := i + 1;
    }
  }

  /** Zeroes channels `from` .. buffer.Length0 - 1 of the first `numSamples` samples. */
  method ClearChannels(buffer: array2<real>, from: nat, numSamples: nat)
    requires numSamples <= buffer.Length1
    modifies buffer
    ensures forall c, k :: from <= c < buffer.Length0 && 0 <= k < numSamples ==> buffer[c, k] == 0.0
    ensures forall c, k :: 0 <= c < buffer.Length0 && 0 <= k < buffer.Length1 && (c < from || k >= numSamples) ==>
      buffer[c, k] == old(buffer[c, k])
  {
    var channel: nat := from;
    while channel < buffer.Length0
      invariant from <= channel
      invariant forall c, k :: from <= c < channel && c < buffer.Length0 && 0 <= k < numSamples ==> buffer[c, k] == 0.0
      invariant forall c, k :: 0 <= c < buffer.Length0 && 0 <= k < buffer.Length1 && (c < from || c >= channel || k >= numSamples) ==>
        buffer[c, k] == old(buffer[c, k])
      decreases buffer.Length0 - channel
    {
      var sample: nat := 0;
      while sample < numSamples
        invariant sample <= numSamples
        invariant forall c, k :: from <= c < channel && c < buffer.Length0 && 0 <= k < numSamples ==> buffer[c, k] == 0.0
        invariant forall k :: 0 <= k < sample ==> buffer[channel, k] == 0.0
        invariant forall c, k ::
          (0 <= c < buffer.Length0 && 0 <= k < buffer.Length1
           && (c < from || c > channel || k >= numSamples || (c == channel && k >= sample)))
          ==> buffer[c, k] == old(buffer[c, k])
      {
        buffer[channel, sample] := 0.0;
        sample := sample + 1;
      }
      channel := channel + 1;
    }
  }

  // ---------------------------------------------------------------------
  // Stereo meter value and phase correlation
  // ---------------------------------------------------------------------

  /** The stereo meter value of two RMS levels: 0 below -80 dB, else the relative level difference. */
  function StereoMeterValue(rmsLeft: real, rmsRight: real): (v: real)
    ensures rmsLeft < SilenceThreshold && rmsRight < SilenceThreshold ==> v == 0.0
  {
    if rmsLeft < SilenceThreshold && rmsRight < SilenceThreshold then 0.0
    else if rmsRight >= rmsLeft then 1.0 - rmsLeft / rmsRight
    else rmsRight / rmsLeft - 1.0
  }

  /** The current stereo value is the legacy one written as 1 - l/r and r/l - 1, so it has the same bounds and sign. */
  lemma StereoMeterValueIsLegacyValue(rmsLeft: real, rmsRight: real)
    ensures StereoMeterValue(rmsLeft, rmsRight) == LegacyMeterBallistics.RawStereoValue(rmsLeft, rmsRight)
  {
    if !(rmsLeft < SilenceThreshold && rmsRight < SilenceThreshold) {
      if rmsRight >= rmsLeft {
        assert rmsRight > 0.0;
        assert rmsRight / rmsRight == 1.0;
        assert (rmsRight - rmsLeft) / rmsRight == rmsRight / rmsRight - rmsLeft / rmsRight;
      } else {
        assert rmsLeft > 0.0;
        assert rmsLeft / rmsLeft == 1.0;
        assert (rmsRight - rmsLeft) / rmsLeft == rmsRight / rmsLeft - rmsLeft / rmsLeft;
      }
    }
  }

  /** For RMS levels the stereo value lies in [-1, 1] and, unless both are silent, is >= 0 exactly when right >= left. */
  lemma StereoMeterValueBounds(rmsLeft: real, rmsRight: real)
    requires rmsLeft >= 0.0 && rmsRight >= 0.0
    ensures -1.0 <= StereoMeterValue(rmsLeft, rmsRight) <= 1.0
    ensures !(rmsLeft < SilenceThreshold && rmsRight < SilenceThreshold) ==>
      (StereoMeterValue(rmsLeft, rmsRight) >= 0.0 <==> rmsRight >= rmsLeft)
  {
    StereoMeterValueIsLegacyValue(rmsLeft, rmsRight);
    LegacyMeterBallistics.RawStereoValueBounds(rmsLeft, rmsRight);
  }

  /** Equal levels, as the mono mixdown produces them, read centred. */
  lemma StereoMeterValueOfEqualLevels(rms: real)
    ensures StereoMeterValue(rms, rms) == 0.0
  {
    if rms >= SilenceThreshold {
      assert rms / rms == 1.0;
    }
  }

  /**
   * The phase correlation processBufferChunk computes for a stereo
   * chunk: +1 when the signal has been mixed to mono, when both RMS levels
   * are below -80 dB, or when one channel has no energy; otherwise the
   * sum of products over the root of the product of the sums of squares.
   */
  function Correlation(mono: bool, rmsLeft: real, rmsRight: real, left: seq<real>, right: seq<real>, sqrt: Sqrt): (r: real)
    requires |left| == |right| && PositiveRoot(sqrt)
    ensures mono ==> r == 1.0
    ensures rmsLeft < SilenceThreshold && rmsRight < SilenceThreshold ==> r == 1.0
    ensures Dot(left, left) * Dot(right, right) <= 0.0 ==> r == 1.0
  {
    if mono || (rmsLeft < SilenceThreshold && rmsRight < SilenceThreshold) then 1.0
    else
      var sumsOfSquares := Dot(left, left) * Dot(right, right);
      if sumsOfSquares > 0.0 then Dot(left, right) / sqrt(sumsOfSquares) else 1.0
  }

  /** A silent channel falls back to full correlation (the mono-compatible reading). */
  lemma CorrelationWithSilentChannel(mono: bool, rmsLeft: real, rmsRight: real, left: seq<real>, right: seq<real>, sqrt: Sqrt)
    requires |left| == |right| && PositiveRoot(sqrt)
    requires forall i :: 0 <= i < |right| ==> right[i] == 0.0
    ensures Correlation(mono, rmsLeft, rmsRight, left, right, sqrt) == 1.0
  {
    DotSelf(right);
  }

  /** Two identical channels are fully correlated, given that sqrt(x * x) == x for their energy x. */
  lemma CorrelationOfIdenticalChannels(mono: bool, rmsLeft: real, rmsRight: real, signal: seq<real>, sqrt: Sqrt)
    requires PositiveRoot(sqrt) && sqrt(Dot(signal, signal) * Dot(signal, signal)) == Dot(signal, signal)
    ensures Correlation(mono, rmsLeft, rmsRight, signal, signal, sqrt) == 1.0
  {
    DotSelf(signal);
    if !mono && !(rmsLeft < SilenceThreshold && rmsRight < SilenceThreshold)
       && Dot(signal, signal) * Dot(signal, signal) > 0.0 {
      assert Dot(signal, signal) != 0.0;
      assert sqrt(Dot(signal, signal) * Dot(signal, signal)) == Dot(signal, signal);
      assert Correlation(mono, rmsLeft, rmsRight, signal, signal, sqrt) == Dot(signal, signal) / Dot(signal, signal);
      SelfQuotient(Dot(signal, signal));
    }
  }

  lemma SelfQuotient(x: real)
    requires x != 0.0
    ensures x / x == 1.0
  {
  }

  /** Correlation in terms of the three sums the correlation loop accumulates. */
  lemma CorrelationFromSums(mono: bool, rmsLeft: real, rmsRight: real, left: seq<real>, right: seq<real>, sqrt: Sqrt,
                            sumOfProduct: real, sumOfSquaresLeft: real, sumOfSquaresRight: real)
    requires |left| == |right| && PositiveRoot(sqrt)
    requires sumOfProduct == Dot(left, right) && sumOfSquaresLeft == Dot(left, left) && sumOfSquaresRight == Dot(right, right)
    requires !mono && !(rmsLeft < SilenceThreshold && rmsRight < SilenceThreshold)
    ensures sumOfSquaresLeft * sumOfSquaresRight > 0.0 ==>
      Correlation(mono, rmsLeft, rmsRight, left, right, sqrt) == sumOfProduct / sqrt(sumOfSquaresLeft * sumOfSquaresRight)
    ensures sumOfSquaresLeft * sumOfSquaresRight <= 0.0 ==> Correlation(mono, rmsLeft, rmsRight, left, right, sqrt) == 1.0
  {
    assert sumOfSquaresLeft * sumOfSquaresRight == Dot(left, left) * Dot(right, right);
  }

  /** The three sums of the correlation loop over the samples 0 .. chunkSize - 1 of channels 0 and 1. */
  method SumProducts(ring: Ring.AudioRingBuffer, chunkSize: nat, preDelay: nat)
    returns (sumOfProduct: real, sumOfSquaresLeft: real, sumOfSquaresRight: real)
    requires ring.Valid() && ring.channels >= 2 && chunkSize <= ring.length + 1 && preDelay <= ring.preDelay
    ensures sumOfProduct == Dot(ring.Window(0, chunkSize, preDelay), ring.Window(1, chunkSize, preDelay))
    ensures sumOfSquaresLeft == Dot(ring.Window(0, chunkSize, preDelay), ring.Window(0, chunkSize, preDelay))
    ensures sumOfSquaresRight == Dot(ring.Window(1, chunkSize, preDelay), ring.Window(1, chunkSize, preDelay))
  {
    ghost var leftWindow := ring.Window(0, chunkSize, preDelay);
    ghost var rightWindow := ring.Window(1, chunkSize, preDelay);
    sumOfProduct, sumOfSquaresLeft, sumOfSquaresRight := 0.0, 0.0, 0.0;
    var sample: nat := 0;
    while sample < chunkSize
      invariant sample <= chunkSize
      invariant sumOfProduct == Dot(leftWindow[..sample], rightWindow[..sample])
      invariant sumOfSquaresLeft == Dot(leftWindow[..sample], leftWindow[..sample])
      invariant sumOfSquaresRight == Dot(rightWindow[..sample], rightWindow[..sample])
    {
      var left := ring.GetSample(0, sample, preDelay);
      var right := ring.GetSample(1, sample, preDelay);
      assert leftWindow[..sample + 1] == leftWindow[..sample] + [left];
      assert rightWindow[..sample + 1] == rightWindow[..sample] + [right];
      DotStep(leftWindow[..sample], rightWindow[..sample], left, right);
      DotStep(leftWindow[..sample], leftWindow[..sample], left, left);
      DotStep(rightWindow[..sample], rightWindow[..sample], right, right);
      sumOfProduct := sumOfProduct + left * right;
      sumOfSquaresLeft := sumOfSquaresLeft + left * left;
      sumOfSquaresRight := sumOfSquaresRight + right * right;
      sample := sample + 1;
    }
    assert leftWindow[..chunkSize] == leftWindow && rightWindow[..chunkSize] == rightWindow;
  }

  /** The correlation loop of processBufferChunk over channels 0 and 1 of the ring. */
  method MeasureCorrelation(ring: Ring.AudioRingBuffer, mono: bool, rmsLeft: real, rmsRight: real,
                            chunkSize: nat, preDelay: nat, sqrt: Sqrt) returns (correlation: real)
    requires ring.Valid() && ring.channels >= 2 && chunkSize <= ring.length + 1 && preDelay <= ring.preDelay
    requires PositiveRoot(sqrt)
    ensures correlation == Correlation(mono, rmsLeft, rmsRight, ring.Window(0, chunkSize, preDelay), ring.Window(1, chunkSize, preDelay), sqrt)
  {
    ghost var left := ring.Window(0, chunkSize, preDelay);
    ghost var right := ring.Window(1, chunkSize, preDelay);
    correlation := 1.0;
    if mono {
      correlation := 1.0;
    } else if rmsLeft >= SilenceThreshold || rmsRight >= SilenceThreshold {
      var sumOfProduct, sumOfSquaresLeft, sumOfSquaresRight := SumProducts(ring, chunkSize, preDelay);
      CorrelationFromSums(mono, rmsLeft, rmsRight, left, right, sqrt, sumOfProduct, sumOfSquaresLeft, sumOfSquaresRight);
      var sumsOfSquares := sumOfSquaresLeft * sumOfSquaresRight;
      if sumsOfSquares > 0.0 {
        correlation := sumOfProduct / sqrt(sumsOfSquares);
      } else {
        correlation := 1.0;
      }
    }
    assert correlation == Correlation(mono, rmsLeft, rmsRight, left, right, sqrt);
  }

  // ---------------------------------------------------------------------
  // processBufferChunk: what one chunk feeds the meter
  // ---------------------------------------------------------------------

  /** An array2's contents as rows. */
  ghost function Contents(a: array2<real>): (r: seq<seq<real>>)
    reads a
    ensures |r| == a.Length0 && forall c :: 0 <= c < a.Length0 ==> |r[c]| == a.Length1
    ensures forall c, k :: 0 <= c < a.Length0 && 0 <= k < a.Length1 ==> r[c][k] == a[c, k]
  {
    seq(a.Length0, c requires 0 <= c < a.Length0 reads a =>
      seq(a.Length1, k requires 0 <= k < a.Length1 reads a => a[c, k]))
  }

  /** The chunk is measured half a chunk back, the delay the average filter adds. */
  predicate ChunkFits(ring: Ring.AudioRingBuffer, chunkSize: nat)
    reads ring
  {
    0 < chunkSize <= ring.length && chunkSize / 2 <= ring.preDelay
  }

  /** One window of the same non-zero length per channel. */
  predicate IsChunk(windows: seq<seq<real>>)
  {
    |windows| > 0 && |windows[0]| > 0 && forall c :: 0 <= c < |windows| ==> |windows[c]| == |windows[0]|
  }

  /**
   * What one channel's window gives updateChannel: its peak, its RMS
   * level, its overflow count, and the filtered average level computed
   * elsewhere.
   */
  function Measurement(window: seq<real>, channel: nat, timePassed: real, average: real, sqrt: Sqrt): (d: MB.ChannelData)
    requires |window| > 0
    ensures d.channel == channel && d.timePassed == timePassed && d.averageFiltered == average
    ensures 0 <= d.overflows <= |window|
  {
    MB.ChannelData(channel, timePassed, MaxAbs(window), sqrt(Dot(window, window) / |window| as real),
                   average, CountBeyond(window, OverflowThreshold))
  }

  /**
   * The peak of a window is the largest absolute sample value in it, and
   * its overflow count is the number of samples beyond the overflow
   * threshold.
   */
  lemma MeasurementOfWindow(window: seq<real>, channel: nat, timePassed: real, average: real, sqrt: Sqrt)
    requires |window| > 0
    ensures var d := Measurement(window, channel, timePassed, average, sqrt);
      && d.peak >= 0.0 && (forall i :: 0 <= i < |window| ==> Abs(window[i]) <= d.peak)
      && (exists i :: 0 <= i < |window| && d.peak == Abs(window[i]))
      && d.overflows == |PositionsBeyond(window, OverflowThreshold)|
  {
    MaxAbsIsMaximum(window);
    CountBeyondIsCardinality(window, OverflowThreshold);
  }

  /** In mono mode channel 1 is given channel 0's measurements; every other channel its own. */
  function ChannelInput(windows: seq<seq<real>>, mono: bool, channel: nat, timePassed: real,
                        averages: seq<real>, sqrt: Sqrt): (d: MB.ChannelData)
    requires IsChunk(windows) && channel < |windows| == |averages|
    ensures d.channel == channel && d.timePassed == timePassed
  {
    if mono && channel == 1 then Measurement(windows[0], 0, timePassed, averages[0], sqrt).(channel := 1)
    else Measurement(windows[channel], channel, timePassed, averages[channel], sqrt)
  }

  /** The updateChannel calls of the first `count` channels, in channel order. */
  function ChunkUpdates(windows: seq<seq<real>>, mono: bool, count: nat, timePassed: real,
                        averages: seq<real>, sqrt: Sqrt): (u: seq<MB.ChannelData>)
    requires IsChunk(windows) && count <= |windows| == |averages|
    ensures |u| == count && MB.ForChannels(u, |windows|) && MB.InChannelOrder(u)
    ensures forall c :: 0 <= c < count ==> u[c].timePassed == timePassed
  {
    seq(count, c requires 0 <= c < count => ChannelInput(windows, mono, c, timePassed, averages, sqrt))
  }

  /**
   * The meter after processBufferChunk: every channel updated once, in
   * order; for a stereo pair then the phase correlation and the stereo
   * value of the two RMS levels.
   */
  function ChunkMeter(m: MB.Meter, windows: seq<seq<real>>, mono: bool, timePassed: real,
                      averages: seq<real>, log10: Log10, pow: Pow, sqrt: Sqrt): (r: MB.Meter)
    requires MB.Consistent(m) && IsChunk(windows) && m.channels == |windows| == |averages| && PositiveRoot(sqrt)
    ensures MB.Consistent(r) && r.channels == m.channels
  {
    var updated := MB.UpdateAll(m, ChunkUpdates(windows, mono, |windows|, timePassed, averages, sqrt), log10, pow);
    if |windows| == 2 then
      var rmsLeft := ChannelInput(windows, mono, 0, timePassed, averages, sqrt).rms;
      var rmsRight := ChannelInput(windows, mono, 1, timePassed, averages, sqrt).rms;
      var correlation := Correlation(mono, rmsLeft, rmsRight, windows[0], windows[1], sqrt);
      updated.(phaseCorrelation := MB.LogMeterBallistics(MB.StereoMeterInertia, timePassed, correlation, updated.phaseCorrelation, pow),
               stereoMeterValue := MB.LogMeterBallistics(MB.StereoMeterInertia, timePassed, StereoMeterValue(rmsLeft, rmsRight),
                                                         updated.stereoMeterValue, pow))
    else updated
  }

  /**
   * After a chunk a channel's overflow count has grown by exactly the
   * overflows found in its window (channel 0's in mono mode for channel 1),
   * and its maximum peak is the larger of the old maximum and the chunk's
   * peak in decibels.
   */
  lemma ChunkMeterAccumulates(m: MB.Meter, windows: seq<seq<real>>, mono: bool, timePassed: real,
                              averages: seq<real>, log10: Log10, pow: Pow, sqrt: Sqrt, channel: nat)
    requires MB.Consistent(m) && IsChunk(windows) && m.channels == |windows| == |averages| && PositiveRoot(sqrt)
    requires channel < |windows|
    ensures ChunkMeter(m, windows, mono, timePassed, averages, log10, pow, sqrt).overflows[channel]
      == m.overflows[channel] + ChannelInput(windows, mono, channel, timePassed, averages, sqrt).overflows
    ensures ChunkMeter(m, windows, mono, timePassed, averages, log10, pow, sqrt).maximumPeakLevels[channel]
      == Max(m.maximumPeakLevels[channel], MB.Level2Decibel(ChannelInput(windows, mono, channel, timePassed, averages, sqrt).peak, log10))
  {
    var u := ChunkUpdates(windows, mono, |windows|, timePassed, averages, sqrt);
    var updated := MB.UpdateAll(m, u, log10, pow);
    ChunkMeterKeepsChannels(m, windows, mono, timePassed, averages, log10, pow, sqrt);
    MB.OnePassPerChannel(u, channel, log10);
    MB.UpdateAllAccumulates(m, u, log10, pow, channel);
    var d := ChannelInput(windows, mono, channel, timePassed, averages, sqrt);
    assert SumInts([d.overflows]) == d.overflows;
    var maximum := updated.maximumPeakLevels[channel];
    var db := MB.Level2Decibel(d.peak, log10);
    assert [db][0] == db;
    assert maximum >= m.maximumPeakLevels[channel] && maximum >= db;
    assert maximum == m.maximumPeakLevels[channel] || maximum == db;
  }

  /** The stereo readings set after the channel loop leave every per-channel reading as the loop left it. */
  lemma ChunkMeterKeepsChannels(m: MB.Meter, windows: seq<seq<real>>, mono: bool, timePassed: real,
                                averages: seq<real>, log10: Log10, pow: Pow, sqrt: Sqrt)
    requires MB.Consistent(m) && IsChunk(windows) && m.channels == |windows| == |averages| && PositiveRoot(sqrt)
    ensures var updated := MB.UpdateAll(m, ChunkUpdates(windows, mono, |windows|, timePassed, averages, sqrt), log10, pow);
      var r := ChunkMeter(m, windows, mono, timePassed, averages, log10, pow, sqrt);
      r == updated.(phaseCorrelation := r.phaseCorrelation, stereoMeterValue := r.stereoMeterValue)
  {
  }

  /**
   * A stereo pair mixed down to mono feeds the meter a correlation of +1
   * and a centred stereo value.
   */
  lemma MonoChunkReadsCentred(m: MB.Meter, windows: seq<seq<real>>, timePassed: real,
                              averages: seq<real>, log10: Log10, pow: Pow, sqrt: Sqrt)
    requires MB.Consistent(m) && IsChunk(windows) && m.channels == |windows| == |averages| == 2 && PositiveRoot(sqrt)
    ensures var updated := MB.UpdateAll(m, ChunkUpdates(windows, true, 2, timePassed, averages, sqrt), log10, pow);
      ChunkMeter(m, windows, true, timePassed, averages, log10, pow, sqrt)
      == updated.(phaseCorrelation := MB.LogMeterBallistics(MB.StereoMeterInertia, timePassed, 1.0, updated.phaseCorrelation, pow),
                  stereoMeterValue := MB.LogMeterBallistics(MB.StereoMeterInertia, timePassed, 0.0, updated.stereoMeterValue, pow))
  {
    var rms := ChannelInput(windows, true, 0, timePassed, averages, sqrt).rms;
    assert ChannelInput(windows, true, 1, timePassed, averages, sqrt).rms == rms;
    StereoMeterValueOfEqualLevels(rms);
  }

  /** The processor after prepareToPlay at a supported sample rate. */
  class KmeterAudioProcessor {
    const numInputChannels: nat
    const isStereo: bool
    const meter: MB.MeterBallistics
    const inputRing: Ring.AudioRingBuffer
    const outputRing: Ring.AudioRingBuffer
    const peakLevels: array<real>
    const rmsLevels: array<real>
    const averageLevelsFiltered: array<real>
    const overflows: array<int>
    var samplesInBuffer: nat
    var processedSeconds: real

    ghost predicate Valid()
      reads this, meter, inputRing, outputRing
    {
      Layout() && meter.Valid() && meter.numberOfChannels == numInputChannels
    }

    /** The invariant apart from the meter: channel counts, ring sizes and distinct arrays. */
    ghost predicate Layout()
      reads this, inputRing, outputRing
    {
      numInputChannels >= 1 && isStereo == (numInputChannels == 2)
      && Ring.Paired(inputRing, outputRing, numInputChannels, BufferSize) && inputRing.length >= BufferSize
      && inputRing.callbackSet && !outputRing.callbackSet
      && peakLevels.Length == numInputChannels && rmsLevels.Length == numInputChannels
      && averageLevelsFiltered.Length == numInputChannels && overflows.Length == numInputChannels
      && peakLevels != rmsLevels && peakLevels != averageLevelsFiltered && rmsLevels != averageLevelsFiltered
      && samplesInBuffer < BufferSize
    }

    /**
     * prepareToPlay: a meter for the input channels, zeroed level arrays,
     * and two ring buffers of at least BufferSize samples with a pre-delay
     * of BufferSize; only the input ring reports full chunks.
     */
    constructor (numChannels: nat, samplesPerBlock: nat, averageAlgorithm: int)
      requires numChannels >= 1
      ensures Valid() && numInputChannels == numChannels && isStereo == (numChannels == 2)
      ensures meter.State() == MB.Initial(numChannels, averageAlgorithm, false, false)
      ensures samplesInBuffer == 0
      ensures inputRing.length == if samplesPerBlock > BufferSize then samplesPerBlock else BufferSize
      ensures inputRing.currentPosition == 0 && outputRing.currentPosition == 0
      ensures peakLevels[..] == seq(numChannels, _ => 0.0) && rmsLevels[..] == seq(numChannels, _ => 0.0)
      ensures averageLevelsFiltered[..] == seq(numChannels, _ => MB.MeterMinimumDecibel)
      ensures overflows[..] == seq(numChannels, _ => 0)
    {
      numInputChannels := numChannels;
      isStereo := numChannels == 2;
      meter := new MB.MeterBallistics(numChannels, averageAlgorithm, false, false);
      peakLevels := new real[numChannels](_ => 0.0);
      rmsLevels := new real[numChannels](_ => 0.0);
      averageLevelsFiltered := new real[numChannels](_ => MB.MeterMinimumDecibel);
      overflows := new int[numChannels](_ => 0);
      var ringBufferSize := if samplesPerBlock > BufferSize then samplesPerBlock else BufferSize;
      var input, output := NewRings(numChannels, ringBufferSize);
      inputRing, outputRing := input, output;
      samplesInBuffer := 0;
      processedSeconds := 0.0;
    }

    /** The input and output rings of prepareToPlay; only the input ring reports full chunks. */
    static method NewRings(numChannels: nat, ringBufferSize: nat) returns (input: Ring.AudioRingBuffer, output: Ring.AudioRingBuffer)
      requires numChannels >= 1 && ringBufferSize >= BufferSize
      ensures fresh(input) && fresh(output) && fresh(input.audioData) && fresh(output.audioData)
      ensures Ring.Paired(input, output, numChannels, BufferSize) && input.length == ringBufferSize
      ensures input.callbackSet && !output.callbackSet
      ensures input.currentPosition == 0 && output.currentPosition == 0
    {
      input := new Ring.AudioRingBuffer(numChannels, ringBufferSize, BufferSize);
      output := new Ring.AudioRingBuffer(numChannels, ringBufferSize, BufferSize);
      input.SetCallbackClass();
    }

    /** The windows a chunk of `chunkSize` samples is measured over, half a chunk back. */
    ghost function ChunkWindows(chunkSize: nat): (ws: seq<seq<real>>)
      reads this, inputRing, inputRing.audioData
      requires inputRing.Valid() && inputRing.channels == numInputChannels && ChunkFits(inputRing, chunkSize)
      ensures ChunkOf(ws, chunkSize)
    {
      inputRing.Windows(chunkSize, chunkSize / 2)
    }

    /** `windows` are the input ring's windows of a chunk of `chunkSize` samples, half a chunk back. */
    ghost predicate ChunkOf(windows: seq<seq<real>>, chunkSize: nat)
      reads this, inputRing, inputRing.audioData
    {
      inputRing.Valid() && inputRing.channels == numInputChannels && ChunkFits(inputRing, chunkSize)
      && |windows| == numInputChannels && IsChunk(windows)
      && forall c :: 0 <= c < numInputChannels ==> windows[c] == inputRing.Window(c, chunkSize, chunkSize / 2)
    }

    /** The level arrays hold the measurements `d` at index c. */
    ghost predicate Holds(c: nat, d: MB.ChannelData)
      reads peakLevels, rmsLevels, averageLevelsFiltered, overflows
    {
      c < peakLevels.Length && c < rmsLevels.Length && c < averageLevelsFiltered.Length && c < overflows.Length
      && peakLevels[c] == d.peak && rmsLevels[c] == d.rms && averageLevelsFiltered[c] == d.averageFiltered
      && overflows[c] == d.overflows
    }

    /**
     * The measurements of one channel, stored in the processor's level
     * arrays next to those of the channels before it; `inputs` are the
     * updateChannel calls of the whole chunk.
     */
    method MeasureChannel(channel: nat, chunkSize: nat, mono: bool, averages: seq<real>, sqrt: Sqrt,
                          ghost windows: seq<seq<real>>, ghost inputs: seq<MB.ChannelData>)
      requires Valid() && channel < numInputChannels && ChunkOf(windows, chunkSize) && |averages| == numInputChannels
      requires inputs == ChunkUpdates(windows, mono, numInputChannels, processedSeconds, averages, sqrt)
      requires forall c :: 0 <= c < channel ==> Holds(c, inputs[c])
      modifies peakLevels, rmsLevels, averageLevelsFiltered, overflows
      ensures Valid() && ChunkOf(windows, chunkSize) && meter.State() == old(meter.State())
      ensures forall c :: 0 <= c <= channel ==> Holds(c, inputs[c])
    {
      label measuring:
      if mono && channel == 1 {
        assert inputs[1] == inputs[0].(channel := 1);
        Store(channel, MB.ChannelData(channel, processedSeconds, peakLevels[0], rmsLevels[0], averageLevelsFiltered[0], overflows[0]));
      } else {
        var measured := Measure(channel, chunkSize, averages[channel], sqrt);
        assert windows[channel] == inputRing.Window(channel, chunkSize, chunkSize / 2);
        assert measured == inputs[channel];
        Store(channel, measured);
      }
      forall c | 0 <= c < channel
        ensures Holds(c, inputs[c])
      {
        assert old@measuring(Holds(c, inputs[c]));
      }
    }

    /** Writes the measurements `d` into the level arrays at index `channel`. */
    method Store(channel: nat, d: MB.ChannelData)
      requires channel < peakLevels.Length && channel < rmsLevels.Length
      requires channel < averageLevelsFiltered.Length && channel < overflows.Length
      requires peakLevels != rmsLevels && peakLevels != averageLevelsFiltered && rmsLevels != averageLevelsFiltered
      modifies peakLevels, rmsLevels, averageLevelsFiltered, overflows
      ensures Holds(channel, d)
      ensures forall c :: 0 <= c < peakLevels.Length && c != channel ==> peakLevels[c] == old(peakLevels[c])
      ensures forall c :: 0 <= c < rmsLevels.Length && c != channel ==> rmsLevels[c] == old(rmsLevels[c])
      ensures forall c :: 0 <= c < averageLevelsFiltered.Length && c != channel ==> averageLevelsFiltered[c] == old(averageLevelsFiltered[c])
      ensures forall c :: 0 <= c < overflows.Length && c != channel ==> overflows[c] == old(overflows[c])
    {
      peakLevels[channel] := d.peak;
      rmsLevels[channel] := d.rms;
      averageLevelsFiltered[channel] := d.averageFiltered;
      overflows[channel] := d.overflows;
    }

    /** Peak, RMS level and overflow count of one channel's window, half a chunk back. */
    method Measure(channel: nat, chunkSize: nat, average: real, sqrt: Sqrt) returns (d: MB.ChannelData)
      requires Layout() && channel < numInputChannels && ChunkFits(inputRing, chunkSize)
      ensures d == Measurement(inputRing.Window(channel, chunkSize, chunkSize / 2), channel, processedSeconds, average, sqrt)
    {
      var preDelay := chunkSize / 2;
      var peak := inputRing.GetMagnitude(channel, chunkSize, preDelay);
      var rms := inputRing.GetRmsLevel(channel, chunkSize, preDelay, sqrt);
      var count := CountOverflows(inputRing, channel, chunkSize, preDelay);
      d := MB.ChannelData(channel, processedSeconds, peak, rms.value, average, count);
    }

    /** The channel loop of processBufferChunk: measure each channel, then update its meter. */
    method MeasureChannels(chunkSize: nat, mono: bool, averages: seq<real>, log10: Log10, pow: Pow, sqrt: Sqrt,
                           ghost windows: seq<seq<real>>, ghost inputs: seq<MB.ChannelData>)
      requires Valid() && ChunkOf(windows, chunkSize) && |averages| == numInputChannels
      requires inputs == ChunkUpdates(windows, mono, numInputChannels, processedSeconds, averages, sqrt)
      modifies meter, peakLevels, rmsLevels, averageLevelsFiltered, overflows
      ensures Valid()
      ensures meter.State() == MB.UpdateAll(old(meter.State()), inputs, log10, pow)
      ensures forall c :: 0 <= c < numInputChannels ==> Holds(c, inputs[c])
    {
      ghost var initial := meter.State();
      var channel: nat := 0;
      while channel < numInputChannels
        invariant channel <= numInputChannels && Valid() && ChunkOf(windows, chunkSize)
        invariant meter.State() == MB.UpdateAll(initial, inputs[..channel], log10, pow)
        invariant forall c :: 0 <= c < channel ==> Holds(c, inputs[c])
      {
        MeterChannel(channel, chunkSize, mono, averages, log10, pow, sqrt, windows, inputs, initial);
        channel := channel + 1;
      }
      assert inputs[..channel] == inputs;
    }

    /** One pass of the channel loop: measure the channel, then update its meter. */
    method MeterChannel(channel: nat, chunkSize: nat, mono: bool, averages: seq<real>, log10: Log10, pow: Pow, sqrt: Sqrt,
                        ghost windows: seq<seq<real>>, ghost inputs: seq<MB.ChannelData>, ghost initial: MB.Meter)
      requires Valid() && channel < numInputChannels && ChunkOf(windows, chunkSize) && |averages| == numInputChannels
      requires inputs == ChunkUpdates(windows, mono, numInputChannels, processedSeconds, averages, sqrt)
      requires MB.Consistent(initial) && initial.channels == numInputChannels
      requires meter.State() == MB.UpdateAll(initial, inputs[..channel], log10, pow)
      requires forall c :: 0 <= c < channel ==> Holds(c, inputs[c])
      modifies meter, peakLevels, rmsLevels, averageLevelsFiltered, overflows
      ensures Valid() && ChunkOf(windows, chunkSize)
      ensures meter.State() == MB.UpdateAll(initial, inputs[..channel + 1], log10, pow)
      ensures forall c :: 0 <= c <= channel ==> Holds(c, inputs[c])
    {
      MeasureChannel(channel, chunkSize, mono, averages, sqrt, windows, inputs);
      UpdateMeterChannel(channel, log10, pow, initial, inputs);
    }

    /**
     * The updateChannel call of the channel loop, with the levels of
     * `inputs[channel]` just stored: the meter has seen one more update.
     */
    method UpdateMeterChannel(channel: nat, log10: Log10, pow: Pow, ghost initial: MB.Meter, ghost inputs: seq<MB.ChannelData>)
      requires Valid() && channel < numInputChannels <= |inputs|
      requires MB.Consistent(initial) && initial.channels == numInputChannels && MB.ForChannels(inputs, numInputChannels)
      requires inputs[channel].channel == channel && inputs[channel].timePassed == processedSeconds && Holds(channel, inputs[channel])
      requires meter.State() == MB.UpdateAll(initial, inputs[..channel], log10, pow)
      modifies meter
      ensures Valid()
      ensures meter.State() == MB.UpdateAll(initial, inputs[..channel + 1], log10, pow)
    {
      meter.UpdateChannel(channel, processedSeconds, peakLevels[channel], rmsLevels[channel], averageLevelsFiltered[channel],
                          overflows[channel], log10, pow);
      MB.UpdateAllPrefixStep(initial, inputs, channel, log10, pow);
    }

    /** The stereo part of processBufferChunk: phase correlation, then the stereo value of the two RMS levels. */
    method UpdateStereoReadings(chunkSize: nat, mono: bool, pow: Pow, sqrt: Sqrt)
      requires Valid() && ChunkFits(inputRing, chunkSize) && PositiveRoot(sqrt)
      modifies meter
      ensures Valid()
      ensures !isStereo ==> meter.State() == old(meter.State())
      ensures isStereo ==>
        var correlation := Correlation(mono, rmsLevels[0], rmsLevels[1], inputRing.Window(0, chunkSize, chunkSize / 2), inputRing.Window(1, chunkSize, chunkSize / 2), sqrt);
        meter.State() == old(meter.State()).(
          phaseCorrelation := MB.LogMeterBallistics(MB.StereoMeterInertia, processedSeconds, correlation, old(meter.phaseCorrelation), pow),
          stereoMeterValue := MB.LogMeterBallistics(MB.StereoMeterInertia, processedSeconds, StereoMeterValue(rmsLevels[0], rmsLevels[1]),
                                                    old(meter.stereoMeterValue), pow))
    {
      if isStereo {
        var correlation := MeasureCorrelation(inputRing, mono, rmsLevels[0], rmsLevels[1], chunkSize, chunkSize / 2, sqrt);
        meter.SetPhaseCorrelation(processedSeconds, correlation, pow);
        var stereoMeterValue := StereoMeterValue(rmsLevels[0], rmsLevels[1]);
        meter.SetStereoMeterValue(processedSeconds, stereoMeterValue, pow);
      }
    }

    /** The end of processBufferChunk: the chunk, undelayed, moves from the input ring to the output ring. */
    method ForwardChunk(chunkSize: nat)
      requires Valid() && ChunkFits(inputRing, chunkSize)
      modifies outputRing, outputRing.audioData
      ensures Valid()
      ensures outputRing.currentPosition == (old(outputRing.currentPosition) + chunkSize) % outputRing.totalLength
      ensures forall c, j :: 0 <= c < numInputChannels && 0 <= j < outputRing.totalLength ==>
        outputRing.audioData[c, j]
          == if Ring.Distance(old(outputRing.currentPosition), j, outputRing.totalLength) < chunkSize
             then inputRing.GetSample(c, chunkSize - Ring.Distance(old(outputRing.currentPosition), j, outputRing.totalLength), 0)
             else old(outputRing.audioData[c, j])
    {
      var temp := new real[numInputChannels, chunkSize];
      inputRing.CopyToBuffer(temp, 0, chunkSize, 0);
      var processed := outputRing.AddSamples(temp, 0, chunkSize);
    }

    /**
     * processBufferChunk for a chunk of `chunkSize` samples at
     * `sampleRate`; `averages` are the filtered average levels the
     * average-level filter reports for the chunk.
     */
    method ProcessBufferChunk(chunkSize: nat, mono: bool, sampleRate: real, averages: seq<real>, log10: Log10, pow: Pow, sqrt: Sqrt)
      requires Valid() && ChunkFits(inputRing, chunkSize) && sampleRate > 0.0
      requires |averages| == numInputChannels && PositiveRoot(sqrt)
      modifies this`processedSeconds, meter, peakLevels, rmsLevels, averageLevelsFiltered, overflows, outputRing, outputRing.audioData
      ensures Valid() && samplesInBuffer == old(samplesInBuffer)
      ensures processedSeconds == chunkSize as real / sampleRate
      ensures meter.State() == ChunkMeter(old(meter.State()), ChunkWindows(chunkSize), mono, processedSeconds, averages, log10, pow, sqrt)
      ensures outputRing.currentPosition == (old(outputRing.currentPosition) + chunkSize) % outputRing.totalLength
      ensures forall c, j :: 0 <= c < numInputChannels && 0 <= j < outputRing.totalLength ==>
        outputRing.audioData[c, j]
          == if Ring.Distance(old(outputRing.currentPosition), j, outputRing.totalLength) < chunkSize
             then inputRing.GetSample(c, chunkSize - Ring.Distance(old(outputRing.currentPosition), j, outputRing.totalLength), 0)
             else old(outputRing.audioData[c, j])
    {
      // The source meters first and forwards the chunk afterwards; the two
      // steps touch disjoint state (meter and level arrays versus the
      // output ring), so forwarding first ends in the same state.
      ghost var windows := ChunkWindows(chunkSize);
      ForwardChunk(chunkSize);
      assert ChunkWindows(chunkSize) == windows;
      MeterChunkAt(chunkSize, mono, sampleRate, averages, log10, pow, sqrt);
    }

    /** The chunk's length in seconds, then the metering part of processBufferChunk. */
    method MeterChunkAt(chunkSize: nat, mono: bool, sampleRate: real, averages: seq<real>, log10: Log10, pow: Pow, sqrt: Sqrt)
      requires Valid() && ChunkFits(inputRing, chunkSize) && sampleRate > 0.0
      requires |averages| == numInputChannels && PositiveRoot(sqrt)
      modifies this`processedSeconds, meter, peakLevels, rmsLevels, averageLevelsFiltered, overflows
      ensures Valid() && processedSeconds == chunkSize as real / sampleRate
      ensures meter.State() == ChunkMeter(old(meter.State()), ChunkWindows(chunkSize), mono, processedSeconds, averages, log10, pow, sqrt)
    {
      processedSeconds := chunkSize as real / sampleRate;
      MeterChunk(chunkSize, mono, averages, log10, pow, sqrt);
    }

    /** The metering part of processBufferChunk: the channel loop, then the stereo readings. */
    method MeterChunk(chunkSize: nat, mono: bool, averages: seq<real>, log10: Log10, pow: Pow, sqrt: Sqrt)
      requires Valid() && ChunkFits(inputRing, chunkSize) && |averages| == numInputChannels && PositiveRoot(sqrt)
      modifies meter, peakLevels, rmsLevels, averageLevelsFiltered, overflows
      ensures Valid()
      ensures meter.State() == ChunkMeter(old(meter.State()), ChunkWindows(chunkSize), mono, processedSeconds, averages, log10, pow, sqrt)
    {
      ghost var before := meter.State();
      ghost var windows := ChunkWindows(chunkSize);
      ghost var inputs := ChunkUpdates(windows, mono, numInputChannels, processedSeconds, averages, sqrt);
      MeasureChannels(chunkSize, mono, averages, log10, pow, sqrt, windows, inputs);
      assert meter.State() == MB.UpdateAll(before, inputs, log10, pow);
      UpdateStereoReadings(chunkSize, mono, pow, sqrt);
      if isStereo {
        assert Holds(0, inputs[0]) && Holds(1, inputs[1]);
        assert windows[0] == inputRing.Window(0, chunkSize, chunkSize / 2);
        assert windows[1] == inputRing.Window(1, chunkSize, chunkSize / 2);
      }
      assert meter.State() == ChunkMeter(before, windows, mono, processedSeconds, averages, log10, pow, sqrt);
      assert ChunkWindows(chunkSize) == windows;
    }

    /**
     * The start of processBlock: output channels beyond the inputs are
     * zeroed and, for a stereo input in mono mode, both channels carry
     * their mean.
     */
    method PrepareBlock(buffer: array2<real>, mono: bool)
      requires Layout() && buffer.Length0 >= numInputChannels
      modifies buffer
      ensures forall c, k :: 0 <= c < buffer.Length0 && 0 <= k < buffer.Length1 ==>
        buffer[c, k] == if c >= numInputChannels then 0.0
                        else if isStereo && mono then MonoSample(old(buffer[0, k]), old(buffer[1, k]))
                        else old(buffer[c, k])
    {
      ClearChannels(buffer, numInputChannels, buffer.Length1);
      if isStereo && mono {
        MixDownToMono(buffer, buffer.Length1);
      }
    }

    /**
     * processBlock at a supported sample rate: the prepared block goes
     * into the input ring, and the block is overwritten with the output
     * ring's samples, delayed so that input and output stay BufferSize
     * samples apart.
     */
    method ProcessBlock(buffer: array2<real>, mono: bool)
      requires Valid() && buffer.Length0 >= numInputChannels && buffer.Length1 <= inputRing.length
      requires buffer != inputRing.audioData && buffer != outputRing.audioData
      modifies this, buffer, inputRing, inputRing.audioData
      ensures Valid() && processedSeconds == old(processedSeconds)
      ensures samplesInBuffer == (old(samplesInBuffer) + buffer.Length1) % BufferSize
      ensures inputRing.currentPosition == (old(inputRing.currentPosition) + buffer.Length1) % inputRing.totalLength
      ensures inputRing.samplesInBuffer == (old(inputRing.samplesInBuffer) + buffer.Length1) % inputRing.length
      ensures old(inputRing.fullBuffers) <= inputRing.fullBuffers
      ensures |inputRing.fullBuffers| == |old(inputRing.fullBuffers)| + (old(inputRing.samplesInBuffer) + buffer.Length1) / inputRing.length
      ensures forall c, j :: 0 <= c < numInputChannels && 0 <= j < inputRing.totalLength ==>
        var d := Ring.Distance(old(inputRing.currentPosition), j, inputRing.totalLength);
        inputRing.audioData[c, j]
          == if d >= buffer.Length1 then old(inputRing.audioData[c, j])
             else if isStereo && mono then MonoSample(old(buffer[0, d]), old(buffer[1, d]))
             else old(buffer[c, d])
      ensures forall c, k :: 0 <= c < numInputChannels && 0 <= k < buffer.Length1 ==>
        buffer[c, k] == outputRing.GetSample(c, buffer.Length1 - k, BufferSize - samplesInBuffer)
      ensures forall c, k :: numInputChannels <= c < buffer.Length0 && 0 <= k < buffer.Length1 ==> buffer[c, k] == 0.0
    {
      var numSamples := buffer.Length1;
      PrepareBlock(buffer, mono);
      var processed := inputRing.AddSamples(buffer, 0, numSamples);
      samplesInBuffer := (samplesInBuffer + numSamples) % BufferSize;
      outputRing.CopyToBuffer(buffer, 0, numSamples, BufferSize - samplesInBuffer);
    }
  }
}
