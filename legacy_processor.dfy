/**
 * The metering loop of the legacy plug-in processor (src/plugin_processor.cpp):
 * counting contiguous overflows, advancing the ring position one sample
 * at a time, and the correlation it hands to the meter for each full ring.
 */
module LegacyProcessor {
  import opened Numeric

  /** KMETER_BUFFER_SIZE: the ring is processed every 1024 samples. */
  const BufferSize: nat := 1024

  /** The correlation is not measured below this average level (-80 dB). */
  const SilenceThreshold: real := 0.0001

  // ---------------------------------------------------------------------
  // countContigousOverflows
  // ---------------------------------------------------------------------

  /** The overflow counter and the flag the scan carries from sample to sample (and from call to call). */
  datatype OverflowScan = OverflowScan(count: nat, lastSampleOver: bool)

  /**
   * One sample of the scan: above full scale always counts; exactly full
   * scale counts only after a sample at or above full scale; the flag
   * records whether this sample was at or above full scale.
   */
  function ScanStep(scan: OverflowScan, sample: real): (r: OverflowScan)
    ensures r.lastSampleOver <==> Abs(sample) >= 1.0
    ensures Abs(sample) > 1.0 ==> r.count == scan.count + 1
    ensures Abs(sample) == 1.0 ==> r.count == scan.count + (if scan.lastSampleOver then 1 else 0)
    ensures Abs(sample) < 1.0 ==> r.count == scan.count
  {
    var value := Abs(sample);
    if value > 1.0 then OverflowScan(scan.count + 1, true)
    else if value == 1.0 then OverflowScan(if scan.lastSampleOver then scan.count + 1 else scan.count, true)
    else OverflowScan(scan.count, false)
  }

  /** The scan over a run of samples, starting from zero overflows and the carried flag. */
  function Scan(samples: seq<real>, lastSampleOver: bool): (r: OverflowScan)
    ensures r.count <= |samples|
    ensures |samples| == 0 ==> r.lastSampleOver == lastSampleOver
    ensures |samples| > 0 ==> (r.lastSampleOver <==> Abs(samples[|samples| - 1]) >= 1.0)
    decreases |samples|
  {
    if |samples| == 0 then OverflowScan(0, lastSampleOver)
    else ScanStep(Scan(samples[..|samples| - 1], lastSampleOver), samples[|samples| - 1])
  }

  /** Sample i is an overflow: beyond full scale, or at full scale right after a sample at or beyond it. */
  predicate CountedAt(samples: seq<real>, lastSampleOver: bool, i: int)
    requires 0 <= i < |samples|
  {
    Abs(samples[i]) > 1.0
    || (Abs(samples[i]) == 1.0 && (if i == 0 then lastSampleOver else Abs(samples[i - 1]) >= 1.0))
  }

  /** How many of the first n samples are overflows, sample by sample. */
  function CountedAmong(samples: seq<real>, lastSampleOver: bool, n: nat): (k: nat)
    requires n <= |samples|
    ensures k <= n
  {
    if n == 0 then 0
    else CountedAmong(samples, lastSampleOver, n - 1) + (if CountedAt(samples, lastSampleOver, n - 1) then 1 else 0)
  }

  /** The carried-flag scan counts exactly the samples CountedAt describes. */
  lemma {:induction false} ScanCountsOverflows(samples: seq<real>, lastSampleOver: bool)
    ensures Scan(samples, lastSampleOver).count == CountedAmong(samples, lastSampleOver, |samples|)
  {
    ScanPrefix(samples, lastSampleOver, |samples|);
    assert samples[..|samples|] == samples;
  }

  lemma {:induction false} ScanPrefix(samples: seq<real>, lastSampleOver: bool, n: nat)
    requires n <= |samples|
    ensures Scan(samples[..n], lastSampleOver).count == CountedAmong(samples, lastSampleOver, n)
  {
    if n > 0 {
      ScanPrefix(samples, lastSampleOver, n - 1);
      var prefix := samples[..n];
      assert prefix[..n - 1] == samples[..n - 1];
      var before := Scan(samples[..n - 1], lastSampleOver);
      assert n - 1 > 0 ==> (before.lastSampleOver <==> Abs(samples[n - 2]) >= 1.0) by {
        if n - 1 > 0 {
          assert samples[..n - 1][n - 2] == samples[n - 2];
        }
      }
    }
  }

  /** Two consecutive calls that thread the flag count what one call over both runs counts. */
  lemma {:induction false} ScanSplits(first: seq<real>, second: seq<real>, lastSampleOver: bool)
    ensures var a := Scan(first, lastSampleOver);
      var b := Scan(second, a.lastSampleOver);
      Scan(first + second, lastSampleOver) == OverflowScan(a.count + b.count, b.lastSampleOver)
    decreases |second|
  {
    if |second| > 0 {
      var n := |second| - 1;
      assert (first + second)[..|first + second| - 1] == first + second[..n];
      assert (first + second)[|first + second| - 1] == second[n];
      ScanSplits(first, second[..n], lastSampleOver);
    } else {
      assert first + second == first;
    }
  }

  /** One channel's samples from `start` on, as the scan reads them from the buffer. */
  function Samples(buffer: array2<real>, channel: nat, start: nat, length: nat): (s: seq<real>)
    reads buffer
    requires channel < buffer.Length0 && start + length <= buffer.Length1
    ensures |s| == length && forall i :: 0 <= i < length ==> s[i] == buffer[channel, start + i]
  {
    seq(length, i requires 0 <= i < length reads buffer => buffer[channel, start + i])
  }

  /** countContigousOverflows; the flag passed by reference is returned updated. */
  method CountContiguousOverflows(buffer: array2<real>, channel: nat, startSample: nat, length: nat, lastSampleOver: bool)
    returns (overflows: nat, lastOver: bool)
    requires channel < buffer.Length0 && startSample + length <= buffer.Length1
    ensures OverflowScan(overflows, lastOver) == Scan(Samples(buffer, channel, startSample, length), lastSampleOver)
    ensures overflows <= length
  {
    ghost var samples := Samples(buffer, channel, startSample, length);
    overflows := 0;
    lastOver := lastSampleOver;
    var n := startSample;
    while n < startSample + length
      invariant startSample <= n <= startSample + length
      invariant OverflowScan(overflows, lastOver) == Scan(samples[..n - startSample], lastSampleOver)
    {
      var value := Abs(buffer[channel, n]);
      if value > 1.0 {
        overflows := overflows + 1;
        lastOver := true;
      } else if value == 1.0 {
        if lastOver {
          overflows := overflows + 1;
        }
        lastOver := true;
      } else {
        lastOver := false;
      }
      assert samples[..n + 1 - startSample][..n - startSample] == samples[..n - startSample];
      n := n + 1;
    }
    assert samples[..length] == samples;
  }

  // ---------------------------------------------------------------------
  // processBlock: the ring position
  // ---------------------------------------------------------------------

  /**
   * The position bookkeeping of processBlock's sample loop: the position
   * advances modulo BufferSize for every sample, and each time it reaches
   * BufferSize - 1 a full ring is processed.  Returns the new position and
   * the number of full rings.
   */
  method AdvanceRingPosition(position: nat, numSamples: nat) returns (newPosition: nat, rings: nat)
    requires position < BufferSize
    ensures newPosition < BufferSize && newPosition == (position + numSamples) % BufferSize
    ensures rings == (position + numSamples + 1) / BufferSize - (position + 1) / BufferSize
  {
    newPosition := position;
    rings := 0;
    var sourcePosition := 0;
    while sourcePosition < numSamples
      invariant sourcePosition <= numSamples
      invariant newPosition == (position + sourcePosition) % BufferSize
      invariant rings == (position + sourcePosition + 1) / BufferSize - (position + 1) / BufferSize
    {
      DivModStep(position + sourcePosition, 1, BufferSize);
      DivModStep(position + sourcePosition + 1, 1, BufferSize);
      newPosition := (newPosition + 1) % BufferSize;
      if newPosition == BufferSize - 1 {
        rings := rings + 1;
      }
      sourcePosition := sourcePosition + 1;
    }
  }

  /** A block no longer than the ring completes at most two rings, and a block of one ring exactly one. */
  lemma RingsPerBlock(position: nat, numSamples: nat)
    requires position < BufferSize && numSamples <= BufferSize
    ensures (position + numSamples + 1) / BufferSize - (position + 1) / BufferSize <= 1
    ensures numSamples == BufferSize ==> (position + numSamples + 1) / BufferSize - (position + 1) / BufferSize == 1
  {
    if position + 1 < BufferSize {
      UniqueDivision(position + 1, BufferSize, 0, position + 1);
      if position + numSamples + 1 < BufferSize {
        UniqueDivision(position + numSamples + 1, BufferSize, 0, position + numSamples + 1);
      } else {
        UniqueDivision(position + numSamples + 1, BufferSize, 1, position + numSamples + 1 - BufferSize);
      }
    } else {
      UniqueDivision(position + 1, BufferSize, 1, 0);
      if numSamples == BufferSize {
        UniqueDivision(position + numSamples + 1, BufferSize, 2, 0);
      } else {
        UniqueDivision(position + numSamples + 1, BufferSize, 1, numSamples);
      }
    }
  }

  // ---------------------------------------------------------------------
  // processBlock: what a full ring hands to the meter
  // ---------------------------------------------------------------------

  /** The readings of one channel for one full ring. */
  datatype ChannelReadings = ChannelReadings(peak: real, average: real, overflows: nat)

  /**
   * The correlation for a full ring: +1 for a mono or single-channel
   * input and when both averages are below -80 dB, otherwise the sum of
   * products over the root of the product of the sums of squares.  A
   * channel without energy makes C divide by zero; that case is None.
   */
  function RingCorrelation(isStereo: bool, makeMono: bool, averageLeft: real, averageRight: real,
                           left: seq<real>, right: seq<real>, sqrt: Sqrt): (r: Option<real>)
    requires |left| == |right| && PositiveRoot(sqrt)
    ensures !isStereo || makeMono ==> r == Some(1.0)
    ensures averageLeft < SilenceThreshold && averageRight < SilenceThreshold ==> r == Some(1.0)
    ensures r.None? <==> isStereo && !makeMono && !(averageLeft < SilenceThreshold && averageRight < SilenceThreshold)
                         && Dot(left, left) * Dot(right, right) <= 0.0
  {
    if !isStereo || makeMono || (averageLeft < SilenceThreshold && averageRight < SilenceThreshold) then Some(1.0)
    else
      var sumsOfSquares := Dot(left, left) * Dot(right, right);
      if sumsOfSquares > 0.0 then Some(Dot(left, right) / sqrt(sumsOfSquares)) else None
  }

  /** A mono or single-channel input shows the left channel's readings on the right as well. */
  function RightReadings(isStereo: bool, makeMono: bool, left: ChannelReadings, right: ChannelReadings): (r: ChannelReadings)
    ensures isStereo && !makeMono ==> r == right
    ensures !isStereo || makeMono ==> r == left
  {
    if isStereo && !makeMono then right else left
  }
}
