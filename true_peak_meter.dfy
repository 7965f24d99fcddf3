/**
 * The true-peak meter (Source/true_peak_meter.cpp): the newest block of
 * the input ring is copied out, upsampled 8 times by zero-stuffing, run
 * through the interpolation filter, and the largest magnitude and the
 * samples beyond -0.169 dBFS are recorded per channel.  The filter is an
 * FFT convolution; here it is the parameter `filter`, a function from one
 * oversampled row to the filtered row of the same length.
 */
module TruePeakMeter {
  import opened Numeric
  import opened Upsampling
  import opened SampleBuffer
  import Ring = AudioRingBuffer

  /** 8 times oversampling (ITU-R BS.1770-3, Annex 2). */
  const OversamplingRate: nat := 8

  /** Linear level of -0.169 dBFS, the largest under-read of 8 times oversampling. */
  const OverflowThreshold: real := 0.9807

  /** The FFT convolution of one oversampled row with the interpolation kernel. */
  type Filter = seq<real> -> seq<real>

  ghost predicate KeepsLength(filter: Filter)
  {
    forall s: seq<real> :: |filter(s)| == |s|
  }

  class TruePeakMeter {
    const channels: nat
    const bufferSizeOriginal: nat
    const oversamplingRate: nat
    const bufferSizeOversampled: nat
    const fftSize: nat
    const halfFftSize: nat
    const original: array2<real>
    const oversampled: array2<real>
    const truePeakLevels: array<real>
    const numberOfOverflows: array<int>

    ghost predicate Valid()
      reads this
    {
      channels > 0 && oversamplingRate == OversamplingRate
      && bufferSizeOversampled == bufferSizeOriginal * oversamplingRate
      && fftSize == 2 * bufferSizeOversampled && halfFftSize == fftSize / 2 + 1
      && original.Length0 == channels && original.Length1 == bufferSizeOriginal
      && oversampled.Length0 == channels && oversampled.Length1 == bufferSizeOversampled
      && original != oversampled
      && truePeakLevels.Length == channels && numberOfOverflows.Length == channels
    }

    /** Both buffers silent, every level and count 0. */
    ghost predicate Silent()
      reads this, original, oversampled, truePeakLevels, numberOfOverflows
      requires Valid()
    {
      (forall c, k :: 0 <= c < channels && 0 <= k < bufferSizeOriginal ==> original[c, k] == 0.0)
      && (forall c, k :: 0 <= c < channels && 0 <= k < bufferSizeOversampled ==> oversampled[c, k] == 0.0)
      && (forall c :: 0 <= c < channels ==> truePeakLevels[c] == 0.0 && numberOfOverflows[c] == 0)
    }

    /** The sizes the constructor derives from the block size, buffers cleared and readings reset. */
    constructor (numberOfChannels: nat, bufferSize: nat)
      requires numberOfChannels > 0
      ensures Valid() && Silent()
      ensures channels == numberOfChannels && bufferSizeOriginal == bufferSize
      ensures bufferSizeOversampled == 8 * bufferSize && fftSize == 16 * bufferSize && halfFftSize == 8 * bufferSize + 1
      ensures fresh(original) && fresh(oversampled) && fresh(truePeakLevels) && fresh(numberOfOverflows)
    {
      channels := numberOfChannels;
      bufferSizeOriginal := bufferSize;
      oversamplingRate := OversamplingRate;
      bufferSizeOversampled := bufferSize * OversamplingRate;
      fftSize := bufferSize * OversamplingRate * 2;
      halfFftSize := bufferSize * OversamplingRate * 2 / 2 + 1;
      original := new real[numberOfChannels, bufferSize]((c, k) => 0.0);
      oversampled := new real[numberOfChannels, bufferSize * OversamplingRate]((c, k) => 0.0);
      truePeakLevels := new real[numberOfChannels];
      numberOfOverflows := new int[numberOfChannels];
      new;
      CalculateFilterKernel();
    }

    /** The part of calculateFilterKernel outside the kernel itself: every level and overflow count back to 0. */
    method CalculateFilterKernel()
      requires Valid()
      modifies truePeakLevels, numberOfOverflows
      ensures forall c :: 0 <= c < channels ==> truePeakLevels[c] == 0.0 && numberOfOverflows[c] == 0
    {
      var channel := 0;
      while channel < channels
        invariant channel <= channels
        invariant forall c :: 0 <= c < channel ==> truePeakLevels[c] == 0.0 && numberOfOverflows[c] == 0
      {
        truePeakLevels[channel] := 0.0;
        numberOfOverflows[channel] := 0;
        channel := channel + 1;
      }
    }

    /** Counts the oversampled samples of one channel beyond the threshold and stores the count. */
    method CountOverflows(channel: nat)
      requires Valid() && channel < channels
      modifies numberOfOverflows
      ensures numberOfOverflows[channel] == CountBeyond(Row(oversampled, channel), OverflowThreshold)
      ensures 0 <= numberOfOverflows[channel] <= bufferSizeOversampled
      ensures forall c :: 0 <= c < channels && c != channel ==> numberOfOverflows[c] == old(numberOfOverflows[c])
    {
      ghost var row := Row(oversampled, channel);
      var overflows := 0;
      var sample := 0;
      while sample < bufferSizeOversampled
        invariant sample <= bufferSizeOversampled
        invariant overflows == CountBeyond(row[..sample], OverflowThreshold)
      {
        var value := oversampled[channel, sample];
        if value < -OverflowThreshold || value > OverflowThreshold {
          overflows := overflows + 1;
        }
        assert row[..sample + 1][..sample] == row[..sample];
        sample := sample + 1;
      }
      assert row[..sample] == row;
      numberOfOverflows[channel] := overflows;
    }

    function GetLevel(channel: nat): real
      reads this, truePeakLevels
      requires Valid() && channel < channels
    {
      truePeakLevels[channel]
    }

    function GetNumberOfOverflows(channel: nat): int
      reads this, numberOfOverflows
      requires Valid() && channel < channels
    {
      numberOfOverflows[channel]
    }

    /**
     * The zero-stuffing of copyFromBuffer: the oversampled buffer is cleared
     * and sample k of each channel is copied to sample 8 k.
     */
    method ZeroStuff()
      requires Valid()
      modifies oversampled
      ensures forall c, k :: 0 <= c < channels && 0 <= k < bufferSizeOriginal ==> oversampled[c, k * 8] == original[c, k]
      ensures forall c, j :: 0 <= c < channels && 0 <= j < bufferSizeOversampled && j % 8 != 0 ==> oversampled[c, j] == 0.0
    {
      Clear(oversampled);
      var sample := 0;
      while sample < bufferSizeOriginal
        invariant sample <= bufferSizeOriginal
        invariant forall c, k :: 0 <= c < channels && 0 <= k < sample ==> oversampled[c, k * 8] == original[c, k]
        invariant forall c, j :: 0 <= c < channels && 0 <= j < bufferSizeOversampled && j % 8 != 0 ==> oversampled[c, j] == 0.0
      {
        var sampleOversampled := sample * oversamplingRate;
        var channel := 0;
        while channel < channels
          invariant channel <= channels
          invariant forall c, k :: 0 <= c < channels && 0 <= k < sample ==> oversampled[c, k * 8] == original[c, k]
          invariant forall c :: 0 <= c < channel ==> oversampled[c, sample * 8] == original[c, sample]
          invariant forall c, j :: 0 <= c < channels && 0 <= j < bufferSizeOversampled && j % 8 != 0 ==> oversampled[c, j] == 0.0
        {
          oversampled[channel, sampleOversampled] := original[channel, sample];
          channel := channel + 1;
        }
        sample := sample + 1;
      }
    }

    /** Each oversampled row is the zero-stuffed original row. */
    lemma ZeroStuffedRows()
      requires Valid()
      requires forall c, k :: 0 <= c < channels && 0 <= k < bufferSizeOriginal ==> oversampled[c, k * 8] == original[c, k]
      requires forall c, j :: 0 <= c < channels && 0 <= j < bufferSizeOversampled && j % 8 != 0 ==> oversampled[c, j] == 0.0
      ensures forall c :: 0 <= c < channels ==> Row(oversampled, c) == Stuffed(Row(original, c), OversamplingRate)
    {
      forall c | 0 <= c < channels
        ensures Row(oversampled, c) == Stuffed(Row(original, c), OversamplingRate)
      {
        StuffedUnique(Row(original, c), OversamplingRate, Row(oversampled, c));
      }
    }

    /**
     * filterSamples for one channel: the row is replaced by its filtered
     * version, its largest magnitude becomes the true-peak level, and its
     * overflows are counted.
     */
    method FilterSamples(channel: nat, filter: Filter)
      requires Valid() && channel < channels && KeepsLength(filter)
      modifies oversampled, truePeakLevels, numberOfOverflows
      ensures Row(oversampled, channel) == filter(old(Row(oversampled, channel)))
      ensures forall c, k :: 0 <= c < channels && c != channel && 0 <= k < bufferSizeOversampled ==> oversampled[c, k] == old(oversampled[c, k])
      ensures truePeakLevels[channel] == MaxAbs(Row(oversampled, channel))
      ensures numberOfOverflows[channel] == CountBeyond(Row(oversampled, channel), OverflowThreshold)
      ensures forall c :: 0 <= c < channels && c != channel ==>
        truePeakLevels[c] == old(truePeakLevels[c]) && numberOfOverflows[c] == old(numberOfOverflows[c])
    {
      var filtered := filter(Row(oversampled, channel));
      var i := 0;
      while i < bufferSizeOversampled
        modifies oversampled
        invariant i <= bufferSizeOversampled
        invariant forall k :: 0 <= k < i ==> oversampled[channel, k] == filtered[k]
        invariant forall c, k :: 0 <= c < channels && 0 <= k < bufferSizeOversampled && (c != channel || k >= i) ==>
          oversampled[c, k] == old(oversampled[c, k])
      {
        oversampled[channel, i] := filtered[i];
        i := i + 1;
      }
      assert Row(oversampled, channel) == filtered;
      truePeakLevels[channel] := MaxAbs(Row(oversampled, channel));
      CountOverflows(channel);
    }

    /**
     * copyFromBuffer: the newest block of the ring (pre-delay `preDelay`)
     * is copied in, zero-stuffed and filtered channel by channel; each
     * level is the peak of the filtered row and each count its overflows.
     */
    method CopyFromBuffer(ring: Ring.AudioRingBuffer, preDelay: nat, filter: Filter)
      requires Valid() && ring.Valid() && KeepsLength(filter)
      requires ring.channels == channels && bufferSizeOriginal <= ring.length && preDelay <= ring.preDelay
      requires ring.audioData != original && ring.audioData != oversampled
      modifies original, oversampled, truePeakLevels, numberOfOverflows
      ensures forall c :: 0 <= c < channels ==>
        Row(original, c) == ring.Block(c, bufferSizeOriginal, preDelay)
      ensures forall c :: 0 <= c < channels ==>
        Row(oversampled, c) == filter(Stuffed(Row(original, c), OversamplingRate))
      ensures forall c :: 0 <= c < channels ==>
        truePeakLevels[c] == MaxAbs(Row(oversampled, c))
        && numberOfOverflows[c] == CountBeyond(Row(oversampled, c), OverflowThreshold)
    {
      ring.CopyToBuffer(original, 0, bufferSizeOriginal, preDelay);
      forall c | 0 <= c < channels
        ensures Row(original, c) == ring.Block(c, bufferSizeOriginal, preDelay)
      {
      }
      ZeroStuff();
      ZeroStuffedRows();
      ghost var stuffed := seq(channels, c requires 0 <= c < channels reads oversampled => Row(oversampled, c));
      FilterChannels(filter, stuffed);
    }

    /** The filter loop of copyFromBuffer. */
    method FilterChannels(filter: Filter, ghost stuffed: seq<seq<real>>)
      requires Valid() && KeepsLength(filter)
      requires |stuffed| == channels && forall c :: 0 <= c < channels ==> stuffed[c] == Row(oversampled, c)
      modifies oversampled, truePeakLevels, numberOfOverflows
      ensures forall c :: 0 <= c < channels ==> Row(oversampled, c) == filter(stuffed[c])
      ensures forall c :: 0 <= c < channels ==>
        truePeakLevels[c] == MaxAbs(Row(oversampled, c))
        && numberOfOverflows[c] == CountBeyond(Row(oversampled, c), OverflowThreshold)
    {
      var channel := 0;
      while channel < channels
        invariant channel <= channels
        invariant forall c :: 0 <= c < channels ==> Row(oversampled, c) == if c < channel then filter(stuffed[c]) else stuffed[c]
        invariant forall c :: 0 <= c < channel ==>
          truePeakLevels[c] == MaxAbs(Row(oversampled, c))
          && numberOfOverflows[c] == CountBeyond(Row(oversampled, c), OverflowThreshold)
      {
        ghost var before := seq(channels, c requires 0 <= c < channels reads oversampled => Row(oversampled, c));
        FilterSamples(channel, filter);
        forall c | 0 <= c < channels && c != channel
          ensures Row(oversampled, c) == before[c]
        {
        }
        channel := channel + 1;
      }
    }
  }
}
