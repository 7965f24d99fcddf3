/**
 * The rate converter (Source/rate_converter.cpp): an upsampler whose FFT
 * buffers are `upsamplingRate` times the original block.  Zero-stuffing
 * and the buffer clearing are modelled; the windowed-sinc kernel and the
 * convolution that follows the zero-stuffing (both in
 * Source/fftw_runner.cpp) are not part of this model.
 */
module RateConverter {
  import opened Upsampling
  import opened SampleBuffer

  /** Sample k's position in the FFT buffer: the head of block k. */
  function Head(k: int, rate: nat): int
  {
    k * rate
  }

  predicate OnHead(j: int, rate: nat)
    requires rate > 0
  {
    j % rate == 0
  }

  /** Block k's head, the next block's head, and every earlier block's head before it. */
  lemma HeadStep(k: int, n: int, rate: nat)
    requires rate > 0 && 0 <= k < n
    ensures Head(k, rate) + rate <= Head(n, rate) && Head(k, rate) + rate == Head(k + 1, rate) && OnHead(Head(k, rate), rate)
    ensures forall i :: 0 <= i < k ==> Head(i, rate) < Head(k, rate)
  {
    BlockBefore(k, n, rate);
    BlockHead(k * rate, rate, k);
    forall i | 0 <= i < k
      ensures Head(i, rate) < Head(k, rate)
    {
      BlockBefore(i, k, rate);
    }
  }

  class RateConverter {
    const upsamplingRate: nat
    const numberOfChannels: nat
    const bufferSizeOriginal: nat
    const fftBufferSize: nat
    const fftSize: nat
    const halfFftSize: nat
    const sampleBufferOriginal: array2<real>
    const fftSampleBuffer: array2<real>
    const fftOverlapAddSamples: array2<real>
    /** The relative cutoff frequency the kernel is computed for. */
    var relativeCutoffFrequency: real

    ghost predicate Valid()
      reads this
    {
      upsamplingRate > 0 && numberOfChannels > 0
      && fftBufferSize == upsamplingRate * bufferSizeOriginal
      && fftSize == 2 * fftBufferSize && halfFftSize == fftSize / 2 + 1
      && sampleBufferOriginal.Length0 == numberOfChannels && sampleBufferOriginal.Length1 == bufferSizeOriginal
      && fftSampleBuffer.Length0 == numberOfChannels && fftSampleBuffer.Length1 == fftBufferSize
      && fftOverlapAddSamples.Length0 == numberOfChannels && fftOverlapAddSamples.Length1 == fftBufferSize
      && sampleBufferOriginal != fftSampleBuffer && sampleBufferOriginal != fftOverlapAddSamples
      && fftSampleBuffer != fftOverlapAddSamples
    }

    /** All three buffers hold only zeros. */
    ghost predicate Cleared()
      reads this, sampleBufferOriginal, fftSampleBuffer, fftOverlapAddSamples
      requires Valid()
    {
      (forall c, k :: 0 <= c < numberOfChannels && 0 <= k < bufferSizeOriginal ==> sampleBufferOriginal[c, k] == 0.0)
      && (forall c, k :: 0 <= c < numberOfChannels && 0 <= k < fftBufferSize ==> fftSampleBuffer[c, k] == 0.0)
      && (forall c, k :: 0 <= c < numberOfChannels && 0 <= k < fftBufferSize ==> fftOverlapAddSamples[c, k] == 0.0)
    }

    /** The FFT buffers are `upsamplingRate` times the block; the filter kernel is computed at once. */
    constructor (rate: nat, channels: nat, bufferSize: nat)
      requires rate > 0 && channels > 0
      ensures Valid() && Cleared()
      ensures upsamplingRate == rate && numberOfChannels == channels && bufferSizeOriginal == bufferSize
      ensures fftBufferSize == rate * bufferSize && fftSize == 2 * rate * bufferSize
      ensures relativeCutoffFrequency == 0.5 / rate as real
    {
      upsamplingRate := rate;
      numberOfChannels := channels;
      bufferSizeOriginal := bufferSize;
      fftBufferSize := rate * bufferSize;
      fftSize := rate * bufferSize * 2;
      halfFftSize := rate * bufferSize * 2 / 2 + 1;
      sampleBufferOriginal := new real[channels, bufferSize];
      fftSampleBuffer := new real[channels, rate * bufferSize];
      fftOverlapAddSamples := new real[channels, rate * bufferSize];
      new;
      CalculateFilterKernel();
    }

    /** Clears the three buffers and starts the kernel at a cutoff of half the original Nyquist rate over the upsampling rate. */
    method CalculateFilterKernel()
      requires Valid()
      modifies this, sampleBufferOriginal, fftSampleBuffer, fftOverlapAddSamples
      ensures Valid() && Cleared()
      ensures relativeCutoffFrequency == 0.5 / upsamplingRate as real
    {
      Clear(sampleBufferOriginal);
      Clear(fftSampleBuffer);
      Clear(fftOverlapAddSamples);
      relativeCutoffFrequency := 0.5 / upsamplingRate as real;
    }

    /**
     * The zero-stuffing of upsample: the FFT buffer is cleared and sample
     * k of each channel is copied to sample k * upsamplingRate.
     */
    method Upsample()
      requires Valid()
      modifies fftSampleBuffer
      ensures forall c, k :: 0 <= c < numberOfChannels && 0 <= k < bufferSizeOriginal ==>
        k * upsamplingRate < fftBufferSize && fftSampleBuffer[c, k * upsamplingRate] == sampleBufferOriginal[c, k]
      ensures forall c, j :: 0 <= c < numberOfChannels && 0 <= j < fftBufferSize && j % upsamplingRate != 0 ==>
        fftSampleBuffer[c, j] == 0.0
      ensures forall c :: 0 <= c < numberOfChannels ==> Row(fftSampleBuffer, c) == Stuffed(Row(sampleBufferOriginal, c), upsamplingRate)
    {
      Clear(fftSampleBuffer);
      var channel := 0;
      while channel < numberOfChannels
        invariant channel <= numberOfChannels
        invariant forall c, k :: 0 <= c < channel && 0 <= k < bufferSizeOriginal ==>
          k * upsamplingRate < fftBufferSize && fftSampleBuffer[c, k * upsamplingRate] == sampleBufferOriginal[c, k]
        invariant forall c, j :: 0 <= c < numberOfChannels && 0 <= j < fftBufferSize && j % upsamplingRate != 0 ==>
          fftSampleBuffer[c, j] == 0.0
      {
        UpsampleChannel(channel);
        channel := channel + 1;
      }
      UpsampledRows();
    }

    /** The inner loop of upsample for one channel, with its running index into the FFT buffer. */
    method UpsampleChannel(channel: nat)
      requires Valid() && channel < numberOfChannels
      modifies fftSampleBuffer
      ensures forall k :: 0 <= k < bufferSizeOriginal ==>
        k * upsamplingRate < fftBufferSize && fftSampleBuffer[channel, k * upsamplingRate] == sampleBufferOriginal[channel, k]
      ensures forall c, j :: 0 <= c < numberOfChannels && 0 <= j < fftBufferSize && (c != channel || j % upsamplingRate != 0) ==>
        fftSampleBuffer[c, j] == old(fftSampleBuffer[c, j])
    {
      var sampleUpsampled := 0;
      var sample := 0;
      while sample < bufferSizeOriginal
        invariant sample <= bufferSizeOriginal && sampleUpsampled == Head(sample, upsamplingRate)
        invariant forall k :: 0 <= k < sample ==>
          Head(k, upsamplingRate) < fftBufferSize && fftSampleBuffer[channel, Head(k, upsamplingRate)] == sampleBufferOriginal[channel, k]
        invariant forall c, j :: 0 <= c < numberOfChannels && 0 <= j < fftBufferSize && (c != channel || !OnHead(j, upsamplingRate)) ==>
          fftSampleBuffer[c, j] == old(fftSampleBuffer[c, j])
      {
        HeadStep(sample, bufferSizeOriginal, upsamplingRate);
        fftSampleBuffer[channel, sampleUpsampled] := sampleBufferOriginal[channel, sample];
        sampleUpsampled := sampleUpsampled + upsamplingRate;
        sample := sample + 1;
      }
    }

    /** After upsample each FFT row is the zero-stuffed original row. */
    lemma UpsampledRows()
      requires Valid()
      requires forall c, k :: 0 <= c < numberOfChannels && 0 <= k < bufferSizeOriginal ==>
        k * upsamplingRate < fftBufferSize && fftSampleBuffer[c, k * upsamplingRate] == sampleBufferOriginal[c, k]
      requires forall c, j :: 0 <= c < numberOfChannels && 0 <= j < fftBufferSize && j % upsamplingRate != 0 ==>
        fftSampleBuffer[c, j] == 0.0
      ensures forall c :: 0 <= c < numberOfChannels ==> Row(fftSampleBuffer, c) == Stuffed(Row(sampleBufferOriginal, c), upsamplingRate)
    {
      forall c | 0 <= c < numberOfChannels
        ensures Row(fftSampleBuffer, c) == Stuffed(Row(sampleBufferOriginal, c), upsamplingRate)
      {
        StuffedUnique(Row(sampleBufferOriginal, c), upsamplingRate, Row(fftSampleBuffer, c));
      }
    }
  }
}
