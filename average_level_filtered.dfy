/**
 * The filtered average level (Source/average_level_filtered.cpp): the
 * block of the input ring the average meter reads, weighted either by the
 * ITU-R BS.1770 loudness filters or by a 21 kHz low-pass for RMS.  The
 * filters themselves (the biquad loops, the FFT convolution) are not part
 * of this model: the coefficient design for BS.1770 is the parameter
 * `design`, and a level is computed from the rows the filter pass leaves
 * in the sample buffer.
 */
module AverageLevelFiltered {
  import opened Numeric
  import opened SampleBuffer
  import PP = PluginParameters
  import MB = MeterBallistics
  import Ring = AudioRingBuffer

  /** Coefficients per filter and previous samples per channel that the IIR filter keeps. */
  const MaximumFilterStages: nat := 3

  /** The RMS meter's peak-to-average correction in dB, so that sine waves read alike on peak and average meters. */
  const RmsPeakToAverageCorrection: real := 2.9881

  /** The four coefficient lists of the pre-filter and the RLB weighting filter. */
  datatype Coefficients = Coefficients(preFilterInput: seq<real>, preFilterOutput: seq<real>,
                                       weightingFilterInput: seq<real>, weightingFilterOutput: seq<real>)

  predicate WellSized(k: Coefficients)
  {
    |k.preFilterInput| == MaximumFilterStages && |k.preFilterOutput| == MaximumFilterStages
    && |k.weightingFilterInput| == MaximumFilterStages && |k.weightingFilterOutput| == MaximumFilterStages
  }

  function ZeroList(): (z: seq<real>)
    ensures |z| == MaximumFilterStages && forall i :: 0 <= i < |z| ==> z[i] == 0.0
  {
    [0.0, 0.0, 0.0]
  }

  /** The coefficients after calculateFilterKernel has cleared them and added MaximumFilterStages zeros to each. */
  function ClearedCoefficients(): (k: Coefficients)
    ensures WellSized(k)
  {
    Coefficients(ZeroList(), ZeroList(), ZeroList(), ZeroList())
  }

  /** The BS.1770 coefficient design (tan, pow, sqrt of the sample rate), given as a function of the rate. */
  type Design = int -> Coefficients

  ghost predicate Designs(design: Design)
  {
    forall rate: int :: WellSized(design(rate))
  }

  /** setAlgorithm's rule: a known algorithm is taken, anything else means ITU-R BS.1770. */
  function NormalisedAlgorithm(algorithm: int): (a: int)
    ensures a == PP.AlgorithmRms || a == PP.AlgorithmItuBs1770
    ensures 0 <= algorithm < PP.NumAlgorithms ==> a == algorithm
  {
    if 0 <= algorithm < PP.NumAlgorithms then algorithm else PP.AlgorithmItuBs1770
  }

  lemma NormalisedAlgorithmIdempotent(algorithm: int)
    ensures NormalisedAlgorithm(NormalisedAlgorithm(algorithm)) == NormalisedAlgorithm(algorithm)
    ensures algorithm < 0 || algorithm >= PP.NumAlgorithms ==> NormalisedAlgorithm(algorithm) == PP.AlgorithmItuBs1770
  {
  }

  /** Channel weights from the table in Annex 1 of ITU-R BS.1770: L, R, C 1, LFE left out, Ls and Rs 1.41, others left out. */
  function Weight(channel: nat): (w: real)
    ensures w == 1.0 <==> channel < 3
    ensures w == 1.41 <==> channel == 4 || channel == 5
    ensures w == 0.0 <==> channel == 3 || channel >= 6
  {
    if channel < 3 then 1.0 else if channel == 4 || channel == 5 then 1.41 else 0.0
  }

  /** The sum of the weighted mean squares of the channels, channel 0 first. */
  function WeightedSum(meanSquares: seq<real>): real
  {
    if meanSquares == [] then 0.0
    else WeightedSum(meanSquares[..|meanSquares| - 1]) + Weight(|meanSquares| - 1) * meanSquares[|meanSquares| - 1]
  }

  /** With non-negative mean squares the weighted sum is non-negative, and 0 when every weighted channel is silent. */
  lemma {:induction false} WeightedSumNonNegative(meanSquares: seq<real>)
    requires forall c :: 0 <= c < |meanSquares| ==> meanSquares[c] >= 0.0
    ensures WeightedSum(meanSquares) >= 0.0
    ensures (forall c :: 0 <= c < |meanSquares| && Weight(c) != 0.0 ==> meanSquares[c] == 0.0) ==> WeightedSum(meanSquares) == 0.0
  {
    if meanSquares != [] {
      WeightedSumNonNegative(meanSquares[..|meanSquares| - 1]);
    }
  }

  /** The LFE channel and every channel from 6 on do not count: changing their mean square leaves the sum as it is. */
  lemma {:induction false} WeightedSumIgnores(meanSquares: seq<real>, c: nat, x: real)
    requires c < |meanSquares| && Weight(c) == 0.0
    ensures WeightedSum(meanSquares[c := x]) == WeightedSum(meanSquares)
  {
    var n := |meanSquares| - 1;
    if c < n {
      WeightedSumIgnores(meanSquares[..n], c, x);
      assert meanSquares[c := x][..n] == meanSquares[..n][c := x];
    } else {
      assert meanSquares[c := x][..n] == meanSquares[..n];
    }
  }

  /** For stereo the sum is plainly left plus right. */
  lemma WeightedSumStereo(left: real, right: real)
    ensures WeightedSum([left, right]) == left + right
  {
    assert [left, right][..1] == [left];
    assert [left][..0] == [];
    assert WeightedSum([left]) == left;
  }

  /** BS.1770 loudness -0.691 + 10 log10(sum), floored at the meter minimum; log10 of 0 is minus infinity. */
  function ItuLoudness(sum: real, log10: Log10): (l: real)
    ensures l >= MB.MeterMinimumDecibel
    ensures sum == 0.0 ==> l == MB.MeterMinimumDecibel
    ensures sum != 0.0 ==> l == Max(-0.691 + 10.0 * log10(sum), MB.MeterMinimumDecibel)
  {
    if sum == 0.0 then MB.MeterMinimumDecibel
    else
      var loudness := -0.691 + 10.0 * log10(sum);
      if loudness < MB.MeterMinimumDecibel then MB.MeterMinimumDecibel else loudness
  }

  /** Louder input never reads quieter, wherever log10 keeps the order. */
  lemma ItuLoudnessMonotone(a: real, b: real, log10: Log10)
    requires a != 0.0 && b != 0.0 && log10(a) <= log10(b)
    ensures ItuLoudness(a, log10) <= ItuLoudness(b, log10)
  {
  }

  /** The mean square of a block; C's 0 / 0 for an empty block. */
  function MeanSquare(row: seq<real>): Option<real>
  {
    if row == [] then None else Some(Dot(row, row) / |row| as real)
  }

  lemma MeanSquareNonNegative(row: seq<real>)
    requires row != []
    ensures MeanSquare(row).value >= 0.0
  {
    DotSelf(row);
  }

  class AverageLevelFiltered {
    const numberOfChannels: nat
    const bufferSize: nat
    const fftSize: nat
    const halfFftSize: nat
    var sampleRate: int
    var averageAlgorithm: int
    var peakToAverageCorrection: real
    var coefficients: Coefficients
    const previousSamplesPreFilterInput: array2<real>
    const previousSamplesPreFilterOutput: array2<real>
    const previousSamplesWeightingFilterInput: array2<real>
    const previousSamplesWeightingFilterOutput: array2<real>
    const sampleBuffer: array2<real>
    const overlapAddSamples: array2<real>
    /** The sample rate of every filter kernel computed so far, oldest first. */
    ghost var kernels: seq<int>
    /** Every algorithm reported to the processor through setAverageAlgorithmFinal. */
    ghost var reported: seq<int>

    ghost predicate Valid()
      reads this
    {
      numberOfChannels > 0 && fftSize == 2 * bufferSize && halfFftSize == fftSize / 2 + 1
      && History(previousSamplesPreFilterInput) && History(previousSamplesPreFilterOutput)
      && History(previousSamplesWeightingFilterInput) && History(previousSamplesWeightingFilterOutput)
      && sampleBuffer.Length0 == numberOfChannels && sampleBuffer.Length1 == bufferSize
      && overlapAddSamples.Length0 == numberOfChannels && overlapAddSamples.Length1 == bufferSize
      && Distinct()
    }

    ghost predicate History(a: array2<real>)
      reads this
    {
      a.Length0 == numberOfChannels && a.Length1 == MaximumFilterStages - 1
    }

    ghost predicate Distinct()
      reads this
    {
      previousSamplesPreFilterInput != previousSamplesPreFilterOutput
      && previousSamplesPreFilterInput != previousSamplesWeightingFilterInput
      && previousSamplesPreFilterInput != previousSamplesWeightingFilterOutput
      && previousSamplesPreFilterInput != sampleBuffer && previousSamplesPreFilterInput != overlapAddSamples
      && previousSamplesPreFilterOutput != previousSamplesWeightingFilterInput
      && previousSamplesPreFilterOutput != previousSamplesWeightingFilterOutput
      && previousSamplesPreFilterOutput != sampleBuffer && previousSamplesPreFilterOutput != overlapAddSamples
      && previousSamplesWeightingFilterInput != previousSamplesWeightingFilterOutput
      && previousSamplesWeightingFilterInput != sampleBuffer && previousSamplesWeightingFilterInput != overlapAddSamples
      && previousSamplesWeightingFilterOutput != sampleBuffer && previousSamplesWeightingFilterOutput != overlapAddSamples
      && sampleBuffer != overlapAddSamples
    }

    /** Filter history, sample buffer and overlap buffer hold only zeros. */
    ghost predicate Silent()
      reads this, previousSamplesPreFilterInput, previousSamplesPreFilterOutput, previousSamplesWeightingFilterInput
      reads previousSamplesWeightingFilterOutput, sampleBuffer, overlapAddSamples
    {
      Zero(previousSamplesPreFilterInput) && Zero(previousSamplesPreFilterOutput)
      && Zero(previousSamplesWeightingFilterInput) && Zero(previousSamplesWeightingFilterOutput)
      && Zero(sampleBuffer) && Zero(overlapAddSamples)
    }

    ghost predicate Zero(a: array2<real>)
      reads a
    {
      forall c, k :: 0 <= c < a.Length0 && 0 <= k < a.Length1 ==> a[c, k] == 0.0
    }

    /**
     * The constructor starts from algorithm -1 and calls setAlgorithm; for
     * any other argument than -1 that selects the normalised algorithm and
     * computes the kernel, while -1 itself is taken as "unchanged".
     */
    constructor (channels: nat, rate: int, size: nat, algorithm: int, design: Design)
      requires channels > 0 && Designs(design)
      ensures Valid() && numberOfChannels == channels && sampleRate == rate && bufferSize == size
      ensures algorithm != -1 ==> averageAlgorithm == NormalisedAlgorithm(algorithm) && Silent()
      ensures algorithm != -1 ==> kernels == [rate] && reported == [averageAlgorithm]
      ensures algorithm == -1 ==> averageAlgorithm == -1 && kernels == [] && reported == []
      ensures algorithm == -1 ==> peakToAverageCorrection == 0.0
    {
      numberOfChannels := channels;
      sampleRate := rate;
      bufferSize := size;
      fftSize := size * 2;
      halfFftSize := size * 2 / 2 + 1;
      peakToAverageCorrection := 0.0;
      coefficients := ClearedCoefficients();
      previousSamplesPreFilterInput := new real[channels, MaximumFilterStages - 1];
      previousSamplesPreFilterOutput := new real[channels, MaximumFilterStages - 1];
      previousSamplesWeightingFilterInput := new real[channels, MaximumFilterStages - 1];
      previousSamplesWeightingFilterOutput := new real[channels, MaximumFilterStages - 1];
      sampleBuffer := new real[channels, size];
      overlapAddSamples := new real[channels, size];
      averageAlgorithm := -1;
      kernels := [];
      reported := [];
      new;
      SetAlgorithm(algorithm, design);
    }

    function GetAlgorithm(): int
      reads this
    {
      averageAlgorithm
    }

    /**
     * setAlgorithm: nothing happens for the current algorithm; otherwise
     * the normalised algorithm is taken, the kernel recomputed and the new
     * algorithm reported to the processor.
     */
    method SetAlgorithm(algorithm: int, design: Design)
      requires Valid() && Designs(design)
      modifies this, previousSamplesPreFilterInput, previousSamplesPreFilterOutput, previousSamplesWeightingFilterInput
      modifies previousSamplesWeightingFilterOutput, sampleBuffer, overlapAddSamples
      ensures Valid() && sampleRate == old(sampleRate)
      ensures algorithm == old(averageAlgorithm) ==>
        averageAlgorithm == old(averageAlgorithm) && kernels == old(kernels) && reported == old(reported)
        && coefficients == old(coefficients) && peakToAverageCorrection == old(peakToAverageCorrection)
      ensures algorithm == old(averageAlgorithm) ==>
        unchanged(previousSamplesPreFilterInput, previousSamplesPreFilterOutput, previousSamplesWeightingFilterInput)
        && unchanged(previousSamplesWeightingFilterOutput, sampleBuffer, overlapAddSamples)
      ensures algorithm != old(averageAlgorithm) ==>
        averageAlgorithm == NormalisedAlgorithm(algorithm) && Silent()
        && kernels == old(kernels) + [sampleRate] && reported == old(reported) + [averageAlgorithm]
      ensures algorithm != old(averageAlgorithm) ==> Kernel(design)
    {
      if algorithm == averageAlgorithm {
        return;
      }
      if 0 <= algorithm < PP.NumAlgorithms {
        averageAlgorithm := algorithm;
      } else {
        averageAlgorithm := PP.AlgorithmItuBs1770;
      }
      CalculateFilterKernel(design);
      reported := reported + [averageAlgorithm];
    }

    /** The coefficients and the correction calculateFilterKernel leaves for the current algorithm and rate. */
    ghost predicate Kernel(design: Design)
      reads this
    {
      if averageAlgorithm == PP.AlgorithmItuBs1770 then coefficients == design(sampleRate) && peakToAverageCorrection == 0.0
      else coefficients == ClearedCoefficients() && peakToAverageCorrection == RmsPeakToAverageCorrection
    }

    /**
     * calculateFilterKernel: coefficients cleared to MaximumFilterStages
     * zeros each, history and buffers silenced; BS.1770 then designs its
     * coefficients and needs no correction, RMS corrects by 2.9881 dB.
     */
    method CalculateFilterKernel(design: Design)
      requires Valid() && Designs(design)
      modifies this, previousSamplesPreFilterInput, previousSamplesPreFilterOutput, previousSamplesWeightingFilterInput
      modifies previousSamplesWeightingFilterOutput, sampleBuffer, overlapAddSamples
      ensures Valid() && Silent() && Kernel(design) && WellSized(coefficients)
      ensures sampleRate == old(sampleRate) && averageAlgorithm == old(averageAlgorithm) && reported == old(reported)
      ensures kernels == old(kernels) + [sampleRate]
    {
      assert forall r: int :: WellSized(design(r));
      var designed := design(sampleRate);
      assert WellSized(designed);
      coefficients := ClearedCoefficients();
      ClearBuffers();
      if averageAlgorithm == PP.AlgorithmItuBs1770 {
        coefficients := designed;
        peakToAverageCorrection := 0.0;
      } else {
        peakToAverageCorrection := RmsPeakToAverageCorrection;
      }
      kernels := kernels + [sampleRate];
    }

    /** The part of calculateFilterKernel that silences filter history, sample buffer and overlap buffer. */
    method ClearBuffers()
      requires Valid()
      modifies previousSamplesPreFilterInput, previousSamplesPreFilterOutput, previousSamplesWeightingFilterInput
      modifies previousSamplesWeightingFilterOutput, sampleBuffer, overlapAddSamples
      ensures Silent()
    {
      Clear(previousSamplesPreFilterInput);
      Clear(previousSamplesPreFilterOutput);
      Clear(previousSamplesWeightingFilterInput);
      assert Zero(previousSamplesPreFilterInput) && Zero(previousSamplesPreFilterOutput);
      Clear(previousSamplesWeightingFilterOutput);
      Clear(sampleBuffer);
      Clear(overlapAddSamples);
    }

    /**
     * copyFromBuffer: the kernel is recomputed only when the sample rate
     * changed, then the newest block of the ring is copied in.
     */
    method CopyFromBuffer(ring: Ring.AudioRingBuffer, preDelay: nat, rate: int, design: Design)
      requires Valid() && Designs(design) && ring.Valid()
      requires ring.channels == numberOfChannels && bufferSize <= ring.length && preDelay <= ring.preDelay
      requires ring.audioData != sampleBuffer
      modifies this, previousSamplesPreFilterInput, previousSamplesPreFilterOutput, previousSamplesWeightingFilterInput
      modifies previousSamplesWeightingFilterOutput, sampleBuffer, overlapAddSamples
      ensures Valid() && sampleRate == rate && averageAlgorithm == old(averageAlgorithm) && reported == old(reported)
      ensures kernels == old(kernels) + (if rate != old(sampleRate) then [rate] else [])
      ensures rate == old(sampleRate) ==> coefficients == old(coefficients) && peakToAverageCorrection == old(peakToAverageCorrection)
      ensures rate != old(sampleRate) ==> Kernel(design)
      ensures forall c :: 0 <= c < numberOfChannels ==> Row(sampleBuffer, c) == ring.Block(c, bufferSize, preDelay)
    {
      if sampleRate != rate {
        sampleRate := rate;
        CalculateFilterKernel(design);
      }
      ring.CopyToBuffer(sampleBuffer, 0, bufferSize, preDelay);
      forall c | 0 <= c < numberOfChannels
        ensures Row(sampleBuffer, c) == ring.Block(c, bufferSize, preDelay)
      {
      }
    }

    /**
     * getLevel on the rows the filter pass leaves in the sample buffer.
     * BS.1770: channel 0 reports the floored loudness of the weighted
     * mean squares of all channels, every other channel the meter minimum.
     * RMS: the channel's level in dB plus the correction.  An empty block
     * gives C's 0 / 0, here None.
     */
    method GetLevel(channel: nat, filtered: seq<seq<real>>, log10: Log10, sqrt: Sqrt) returns (level: Option<real>)
      requires Valid() && channel < numberOfChannels
      requires |filtered| == numberOfChannels && forall c :: 0 <= c < numberOfChannels ==> |filtered[c]| == bufferSize
      ensures averageAlgorithm == PP.AlgorithmItuBs1770 && channel != 0 ==> level == Some(MB.MeterMinimumDecibel)
      ensures averageAlgorithm == PP.AlgorithmItuBs1770 && channel == 0 ==>
        level == if bufferSize == 0 then None else Some(ItuLoudness(WeightedSum(MeanSquares(filtered)), log10))
      ensures averageAlgorithm != PP.AlgorithmItuBs1770 ==>
        level == if bufferSize == 0 then None
                 else Some(MB.Level2Decibel(sqrt(MeanSquare(filtered[channel]).value), log10) + peakToAverageCorrection)
    {
      if averageAlgorithm == PP.AlgorithmItuBs1770 {
        if channel != 0 {
          return Some(MB.MeterMinimumDecibel);
        }
        if bufferSize == 0 {
          return None;
        }
        var sum := SumChannels(filtered);
        level := Some(ItuLoudness(sum, log10));
      } else {
        if bufferSize == 0 {
          return None;
        }
        var meanSquare := MeanSquareOf(filtered[channel]);
        level := Some(MB.Level2Decibel(sqrt(meanSquare), log10) + peakToAverageCorrection);
      }
    }

    /** The mean squares of the channels of a block, in channel order. */
    ghost function MeanSquares(rows: seq<seq<real>>): (ms: seq<real>)
      requires forall c :: 0 <= c < |rows| ==> rows[c] != []
      ensures |ms| == |rows| && forall c :: 0 <= c < |rows| ==> ms[c] == MeanSquare(rows[c]).value
    {
      seq(|rows|, c requires 0 <= c < |rows| && rows[c] != [] => MeanSquare(rows[c]).value)
    }

    /** The channel loop of getLevel: weighted sum of the channels' mean squares. */
    method SumChannels(filtered: seq<seq<real>>) returns (sum: real)
      requires Valid() && bufferSize > 0
      requires |filtered| == numberOfChannels && forall c :: 0 <= c < numberOfChannels ==> |filtered[c]| == bufferSize
      ensures sum == WeightedSum(MeanSquares(filtered))
    {
      ghost var ms := MeanSquares(filtered);
      sum := 0.0;
      var channel := 0;
      while channel < numberOfChannels
        invariant channel <= numberOfChannels
        invariant sum == WeightedSum(ms[..channel])
      {
        var meanSquare := MeanSquareOf(filtered[channel]);
        assert ms[..channel + 1][..channel] == ms[..channel];
        if channel < 3 {
          sum := sum + meanSquare;
        } else if channel == 4 {
          sum := sum + 1.41 * meanSquare;
        } else if channel == 5 {
          sum := sum + 1.41 * meanSquare;
        }
        channel := channel + 1;
      }
      assert ms[..channel] == ms;
    }

    /** Sum of squares over the block, divided by its length. */
    method MeanSquareOf(row: seq<real>) returns (meanSquare: real)
      requires row != []
      ensures meanSquare == MeanSquare(row).value
    {
      var sum := 0.0;
      var n := 0;
      while n < |row|
        invariant n <= |row|
        invariant sum == Dot(row[..n], row[..n])
      {
        assert row[..n + 1] == row[..n] + [row[n]];
        DotStep(row[..n], row[..n], row[n], row[n]);
        sum := sum + row[n] * row[n];
        n := n + 1;
      }
      assert row[..n] == row;
      meanSquare := sum / |row| as real;
    }
  }
}
