# K-Meter core in Dafny

K-Meter is an audio plug-in that meters a signal on Bob Katz's K-System
scales (K-20, K-14, K-12, and later K-23). This project models the
metering core of both of its generations: the current plug-in under
`Source/` and the original one under `src/`. The model covers:

- **Meter ballistics.** How peak, average, stereo and phase-correlation
  readings follow the signal: the peak meter falls 26 dB per 3 seconds, the
  average meter reaches 99 % of a step in 0.6 s, peak marks are held for
  10 s, and so on. It also covers the meter floor, the maximum peaks, the
  overflow counts and the ITU-R BS.1770 rule that channel 0 reports for
  all channels.
- **The audio ring buffer.** It stores the newest samples with a pre-delay,
  advances its write position modulo its size and fires a callback for
  every complete block.
- **The processors.** This covers overflow counting, the mono mixdown,
  the supported sample rates, the per-chunk peak, RMS, correlation and
  stereo-value measurements, and how those feed the ballistics.
- **The parameter stores.** This covers normalisation, marks for changed
  values, the host's [0, 1] float encoding, display texts and the XML
  round trip.
- **The meter bars and the legacy meter segments.** This covers the
  threshold ladder for each crest factor, the layout and the brightness
  and peak-marker rules.
- **The signal helpers.** These are the zero-stuffing of the true-peak
  meter and the rate converter, the filtered average level with its
  channel weights and floor, the validation player's CSV report, the skin
  lookup, the channel slider and the dynamic-range label.

Modelling conventions:

- Single-precision floats are `real`.
- The parameter indices of `Source/plugin_parameters.cpp` are reconstructed.
  The enumeration in `Source/plugin_parameters.h:71-105` belongs to an older
  revision: it lacks `selK23`, `selValidationTruePeakMeterLevel` and
  `selValidationMaximumTruePeakLevel`, and has `selSkinName`, which the
  `.cpp` never uses. The model numbers the sixteen parameters in the order
  the constructor sets them (`Source/plugin_parameters.cpp:37-54`), with the
  two true-peak switches after the maximum peak level, and counts five
  crest factors, K-23 last.
- `log10f`, `powf` and `sqrt` are function-valued parameters. A contract
  that needs a fact about one of them asks for that fact.
- JUCE `Array`s the meter updates in place are `seq` fields.
- An `AudioSampleBuffer` is an `array2` of channels by samples.
- The ring buffer's callback into the processor is recorded as an event
  in a ghost log.
- Classes whose fields the source updates in place are Dafny classes. Their
  methods are specified against pure functions of the old state, such as
  `MeterBallistics.ChannelUpdate`, `PluginParameters.SetFromInt` and
  `AudioRingBuffer.Window`, and the properties are proved about those
  functions.

The private ballistics wrappers of `Source/meter_ballistics.cpp` are
inlined where they are called:

- `AverageMeterBallistics` and `AverageMeterPeakBallistics` in
  `AverageUpdate`.
- `StereoMeterBallistics` in `SetStereoMeterValue`.
- `PhaseCorrelationMeterBallistics` in `SetPhaseCorrelation`.

`setPeakToAverageCorrection` of `Source/average_level_filtered.cpp` is
inlined in `CalculateFilterKernel`.

## Model

| member | source | states |
|---|---|---|
| ChannelSlider.NewChannelSlider | src/channel_slider.cpp:28-36 | the slider runs from -1 to the number of channels in steps of 1 and starts at -1, which shows as "All" |
| ChannelSlider.TextFromValue | src/channel_slider.cpp:57-67 | the text is "All" exactly when the value is negative |
| ChannelSlider.ValueFromText | src/channel_slider.cpp:44-54 | "All" reads as -1 |
| ChannelSlider.TextFromValueRounds | src/channel_slider.cpp:59-66 | a non-negative value shows as the channel nearest to it, counted from 1 |
| ChannelSlider.TextRoundTrip | src/channel_slider.cpp:44-67 | every channel index from -1 up reads back from its own text |
| ChannelSlider.TextsDistinct | src/channel_slider.cpp:57-67 | distinct channel indices show distinct texts |
| ChannelSlider.ZeroReadsAsAll | src/channel_slider.cpp:44-67 | reading does not invert showing: "0" reads as -1, and -1 shows as "All" |
| DynamicRangeLabel.DisplayText | src/dynamic_range_label.cpp:59-70 | the text is "none" exactly for negative values; otherwise it is "DR " followed by digits, five characters long below 100 |
| DynamicRangeLabel.DisplayTextReadsBack | src/dynamic_range_label.cpp:63-70 | the digits after "DR " read back as the value, zero padding included |
| DynamicRangeLabel.DisplayTextInjective | src/dynamic_range_label.cpp:59-70 | two values share a text only when they are equal or both negative |
| DynamicRangeLabel.Hue | src/dynamic_range_label.cpp:77-91 | the hue lies in 0 to 0.26: it is 0 up to 7 and 0.26 above 12 |
| DynamicRangeLabel.HueMonotone | src/dynamic_range_label.cpp:77-91 | a larger value never gets a hue further towards red |
| DynamicRangeLabel.Background | src/dynamic_range_label.cpp:72-91 | dark grey exactly for negative values; otherwise the hue at saturation 1 and brightness 0.8 |
| DynamicRangeLabel.TextColour | src/dynamic_range_label.cpp:72-91 | white text on the "none" label, black text otherwise |
| DynamicRangeLabel.DynamicRangeLabel.constructor | src/dynamic_range_label.cpp:28-38 | the new label holds -1 and shows "none" on dark grey in white, with a grey outline |
| DynamicRangeLabel.DynamicRangeLabel.ResetValue | src/dynamic_range_label.cpp:44-48 | the value becomes -1 while text and colours stay as they were, because setValue returns early |
| DynamicRangeLabel.DynamicRangeLabel.SetValue | src/dynamic_range_label.cpp:50-93 | an unchanged value changes nothing; a new value is stored and shown; a label that showed its value still does |
| LegacyMeterSegment.Hue | src/meter_segment.cpp:54-64 | colour 0 is red (hue 0), colour 1 is yellow, every other colour is green (0.3) |
| LegacyMeterSegment.HueMonotone | src/meter_segment.cpp:54-64 | along growing colour numbers the hue only moves from red towards green |
| LegacyMeterSegment.Brightness | src/meter_segment.cpp:117-134 | between 0.25 and 0.97: fully lit at or above the upper threshold, dark at or below the lower one, strictly in between otherwise |
| LegacyMeterSegment.BrightnessMonotone | src/meter_segment.cpp:117-134 | a higher level never makes the segment darker |
| LegacyMeterSegment.MeterSegment.constructor | src/meter_segment.cpp:29-65 | the thresholds come from threshold and range; the segment starts dark, unmarked, at -1000 dB, with the hue of its colour |
| LegacyMeterSegment.MeterSegment.SetLevels | src/meter_segment.cpp:109-149 | stores the level and recomputes brightness and peak marker; asks for a repaint exactly when one of them changed |
| LegacyProcessor.ScanStep | src/plugin_processor.cpp:409-424 | above full scale always counts, exactly full scale counts only after a sample at or above it, and the flag records whether this sample was at or above full scale |
| LegacyProcessor.Scan | src/plugin_processor.cpp:401-427 | never more overflows than samples; the flag carried out is that of the last sample, or the one carried in |
| LegacyProcessor.ScanCountsOverflows | src/plugin_processor.cpp:401-427 | the flag-carrying scan counts exactly the samples that are beyond full scale or at full scale right after one at or beyond it |
| LegacyProcessor.ScanSplits | src/plugin_processor.cpp:401-427 | two calls that thread the flag count what one call over both runs counts |
| LegacyProcessor.CountContiguousOverflows | src/plugin_processor.cpp:401-427 | the loop returns the scan's count and flag for the buffer's samples |
| LegacyProcessor.AdvanceRingPosition | src/plugin_processor.cpp:285-296 | the ring position advances by the block length modulo 1024, and the number of full rings is the count of times it reaches 1023 |
| LegacyProcessor.RingsPerBlock | src/plugin_processor.cpp:285-296 | a block no longer than the ring completes at most one ring, and a block of exactly 1024 samples completes one |
| LegacyProcessor.RingCorrelation | src/plugin_processor.cpp:317-358 | +1 for mono, a single channel or two averages below -80 dB; otherwise the normalised sum of products, undefined exactly when a channel has no energy |
| LegacyProcessor.RightReadings | src/plugin_processor.cpp:317-357 | a true stereo input keeps its right readings; mono or a single channel copies the left ones |
| RateConverter.HeadStep | Source/rate_converter.cpp:68-77 | the running index of upsample's inner loop is the head of block k: heads rise by the rate, and every head lies inside the oversampled buffer |
| RateConverter.RateConverter.constructor | Source/rate_converter.cpp:29-41 | the FFT buffers are rate times the block and the FFT is twice that; every buffer is cleared and the kernel is computed for cutoff 0.5 / rate |
| RateConverter.RateConverter.CalculateFilterKernel | Source/rate_converter.cpp:44-57 | all three buffers are zero afterwards, and the relative cutoff frequency is 0.5 over the upsampling rate |
| RateConverter.RateConverter.Upsample | Source/rate_converter.cpp:60-78 | sample k of every channel lands at k times the rate, every other sample is zero, and each row is the zero-stuffed original row |
| RateConverter.RateConverter.UpsampleChannel | Source/rate_converter.cpp:66-77 | one channel's samples land on the block heads and nothing else in the buffer changes |
| RateConverter.RateConverter.UpsampledRows | Source/rate_converter.cpp:60-78 | samples on the block heads and zeros elsewhere make each row equal to the zero-stuffed original |
| Upsampling.Zeros | Source/true_peak_meter.cpp:288 | a run of n zero samples |
| Upsampling.StuffedSamples | Source/true_peak_meter.cpp:286-298 | the zero-stuffed signal is rate times longer, holds sample k at k times the rate, and is zero everywhere else |
| Upsampling.StuffedUnique | Source/true_peak_meter.cpp:286-298 | any row with the original samples on the block heads and zeros elsewhere is the zero-stuffed signal |
| Upsampling.StuffingKeepsPeaks | Source/true_peak_meter.cpp:223-259 | before the filter runs, zero-stuffing changes neither the largest magnitude nor the number of samples beyond a non-negative threshold |
| TruePeakMeter.TruePeakMeter.constructor | Source/true_peak_meter.cpp:28-79 | the oversampled buffer is 8 times the block and the FFT is 16 times the block; both buffers are cleared and every level and count is 0 |
| TruePeakMeter.TruePeakMeter.CalculateFilterKernel | Source/true_peak_meter.cpp:123-130 | every true-peak level and overflow count is reset to 0 |
| TruePeakMeter.TruePeakMeter.CountOverflows | Source/true_peak_meter.cpp:231-260 | the channel's count is the number of oversampled samples beyond ±0.9807, at most the buffer length; other channels' counts stay |
| TruePeakMeter.TruePeakMeter.ZeroStuff | Source/true_peak_meter.cpp:286-298 | after clearing, sample k of every channel lands at 8k and everything else is zero |
| TruePeakMeter.TruePeakMeter.ZeroStuffedRows | Source/true_peak_meter.cpp:286-298 | the oversampled rows are then the zero-stuffed original rows |
| TruePeakMeter.TruePeakMeter.FilterSamples | Source/true_peak_meter.cpp:178-228 | the channel's row becomes the filtered row; its level is the row's largest magnitude and its count is the row's overflows; other channels stay |
| TruePeakMeter.TruePeakMeter.CopyFromBuffer | Source/true_peak_meter.cpp:281-305 | the original rows are the ring's newest block at the given pre-delay, each oversampled row is the filtered zero-stuffed row, and each level and count is read from that row |
| TruePeakMeter.TruePeakMeter.FilterChannels | Source/true_peak_meter.cpp:300-304 | every channel's row is filtered once, and its level and count are taken from the filtered row |
| AudioRingBuffer.Slot | src/audio_ring_buffer.cpp:76-82 | the storage slot getSample reads lies inside the storage, and stepping `back` samples forward from it lands on the current position |
| AudioRingBuffer.Distance | src/audio_ring_buffer.cpp:122-123 | how far a slot lies after a starting position, counted around the ring: always less than the ring's length |
| AudioRingBuffer.AudioRingBuffer.constructor | src/audio_ring_buffer.cpp:28-50 | the storage holds length plus pre-delay samples per channel, all zero; position and block counter start at 0 and no callback is set |
| AudioRingBuffer.AudioRingBuffer.Clear | src/audio_ring_buffer.cpp:60-67 | every stored sample becomes zero and the position rewinds to 0; the block counter is left as it is |
| AudioRingBuffer.AudioRingBuffer.SetCallbackClass | src/audio_ring_buffer.cpp:208-211 | a processor is registered; positions and the callback log are unchanged |
| AudioRingBuffer.AudioRingBuffer.ClearCallbackClass | src/audio_ring_buffer.cpp:214-217 | no processor is registered afterwards; positions and the callback log are unchanged |
| AudioRingBuffer.AudioRingBuffer.TriggerFullBuffer | src/audio_ring_buffer.cpp:220-224 | the callback fires (is appended to the log) exactly when a processor is registered |
| AudioRingBuffer.AudioRingBuffer.WriteChunk | src/audio_ring_buffer.cpp:111-114 | one chunk of every channel lands in the slots from the current position on; all other slots keep their samples |
| AudioRingBuffer.AudioRingBuffer.AddChunk | src/audio_ring_buffer.cpp:100-134 | one pass copies at least one sample and no more than are left; both counters advance by it, and the callback fires once when the block completes |
| AudioRingBuffer.AudioRingBuffer.AddSamples | src/audio_ring_buffer.cpp:88-137 | the position advances by the sample count modulo the storage; the block counter advances modulo the block length; the callback fires once per completed block; the return value is the samples since the last callback; each written slot holds the matching source sample and the other slots keep theirs |
| AudioRingBuffer.AudioRingBuffer.ReadChunk | src/audio_ring_buffer.cpp:164-167 | one chunk of every channel is read from consecutive slots into the destination; nothing else in the destination changes |
| AudioRingBuffer.AudioRingBuffer.CopyWindowChunk | src/audio_ring_buffer.cpp:157-174 | after a pass, every sample copied so far is the one getSample names for its position in the window |
| AudioRingBuffer.AudioRingBuffer.CopyToBuffer | src/audio_ring_buffer.cpp:140-175 | the destination receives the newest samples of every channel, up to the pre-delay back and oldest first; the rest of the destination is unchanged |
| AudioRingBuffer.AudioRingBuffer.Window | src/audio_ring_buffer.cpp:182-184 | the window getMagnitude and getRMSLevel scan: sample i is getSample(channel, i, pre-delay) |
| AudioRingBuffer.AudioRingBuffer.Windows | src/audio_ring_buffer.cpp:182-184 | the windows of every channel, in channel order |
| AudioRingBuffer.AudioRingBuffer.Block | src/audio_ring_buffer.cpp:153-174 | what copyToBuffer hands over: sample k is the one numSamples - k samples back |
| AudioRingBuffer.AudioRingBuffer.GetMagnitude | src/audio_ring_buffer.cpp:178-191 | the result is the largest absolute value in the window, or 0 for an empty window |
| AudioRingBuffer.AudioRingBuffer.GetRmsLevel | src/audio_ring_buffer.cpp:194-205 | the result is the root of the mean square of the window; it is undefined exactly for an empty window, where the source divides 0 by 0 |
| AverageLevelFiltered.ClearedCoefficients | Source/average_level_filtered.cpp:149-163 | each of the four coefficient lists is cleared and then holds three zeros |
| AverageLevelFiltered.NormalisedAlgorithm | Source/average_level_filtered.cpp:133-140 | the algorithm is always RMS or ITU-R BS.1770; a known one is kept as it is |
| AverageLevelFiltered.NormalisedAlgorithmIdempotent | Source/average_level_filtered.cpp:133-140 | normalising twice is normalising once, and every unknown algorithm falls back to ITU-R BS.1770 |
| AverageLevelFiltered.Weight | Source/average_level_filtered.cpp:520-537 | weight 1 for L, R and C, 1.41 for Ls and Rs, and 0 for LFE and every channel from 6 on |
| AverageLevelFiltered.WeightedSumNonNegative | Source/average_level_filtered.cpp:507-538 | the weighted sum of non-negative mean squares is non-negative, and 0 when every weighted channel is silent |
| AverageLevelFiltered.WeightedSumIgnores | Source/average_level_filtered.cpp:526-537 | the LFE channel and channels from 6 on do not affect the weighted sum |
| AverageLevelFiltered.WeightedSumStereo | Source/average_level_filtered.cpp:526-529 | for stereo the weighted sum is left plus right |
| AverageLevelFiltered.ItuLoudness | Source/average_level_filtered.cpp:547-552 | the loudness is never below the meter minimum; it is -0.691 + 10 log10(sum) floored there, and the minimum for silence, where log10 is minus infinity |
| AverageLevelFiltered.ItuLoudnessMonotone | Source/average_level_filtered.cpp:547-552 | louder input never reads quieter, wherever log10 keeps the order |
| AverageLevelFiltered.MeanSquareNonNegative | Source/average_level_filtered.cpp:512-518 | the mean square of a non-empty block is non-negative |
| AverageLevelFiltered.AverageLevelFiltered.constructor | Source/average_level_filtered.cpp:28-90 | the FFT is twice the block; starting from algorithm -1, setAlgorithm picks the normalised algorithm, computes the kernel once and reports it; -1 itself is taken as unchanged |
| AverageLevelFiltered.AverageLevelFiltered.SetAlgorithm | Source/average_level_filtered.cpp:124-144 | the current algorithm changes nothing; any other one is normalised, the kernel is recomputed at the current rate, and the new algorithm is reported to the processor |
| AverageLevelFiltered.AverageLevelFiltered.CalculateFilterKernel | Source/average_level_filtered.cpp:147-194 | history and buffers are silent afterwards; BS.1770 takes the designed coefficients without correction, RMS keeps zero coefficients and a +2.9881 dB correction |
| AverageLevelFiltered.AverageLevelFiltered.ClearBuffers | Source/average_level_filtered.cpp:165-173 | filter history, sample buffer and overlap buffer hold only zeros |
| AverageLevelFiltered.AverageLevelFiltered.CopyFromBuffer | Source/average_level_filtered.cpp:571-582 | the kernel is recomputed exactly when the sample rate changed; each row of the sample buffer is then the ring's newest block |
| AverageLevelFiltered.AverageLevelFiltered.GetLevel | Source/average_level_filtered.cpp:490-568 | BS.1770: channel 0 reports the floored loudness of the weighted mean squares and every other channel the meter minimum; RMS: the channel's level in dB plus the correction; an empty block is undefined |
| AverageLevelFiltered.AverageLevelFiltered.MeanSquares | Source/average_level_filtered.cpp:507-518 | the mean square of every channel of the block, in channel order |
| AverageLevelFiltered.AverageLevelFiltered.SumChannels | Source/average_level_filtered.cpp:507-538 | the channel loop adds up exactly the weighted mean squares |
| AverageLevelFiltered.AverageLevelFiltered.MeanSquareOf | Source/average_level_filtered.cpp:512-518 | the loop's sum of squares divided by the length is the block's mean square |
| MeterBallistics.Level2Decibel | Source/meter_ballistics.cpp:570-602 | a zero level reads as the meters' floor; any other level reads as 20 log10 of it, never below the floor |
| MeterBallistics.DecibelRoundTrip | Source/meter_ballistics.cpp:570-618 | a level above the floor comes back unchanged from decibels when pow inverts log10 there |
| MeterBallistics.Level2DecibelMonotonic | Source/meter_ballistics.cpp:570-602 | louder levels never read fewer decibels, wherever log10 is monotonic |
| MeterBallistics.PeakMeterBallistics | Source/meter_ballistics.cpp:627-666 | a rising peak is shown at once; a falling one drops by 26/3 dB per second but never below the current peak |
| MeterBallistics.PeakMeterBallisticsBounds | Source/meter_ballistics.cpp:627-666 | the new reading lies between the release-limited previous reading and the larger of previous reading and current peak |
| MeterBallistics.ClampToFullScale | Source/meter_ballistics.cpp:686-691 | peaks are limited to 0 dBFS before they move a peak mark |
| MeterBallistics.PeakMeterPeakBallistics | Source/meter_ballistics.cpp:669-748 | a mark that is reached or exceeded jumps to the clamped peak and restarts its hold timer (unless infinite hold); otherwise it is held for 10 s and then falls like the peak meter |
| MeterBallistics.PeakMarkBounds | Source/meter_ballistics.cpp:669-748 | the mark never drops below the clamped current peak and never exceeds the larger of the old mark and that peak |
| MeterBallistics.PeakMarkAtMostFullScale | Source/meter_ballistics.cpp:669-748 | a mark at or below 0 dBFS stays at or below 0 dBFS |
| MeterBallistics.InfiniteHoldNeverFalls | Source/meter_ballistics.cpp:669-748 | with a negative hold timer the mark only rises and the timer is left alone |
| MeterBallistics.MarkHeldDuringHoldTime | Source/meter_ballistics.cpp:669-748 | in falling-peaks mode a mark that has not been exceeded for less than the hold time stays where it is |
| MeterBallistics.LogMeterBallistics | Source/meter_ballistics.cpp:824-852 | the readout moves toward the level by the factor 0.01^(time/inertia) of the remaining distance, and not at all when it already equals the level |
| MeterBallistics.LogMeterBetween | Source/meter_ballistics.cpp:824-852 | with a coefficient in [0, 1] the new readout lies between the old readout and the level, so it never overshoots |
| MeterBallistics.LogMeterInertia | Source/meter_ballistics.cpp:824-852 | after exactly the inertia time 99 % of the step has been covered |
| MeterBallistics.HoldTimer | Source/meter_ballistics.cpp:128-181 | the hold timer is negative exactly when infinite hold is selected |
| MeterBallistics.Reset | Source/meter_ballistics.cpp:82-111 | every level, mark and maximum returns to the floor and every overflow count to 0, with correlation +1 and a centred stereo reading; hold timers and algorithm stay |
| MeterBallistics.Initial | Source/meter_ballistics.cpp:40-70 | a new meter has every channel at the floor, no overflows, and the hold timers chosen by the hold flags |
| MeterBallistics.PeakUpdate | Source/meter_ballistics.cpp:548-558 | the peak half of updateChannel changes only the channel's maximum, peak reading and peak mark |
| MeterBallistics.AverageUpdate | Source/meter_ballistics.cpp:751-787 | the average half of updateChannel changes only the channel's average reading and its mark, with 0.6 s inertia |
| MeterBallistics.ChannelUpdate | Source/meter_ballistics.cpp:519-567 | updateChannel converts the peak to decibels, raises the maximum, applies both ballistics, adds the overflows, and leaves every other channel as it was |
| MeterBallistics.ChannelUpdateInSteps | Source/meter_ballistics.cpp:548-566 | updateChannel is its peak half, then its average half, then the overflow count |
| MeterBallistics.UpdateAll | Source/plugin_processor.cpp:536-540 | a run of updateChannel calls keeps the meter consistent and its channel count |
| MeterBallistics.UpdateAllStep | Source/plugin_processor.cpp:536-540 | running one more update extends the run by exactly that updateChannel call |
| MeterBallistics.UpdateAllPrefixStep | Source/plugin_processor.cpp:536-540 | the first k + 1 updates are the first k followed by update k |
| MeterBallistics.OnePassPerChannel | Source/plugin_processor.cpp:536-540 | one pass over the channels touches each channel exactly once, with that channel's own peak and overflows |
| MeterBallistics.UpdateAllAccumulates | Source/meter_ballistics.cpp:548-566 | after any run of updates a channel's maximum is the largest of its old maximum and its decibel peaks, and its overflow count is the old count plus all its overflows |
| MeterBallistics.MeterBallistics.State | Source/meter_ballistics.cpp:40-70 | the object's arrays read as a meter with as many channels as the object has |
| MeterBallistics.MeterBallistics.constructor | Source/meter_ballistics.cpp:40-70 | the constructor builds the initial meter for the channels, algorithm and hold modes |
| MeterBallistics.MeterBallistics.ResetReadings | Source/meter_ballistics.cpp:82-111 | reset leaves the meter in the Reset state of the old one |
| MeterBallistics.MeterBallistics.SetAverageAlgorithm | Source/meter_ballistics.cpp:114-125 | only the algorithm changes |
| MeterBallistics.MeterBallistics.SetPeakMeterInfiniteHold | Source/meter_ballistics.cpp:128-153 | every peak-meter hold timer is set to the timer of the chosen mode; nothing else changes |
| MeterBallistics.MeterBallistics.SetAverageMeterInfiniteHold | Source/meter_ballistics.cpp:156-181 | every average-meter hold timer is set to the timer of the chosen mode; nothing else changes |
| MeterBallistics.MeterBallistics.MaximumFromFloor | Source/meter_ballistics.cpp:205-228 | the loop finds the largest channel value, starting from the floor |
| MeterBallistics.MeterBallistics.GetPeakMeterLevel | Source/meter_ballistics.cpp:195-235 | in ITU-R BS.1770 mode channel 0 shows the loudest peak reading of all channels and the others the floor; otherwise the channel's own reading |
| MeterBallistics.MeterBallistics.GetPeakMeterPeakLevel | Source/meter_ballistics.cpp:238-280 | the same single-meter rule for the peak marks |
| MeterBallistics.MeterBallistics.GetMaximumPeakLevel | Source/meter_ballistics.cpp:350-390 | the same single-meter rule for the overall maxima |
| MeterBallistics.MeterBallistics.GetAverageMeterLevel | Source/meter_ballistics.cpp:283-313 | in ITU-R BS.1770 mode only channel 0 shows its average reading and the others the floor |
| MeterBallistics.MeterBallistics.GetAverageMeterPeakLevel | Source/meter_ballistics.cpp:316-347 | the same rule for the average peak marks |
| MeterBallistics.MeterBallistics.GetNumberOfOverflows | Source/meter_ballistics.cpp:393-433 | in ITU-R BS.1770 mode channel 0 reports the overflows of all channels and the others none; otherwise the channel's own count |
| MeterBallistics.MeterBallistics.GetStereoMeterValue | Source/meter_ballistics.cpp:436-453 | a stereo pair reports its stereo reading; any other layout reads centred (0) |
| MeterBallistics.MeterBallistics.SetStereoMeterValue | Source/meter_ballistics.cpp:456-474 | only the stereo reading moves, with 1.2 s logarithmic inertia |
| MeterBallistics.MeterBallistics.GetPhaseCorrelation | Source/meter_ballistics.cpp:477-495 | a stereo pair reports its correlation; any other layout reads +1 |
| MeterBallistics.MeterBallistics.SetPhaseCorrelation | Source/meter_ballistics.cpp:498-516 | only the correlation moves, with 1.2 s logarithmic inertia |
| MeterBallistics.MeterBallistics.UpdateChannel | Source/meter_ballistics.cpp:519-567 | the new state is ChannelUpdate of the old one, and the object stays valid |
| MeterBallistics.MeterBallistics.UpdatePeakReadings | Source/meter_ballistics.cpp:548-558 | the new state is PeakUpdate of the old one |
| MeterBallistics.MeterBallistics.UpdateAverageReadings | Source/meter_ballistics.cpp:560-563 | the new state is AverageUpdate of the old one |
| LegacyMeterBallistics.MinimumDecibel | src/meter_ballistics.cpp:31-38 | the floor lies at least 70 dB below the K-20 headroom once the average correction is non-negative |
| LegacyMeterBallistics.Level2Decibel | src/meter_ballistics.cpp:271-283 | a zero level reads as the floor; any other level reads as 20 log10 of it, never below the floor |
| LegacyMeterBallistics.PeakMeterBallistics | src/meter_ballistics.cpp:286-295 | a rising level is shown at once; otherwise the reading drops by 26 / (3 timeFrame) dB per update |
| LegacyMeterBallistics.PeakMeterFallsBelowCurrentLevel | src/meter_ballistics.cpp:286-295 | unlike the current meter, a falling reading can drop below the level it is falling toward |
| LegacyMeterBallistics.Approach | src/meter_ballistics.cpp:303-309 | the logarithmic step keeps the fraction c of the distance to the target and stays put on the target |
| LegacyMeterBallistics.ApproachBetween | src/meter_ballistics.cpp:303-309 | with c in [0, 1] the step ends between the old readout and the target |
| LegacyMeterBallistics.AverageMeterBallistics | src/meter_ballistics.cpp:298-312 | an unchanged level leaves the average reading where it was |
| LegacyMeterBallistics.AverageMeterBetween | src/meter_ballistics.cpp:298-312 | the average reading, computed on levels normalised by the negative floor, ends between the old reading and the current level |
| LegacyMeterBallistics.StereoMeterBallistics | src/meter_ballistics.cpp:315-335 | the stereo and correlation readings keep pow(0.01, 1 / (1.2 timeFrame)) of the distance to the new value |
| LegacyMeterBallistics.StereoMeterBetween | src/meter_ballistics.cpp:315-335 | with that coefficient in [0, 1] the reading ends between the old reading and the new value |
| LegacyMeterBallistics.PeakMeterPeakBallistics | src/meter_ballistics.cpp:338-377 | a reached mark follows the clamped level and restarts a non-negative timer; otherwise the timer advances by 1 / timeFrame and the mark drops by 26 / (3 timeFrame) dB only once the timer exceeds 10 s |
| LegacyMeterBallistics.InfiniteHoldNeverDecays | src/meter_ballistics.cpp:338-371 | a negative timer never changes and the mark never falls |
| LegacyMeterBallistics.PeakMarkBounds | src/meter_ballistics.cpp:338-371 | a mark at or below 0 dB stays there, and a timer of exactly 10 s still holds the mark |
| LegacyMeterBallistics.RawStereoValue | src/meter_ballistics.cpp:214-220 | both averages below 0.0001 give a centred value |
| LegacyMeterBallistics.RawStereoValueBounds | src/meter_ballistics.cpp:214-220 | for non-negative averages the raw value lies in [-1, 1] and leans right exactly when the right average is at least the left |
| LegacyMeterBallistics.Reset | src/meter_ballistics.cpp:77-93 | peak readings and maxima go to the floor, average readings to the floor plus the correction, overflows to 0, correlation to +1 and the stereo reading to centre; hold timers stay |
| LegacyMeterBallistics.ChannelUpdate | src/meter_ballistics.cpp:248-261 | updateChannel raises the maximum, applies peak and average ballistics (average in decibels plus the correction), moves both marks, adds the overflows and touches no other channel |
| LegacyMeterBallistics.LegacyMeterBallistics.constructor | src/meter_ballistics.cpp:29-58 | the new meter has the correction 20 log10(sqrt 2), the K-20 floor, every reading reset and every hold timer set from the hold flags |
| LegacyMeterBallistics.LegacyMeterBallistics.ResetReadings | src/meter_ballistics.cpp:77-93 | the readings become Reset of the old readings, in the same arrays |
| LegacyMeterBallistics.LegacyMeterBallistics.SetPeakHold | src/meter_ballistics.cpp:96-105 | every peak-meter timer becomes -1 for hold and 0 otherwise |
| LegacyMeterBallistics.LegacyMeterBallistics.SetAverageHold | src/meter_ballistics.cpp:108-117 | every average-meter timer becomes -1 for hold and 0 otherwise |
| LegacyMeterBallistics.LegacyMeterBallistics.UpdateStereoMeter | src/meter_ballistics.cpp:210-223 | the stereo reading moves toward the raw stereo value of the two averages; the correlation stays |
| LegacyMeterBallistics.LegacyMeterBallistics.UpdateCorrelation | src/meter_ballistics.cpp:226-229 | the correlation reading moves toward the new correlation; the stereo reading stays |
| LegacyMeterBallistics.LegacyMeterBallistics.UpdateChannel | src/meter_ballistics.cpp:232-268 | the readings become ChannelUpdate of the old readings |
| Processor.ChangedValue | Source/plugin_processor.cpp:189-201 | the Mono switch is forced on for fewer than two inputs and off for more than two; every other parameter, and Mono on a stereo input, passes unchanged |
| Processor.MonoForcedByLayout | Source/plugin_processor.cpp:189-213 | whatever the caller asks, on a non-stereo layout the host reads back the Mono switch that layout fixes |
| Processor.SampleRateIsValid | Source/plugin_processor.cpp:340-349 | a sample rate is accepted exactly when it lies in [44100, 192000] |
| Processor.CountOverflows | Source/plugin_processor.cpp:671-695 | the count is the number of window samples below -0.9999 or above 0.9999, and never exceeds the window length |
| Processor.MonoSample | Source/plugin_processor.cpp:484-485 | the mixdown sample is the mean of the pair: equal to both when they agree, otherwise between them |
| Processor.MixDownToMono | Source/plugin_processor.cpp:477-487 | both stereo channels hold the mean of the original pair at every processed index; the rest of the buffer is unchanged. The legacy processBlock's mix-down (src/plugin_processor.cpp:207-218) is the same loop over the whole block |
| Processor.ClearChannels | Source/plugin_processor.cpp:433-467 | the chosen channels are zero over the processed samples and everything else is unchanged |
| Processor.StereoMeterValue | Source/plugin_processor.cpp:588-602 | two RMS levels below -80 dB give a centred stereo value |
| Processor.StereoMeterValueIsLegacyValue | Source/plugin_processor.cpp:588-602 | the current stereo value equals the legacy updateStereoMeter value for all levels |
| Processor.StereoMeterValueBounds | Source/plugin_processor.cpp:588-602 | for RMS levels the value lies in [-1, 1] and, unless both are silent, is non-negative exactly when the right level is at least the left |
| Processor.StereoMeterValueOfEqualLevels | Source/plugin_processor.cpp:588-602 | equal levels, as the mono mixdown produces, read centred |
| Processor.Correlation | Source/plugin_processor.cpp:542-584 | the phase correlation falls back to +1 in mono mode, when both levels are below -80 dB, and when the product of the channel energies is not positive |
| Processor.CorrelationWithSilentChannel | Source/plugin_processor.cpp:570-583 | a channel without energy reads full correlation |
| Processor.CorrelationOfIdenticalChannels | Source/plugin_processor.cpp:553-577 | two identical channels read +1 |
| Processor.CorrelationFromSums | Source/plugin_processor.cpp:555-583 | the loop's three sums determine the correlation: their quotient when the energy product is positive, +1 otherwise |
| Processor.SumProducts | Source/plugin_processor.cpp:555-568 | the loop accumulates the cross product and both sums of squares over the chunk's delayed windows of channels 0 and 1 |
| Processor.MeasureCorrelation | Source/plugin_processor.cpp:545-584 | the computed correlation is Correlation of the chunk's delayed windows |
| Processor.Measurement | Source/plugin_processor.cpp:520-535 | a channel's measurements carry the chunk time and the filtered average, with an overflow count between 0 and the window length |
| Processor.MeasurementOfWindow | Source/plugin_processor.cpp:520-535 | the peak is the largest absolute sample of the window and the overflow count is the number of samples beyond the threshold |
| Processor.ChannelInput | Source/plugin_processor.cpp:511-535 | in mono mode channel 1 is given channel 0's peak, RMS, average and overflows; every other channel its own window's |
| Processor.ChunkUpdates | Source/plugin_processor.cpp:511-540 | the channel loop makes one updateChannel call per channel, in channel order, all with the chunk's time |
| Processor.ChunkMeter | Source/plugin_processor.cpp:511-605 | the meter after a chunk stays consistent and keeps its channel count |
| Processor.ChunkMeterAccumulates | Source/plugin_processor.cpp:511-540 | after a chunk each channel's overflow count has grown by exactly its window's overflows, and its maximum is the larger of the old maximum and the chunk peak in decibels |
| Processor.ChunkMeterKeepsChannels | Source/plugin_processor.cpp:542-605 | the stereo readings set after the channel loop leave every per-channel reading as the loop left it |
| Processor.MonoChunkReadsCentred | Source/plugin_processor.cpp:545-604 | a stereo pair mixed down to mono feeds the meter a correlation of +1 and a centred stereo value |
| Processor.KmeterAudioProcessor.constructor | Source/plugin_processor.cpp:351-384 | prepareToPlay makes a fresh meter for the inputs, zeroed level arrays, averages at the floor, and two rings of at least 1024 samples with only the input ring reporting full chunks |
| Processor.KmeterAudioProcessor.NewRings | Source/plugin_processor.cpp:375-383 | the two rings have the same channels, size and 1024-sample pre-delay; only the input ring has the callback |
| Processor.KmeterAudioProcessor.ChunkWindows | Source/plugin_processor.cpp:500-534 | a chunk is measured over windows of its length, half a chunk back |
| Processor.KmeterAudioProcessor.MeasureChannel | Source/plugin_processor.cpp:513-535 | the level arrays gain this channel's measurements and keep those of the channels before it; the meter is untouched |
| Processor.KmeterAudioProcessor.Store | Source/plugin_processor.cpp:515-534 | the four level arrays hold the measurements at the channel's index and are unchanged elsewhere |
| Processor.KmeterAudioProcessor.Measure | Source/plugin_processor.cpp:522-534 | the measurements are those of the channel's delayed window |
| Processor.KmeterAudioProcessor.MeasureChannels | Source/plugin_processor.cpp:511-540 | the channel loop leaves the meter as the run of its updateChannel calls and the level arrays holding every channel's measurements |
| Processor.KmeterAudioProcessor.MeterChannel | Source/plugin_processor.cpp:511-540 | one pass of the loop extends the meter's run of updates by this channel's call |
| Processor.KmeterAudioProcessor.UpdateMeterChannel | Source/plugin_processor.cpp:539 | the meter has seen one more updateChannel call, with the stored levels |
| Processor.KmeterAudioProcessor.UpdateStereoReadings | Source/plugin_processor.cpp:542-605 | only a stereo input moves the correlation and the stereo value; any other layout leaves the meter unchanged |
| Processor.KmeterAudioProcessor.ForwardChunk | Source/plugin_processor.cpp:617-622 | the chunk moves from the input ring to the output ring, undelayed, advancing the output position by its length |
| Processor.KmeterAudioProcessor.ProcessBufferChunk | Source/plugin_processor.cpp:498-623 | the chunk time is its length over the sample rate, the meter becomes ChunkMeter of the old meter, and the chunk reaches the output ring |
| Processor.KmeterAudioProcessor.MeterChunkAt | Source/plugin_processor.cpp:503-605 | the chunk time is set, then the meter becomes ChunkMeter of the old meter |
| Processor.KmeterAudioProcessor.MeterChunk | Source/plugin_processor.cpp:511-605 | the channel loop and the stereo readings together give ChunkMeter of the old meter |
| Processor.KmeterAudioProcessor.PrepareBlock | Source/plugin_processor.cpp:460-487 | output channels beyond the inputs are cleared and a stereo input in mono mode carries the pair's mean on both channels |
| Processor.KmeterAudioProcessor.ProcessBlock | Source/plugin_processor.cpp:428-495 | the prepared block enters the input ring, whose fill level advances modulo its length and whose callback queue grows by one entry per completed ring; nSamplesInBuffer advances modulo 1024, and the block is replaced by the output ring's samples 1024 samples back |
| PluginParameters.NormalisedValue | Source/plugin_parameters.cpp:130-150 | the crest factor is stored as one of 0, 12, 14, 20, 23 (anything else as 20), the selected channel verbatim, every other parameter as 0 or 1 (1 exactly for a non-zero value) |
| PluginParameters.NormalisedValueIsNormalised | Source/plugin_parameters.cpp:130-150 | the stored value is always normalised, and normalising a normalised value keeps it |
| PluginParameters.DefaultStore | Source/plugin_parameters.cpp:32-64 | a new store holds crest factor 20, the ITU-R BS.1770 algorithm, channel -1, every validation report switched on, CSV off, the display switches off, nothing marked and no validation file |
| PluginParameters.SetFromInt | Source/plugin_parameters.cpp:126-157 | setting the stored value changes nothing; any other value stores its normalised form and marks the parameter, even when the normalised form equals the old value; other parameters are untouched |
| PluginParameters.SetFromIntKeepsNormalised | Source/plugin_parameters.cpp:126-157 | a store of normalised values stays normalised after any set |
| PluginParameters.NormalisingSetStillMarks | Source/plugin_parameters.cpp:130-152 | setting crest factor 7 while 20 is stored keeps the values but marks the crest factor |
| PluginParameters.TranslateParameterToFloat | Source/plugin_parameters.cpp:352-396 | the crest factor maps into [0, 1], the algorithm verbatim, the selected channel n to (n + 1) / 100, switches to 0 or 1 |
| PluginParameters.TranslateParameterToInt | Source/plugin_parameters.cpp:399-445 | floats map back to a known crest factor, to the rounded algorithm, to int(100 f + 0.5) - 1 for the channel, and to 1 exactly above 0.5 for switches |
| PluginParameters.CrestFactorFloatIncreasing | Source/plugin_parameters.cpp:356-378 | larger crest factors sit higher on the host's float scale |
| PluginParameters.TranslateRoundTrip | Source/plugin_parameters.cpp:352-445 | int to float to int is the identity for crest factors, non-negative algorithms, channels from -1 and switch values 0 and 1 |
| PluginParameters.UnknownCrestFactorTranslatesAsK23 | Source/plugin_parameters.cpp:134-140 | an unknown crest factor reaches the host as K-23 but is stored as K-20 |
| PluginParameters.ParameterName | Source/plugin_parameters.cpp:208-280 | every index in the table has its own name and only indices outside it read "invalid" |
| PluginParameters.CrestFactorText | Source/plugin_parameters.cpp:287-309 | the crest factor reads Normal for 0, K-12, K-14 or K-20 for those values, and K-23 for anything else |
| PluginParameters.ParameterText | Source/plugin_parameters.cpp:283-349 | the algorithm reads as ITU-R BS.1770-1 or RMS, the file name only when the file exists, the channel as "All" exactly when negative and otherwise as its decimal number, switches as On exactly when non-zero, else Off |
| PluginParameters.AttributeNamesDistinct | Source/plugin_parameters.cpp:464-479 | the attribute names storeAsXml writes for the integer parameters are distinct and differ from CrestFactor, Headroom and ValidationFile |
| PluginParameters.StoreXml | Source/plugin_parameters.cpp:448-482 | storeAsXml produces a KMETER_SETTINGS element |
| PluginParameters.StoreInts | Source/plugin_parameters.cpp:464-479 | each written position holds its parameter's value and attributes with other names are kept |
| PluginParameters.LoadInts | Source/plugin_parameters.cpp:511-528 | the run of setParameterFromInt calls leaves the crest factor, the file and the parameters outside the run unchanged |
| PluginParameters.LoadIntsSets | Source/plugin_parameters.cpp:511-528 | each parameter in the run ends as its own setParameterFromInt call with the attribute (or its current value) left it |
| PluginParameters.LoadedCrestFactor | Source/plugin_parameters.cpp:489-509 | the legacy Headroom attribute wins over CrestFactor, a missing attribute keeps the current value, and 0 becomes 20 |
| PluginParameters.LoadedFile | Source/plugin_parameters.cpp:517-518 | the named validation file is adopted only when it exists |
| PluginParameters.Load | Source/plugin_parameters.cpp:485-530 | no element, or one with another tag, changes nothing |
| PluginParameters.LoadNeverYieldsCrestZero | Source/plugin_parameters.cpp:501-509 | after loading settings the crest factor is never 0 |
| PluginParameters.LoadIntsOfStoredValues | Source/plugin_parameters.cpp:511-528 | attributes that already hold the stored values change nothing |
| PluginParameters.SettingsElementInts | Source/plugin_parameters.cpp:464-479 | every integer parameter reads back from the element as stored |
| PluginParameters.SettingsElementHeader | Source/plugin_parameters.cpp:450-470 | the element has the settings tag, no Headroom, the crest factor with 0 written as 20, and the file name |
| PluginParameters.LoadOfStoredValues | Source/plugin_parameters.cpp:485-530 | loading an element that holds the store's own values only turns crest factor 0 into 20 |
| PluginParameters.StoreThenLoad | Source/plugin_parameters.cpp:448-530 | save then load gives back every value and the file name, except that crest factor 0 comes back as 20, and only that change is marked |
| PluginParameters.KmeterPluginParameters.State | Source/plugin_parameters.cpp:32-64 | the two arrays and the file name read as a well-formed store |
| PluginParameters.KmeterPluginParameters.constructor | Source/plugin_parameters.cpp:32-64 | the new object holds DefaultStore |
| PluginParameters.KmeterPluginParameters.GetParameterAsInt | Source/plugin_parameters.cpp:105-110 | reads the stored value |
| PluginParameters.KmeterPluginParameters.GetParameterAsBool | Source/plugin_parameters.cpp:92-95 | true exactly when the stored value is non-zero |
| PluginParameters.KmeterPluginParameters.GetParameterAsFloat | Source/plugin_parameters.cpp:98-102 | the host float of the stored value |
| PluginParameters.KmeterPluginParameters.IsParameterMarked | Source/plugin_parameters.cpp:200-205 | reads the mark |
| PluginParameters.KmeterPluginParameters.GetParameterText | Source/plugin_parameters.cpp:283-349 | the text of the current state |
| PluginParameters.KmeterPluginParameters.SetParameterFromInt | Source/plugin_parameters.cpp:126-157 | the new state is SetFromInt of the old one |
| PluginParameters.KmeterPluginParameters.SetParameterFromBool | Source/plugin_parameters.cpp:113-116 | a bool is set as 1 or 0 |
| PluginParameters.KmeterPluginParameters.SetParameterFromFloat | Source/plugin_parameters.cpp:119-123 | a host float is set as its translated integer |
| PluginParameters.KmeterPluginParameters.MarkParameter | Source/plugin_parameters.cpp:184-189 | only that parameter's mark is set |
| PluginParameters.KmeterPluginParameters.UnmarkParameter | Source/plugin_parameters.cpp:192-197 | only that parameter's mark is cleared |
| PluginParameters.KmeterPluginParameters.SetValidationFile | Source/plugin_parameters.cpp:175-181 | the file name changes only to a file that exists; the values and marks stay |
| PluginParameters.KmeterPluginParameters.StoreAsXml | Source/plugin_parameters.cpp:448-482 | the element of the current state |
| PluginParameters.KmeterPluginParameters.LoadFromXml | Source/plugin_parameters.cpp:485-530 | the new state is Load of the old one, in the same arrays |
| PluginParameters.KmeterPluginParameters.LoadCrestFactor | Source/plugin_parameters.cpp:489-509 | the crest factor is set to LoadedCrestFactor |
| PluginParameters.KmeterPluginParameters.LoadValidationFile | Source/plugin_parameters.cpp:517-518 | the state becomes LoadedFile of the old one |
| PluginParameters.KmeterPluginParameters.LoadAttributes | Source/plugin_parameters.cpp:511-528 | the state becomes LoadInts of the old one |
| LegacyPluginParameters.NormalisedValue | src/plugin_parameters.cpp:98-117 | the headroom is stored as 0, 12, 14 or 20 (any other value as 20), every switch as 0 or 1, 1 exactly for a non-zero value |
| LegacyPluginParameters.DefaultStore | src/plugin_parameters.cpp:32-46 | a new store holds headroom 20, every switch off and nothing marked |
| LegacyPluginParameters.SetFromInt | src/plugin_parameters.cpp:98-117 | setting the stored value changes nothing and marks nothing; any other value stores its normalised form and marks the parameter; other parameters are untouched |
| LegacyPluginParameters.SetFromIntKeepsNormalised | src/plugin_parameters.cpp:98-117 | a store of normalised values stays normalised after any set |
| LegacyPluginParameters.TranslateParameterToFloat | src/plugin_parameters.cpp:195-212 | every value maps into [0, 1]; headroom 0 to 0, unknown headrooms like 20 to 1, switches to 0 or 1 |
| LegacyPluginParameters.TranslateParameterToInt | src/plugin_parameters.cpp:215-232 | every float maps to a normalised value: headroom 0 below 0.25 and 20 from 0.75, a switch on exactly above 0.5 |
| LegacyPluginParameters.HeadroomFloatIncreasing | src/plugin_parameters.cpp:199-208 | larger headrooms sit higher on the host's float scale |
| LegacyPluginParameters.HeadroomIntMonotone | src/plugin_parameters.cpp:219-228 | a larger float never reads as a smaller headroom |
| LegacyPluginParameters.TranslateRoundTrip | src/plugin_parameters.cpp:195-232 | int to float to int is the identity on every normalised value |
| LegacyPluginParameters.ParameterName | src/plugin_parameters.cpp:144-172 | every index in the table has its own name and only indices outside it read "invalid" |
| LegacyPluginParameters.ParameterText | src/plugin_parameters.cpp:175-192 | the headroom reads Normal exactly for 0, K-12 or K-14 for those values and K-20 for anything else; switches read on exactly when non-zero, else off |
| LegacyPluginParameters.SavedHeadroom | src/plugin_parameters.cpp:239-243 | headroom 0 is saved as 20 and any other headroom verbatim |
| LegacyPluginParameters.StoreXml | src/plugin_parameters.cpp:235-251 | storeAsXml produces a KMETER_SETTINGS element |
| LegacyPluginParameters.StoreXmlAttributes | src/plugin_parameters.cpp:235-251 | the element holds the saved headroom and the four switches verbatim |
| LegacyPluginParameters.LoadAttribute | src/plugin_parameters.cpp:264-267 | an absent attribute keeps the current value |
| LegacyPluginParameters.LoadedHeadroom | src/plugin_parameters.cpp:258-262 | the loaded headroom is the attribute, or the current value when absent, with 0 read as 20 |
| LegacyPluginParameters.Load | src/plugin_parameters.cpp:254-269 | no element, or one with another tag, changes nothing |
| LegacyPluginParameters.LoadOfSettings | src/plugin_parameters.cpp:254-269 | after loading settings the headroom is never 0 and every value is normalised |
| LegacyPluginParameters.LoadSwitch | src/plugin_parameters.cpp:264-267 | each switch ends as its own setParameterFromInt call with the attribute (or its current value) left it |
| LegacyPluginParameters.StoreThenLoad | src/plugin_parameters.cpp:235-269 | save then load is setting the saved headroom: every value comes back except headroom 0, which comes back as 20 |
| LegacyPluginParameters.KmeterPluginParameters.State | src/plugin_parameters.cpp:32-46 | the two arrays read as a well-formed store |
| LegacyPluginParameters.KmeterPluginParameters.constructor | src/plugin_parameters.cpp:32-46 | the new object holds DefaultStore |
| LegacyPluginParameters.KmeterPluginParameters.GetParameterAsInt | src/plugin_parameters.cpp:77-82 | reads the stored value |
| LegacyPluginParameters.KmeterPluginParameters.GetParameterAsBool | src/plugin_parameters.cpp:64-67 | true exactly when the stored value is non-zero |
| LegacyPluginParameters.KmeterPluginParameters.GetParameterAsFloat | src/plugin_parameters.cpp:70-74 | the host float of the stored value |
| LegacyPluginParameters.KmeterPluginParameters.IsParameterMarked | src/plugin_parameters.cpp:136-141 | reads the mark |
| LegacyPluginParameters.KmeterPluginParameters.GetParameterText | src/plugin_parameters.cpp:175-192 | the text of the current state |
| LegacyPluginParameters.KmeterPluginParameters.SetParameterFromInt | src/plugin_parameters.cpp:98-117 | the new state is SetFromInt of the old one |
| LegacyPluginParameters.KmeterPluginParameters.SetParameterFromBool | src/plugin_parameters.cpp:85-88 | a bool is set as 1 or 0 |
| LegacyPluginParameters.KmeterPluginParameters.SetParameterFromFloat | src/plugin_parameters.cpp:91-95 | a host float is set as its translated integer |
| LegacyPluginParameters.KmeterPluginParameters.MarkParameter | src/plugin_parameters.cpp:120-125 | only that parameter's mark is set |
| LegacyPluginParameters.KmeterPluginParameters.UnmarkParameter | src/plugin_parameters.cpp:128-133 | only that parameter's mark is cleared |
| LegacyPluginParameters.KmeterPluginParameters.StoreAsXml | src/plugin_parameters.cpp:235-251 | the element of the current state |
| LegacyPluginParameters.KmeterPluginParameters.LoadFromXml | src/plugin_parameters.cpp:254-269 | the new state is Load of the old one |
| MeterBar.CrestLimits | Source/meter_bar.cpp:41-80 | the crest factor becomes 0, 120, 140 or 200 tenths of a dB (anything but 0, 12 and 14 acting as K-20), the top band starts 2 dB below it, and the amber limit is never above the red one |
| MeterBar.NumberOfBars | Source/meter_bar.cpp:82-104 | an expanded bar has 134 segments; otherwise 47 to 51 by crest factor |
| MeterBar.Range | Source/meter_bar.cpp:132-154 | a segment spans 0.1 dB when expanded, otherwise 0.5, 1, 6 or 10 dB by band |
| MeterBar.Colour | Source/meter_bar.cpp:156-167 | red exactly above the red limit, green exactly at or below both limits, amber in between |
| MeterBar.FirstThreshold | Source/meter_bar.cpp:117-122 | the ladder starts at 0 dB, or 8 dB above the K-meter's zero when an expanded bar has a crest factor above 8 dB |
| MeterBar.LevelDecreasing | Source/meter_bar.cpp:130-171 | the K-meter level strictly falls from each segment to every later one |
| MeterBar.SegmentsContiguous | Source/meter_bar.cpp:117-171 | each segment's lower edge plus its range is the previous segment's lower edge, starting from the first threshold |
| MeterBar.ThresholdsDecrease | Source/meter_bar.cpp:130-171 | thresholds strictly decrease down the bar |
| MeterBar.ColourMonotone | Source/meter_bar.cpp:156-167 | colours never go back from green toward red down the bar |
| MeterBar.SegmentAt | Source/meter_bar.cpp:169-171 | segment n gets the span from the next threshold up to its own, a positive range and a colour in 0..2 |
| MeterBar.LayoutFollowsLadder | Source/meter_bar.cpp:200-204 | visibilityChanged's ladder, restarted at the crest factor, is the constructor's ladder for a bar that is not expanded |
| MeterBar.Descent | Source/meter_bar.cpp:205-292 | inside one band, m segments lower the level by m ranges and move the y position down by m heights |
| MeterBar.BarTiledBySegments | Source/meter_bar.cpp:192-294 | for every crest factor and either scale the segments fill exactly the 134 base heights of the bar |
| MeterBar.FineBand | Source/meter_bar.cpp:211-241 | a bar that is not expanded begins with four 0.5 dB segments of one base height |
| MeterBar.CoarseBand | Source/meter_bar.cpp:215-245 | below the top band, 1 dB segments are two base heights each |
| MeterBar.CoarserBand | Source/meter_bar.cpp:219-249 | below the first green limit, 6 dB segments are six base heights each |
| MeterBar.CoarsestBand | Source/meter_bar.cpp:225-287 | at or below the second green limit, 10 dB segments have the height the crest factor picks |
| MeterBar.TiledNormal | Source/meter_bar.cpp:250-287 | the 47 segments of a Normal bar fill 134 base heights |
| MeterBar.TiledK12 | Source/meter_bar.cpp:250-287 | the 48 segments of a K-12 bar fill 134 base heights |
| MeterBar.TiledK14 | Source/meter_bar.cpp:250-287 | the 50 segments of a K-14 bar fill 134 base heights |
| MeterBar.TiledK20 | Source/meter_bar.cpp:250-287 | the 51 segments of a K-20 bar fill 134 base heights |
| MeterBar.SegmentBounds | Source/meter_bar.cpp:231-290 | each segment spans the bar's full width and, one pixel of overlap aside, ends where the next one starts |
| MeterBar.MeterBar.constructor | Source/meter_bar.cpp:28-175 | the bar records its configuration, the crest limits and segment count, zero readings, and one segment per ladder step |
| MeterBar.MeterBar.BuildSegments | Source/meter_bar.cpp:117-174 | the loop creates exactly the ladder's segments, in order |
| MeterBar.MeterBar.VisibilityChanged | Source/meter_bar.cpp:192-294 | the bar is 134 base heights plus one pixel tall and each segment gets the bounds of the layout |
| MeterBar.MeterBar.SetLevels | Source/meter_bar.cpp:306-321 | the four readings are stored and passed on to the segments exactly when one of them changed; the configuration stays |
| LegacyMeterBar.BarLimits | src/meter_bar.cpp:33-123 | a headroom other than 0, 12 or 14 acts as 20; an expanded bar has 134 segments, otherwise 47, 48, 50 or 51 by headroom; the band limits are ordered |
| LegacyMeterBar.Range | src/meter_bar.cpp:139-156 | segment n spans 0.1 dB when expanded, otherwise 0.5, 1, 6 or 10 dB by the band its index falls in |
| LegacyMeterBar.Colour | src/meter_bar.cpp:158-163 | red exactly before the red limit, green exactly from both limits on, amber in between |
| LegacyMeterBar.ColourMonotone | src/meter_bar.cpp:158-163 | the colour number and its hue never fall along the bar |
| LegacyMeterBar.EdgeDecreasing | src/meter_bar.cpp:133-166 | thresholds strictly decrease down the bar |
| LegacyMeterBar.SegmentsContiguous | src/meter_bar.cpp:133-166 | each segment's upper threshold is the previous segment's lower threshold, and the first is 0 dB |
| LegacyMeterBar.AtMostOneMarker | src/meter_bar.cpp:165-166 | on the ladder no peak lights the marker of two segments |
| LegacyMeterBar.TopAcrossBand | src/meter_bar.cpp:239-262 | across a run of equal-height segments the y position grows by that height each time |
| LegacyMeterBar.BarTiledBySegments | src/meter_bar.cpp:185-264 | for every headroom and either scale the segments fill exactly the 134 base heights of the bar |
| LegacyMeterBar.SegmentWidth | src/meter_bar.cpp:197-237 | red segments and centred meters use the full width; left- or right-justified amber and green segments are narrower, never wider than the bar |
| LegacyMeterBar.SegmentX | src/meter_bar.cpp:197-237 | a left-justified segment ends at the bar's right edge; all others start at 0 |
| LegacyMeterBar.WidthsNarrowDownTheBar | src/meter_bar.cpp:197-237 | segments never widen down the bar |
| LegacyMeterBar.SegmentBounds | src/meter_bar.cpp:195-262 | each segment gets its justified width and x, and, one pixel of overlap aside, ends where the next one starts |
| LegacyMeterBar.BuildSegments | src/meter_bar.cpp:133-169 | the loop creates one new, distinct segment per ladder step, with that step's thresholds and colour and no marker lit |
| LegacyMeterBar.MeterBar.constructor | src/meter_bar.cpp:28-170 | the bar records its configuration and justification, a zero level, and one fresh segment per ladder step |
| LegacyMeterBar.MeterBar.VisibilityChanged | src/meter_bar.cpp:185-264 | the bar is 134 base heights plus one pixel tall and each segment gets the bounds of the layout |
| LegacyMeterBar.MeterBar.SetLevels | src/meter_bar.cpp:275-285 | level and peak are stored; the segments are left alone when neither changed and otherwise all show them, with at most one marker lit |
| LegacyMeterBar.MeterBar.ForwardLevels | src/meter_bar.cpp:282-283 | every segment is given the stored level and peak, and no two of them light the marker |
| Skin.BackgroundSelector | Source/skin.cpp:125-141 | the background name is "image" or "image_expanded" followed by "_peaks" or "_no_peaks" |
| Skin.BackgroundSelectorNames | Source/skin.cpp:125-141 | the four settings give the four names image_peaks, image_no_peaks, image_expanded_peaks and image_expanded_no_peaks |
| Skin.BackgroundSelectorInjective | Source/skin.cpp:125-141 | distinct settings select distinct background images |
| Skin.Fallback | Source/skin.cpp:143-159 | the fallback group is "stereo" for up to two channels and "surround" otherwise, followed by "_itu" for ITU-R BS.1770 and "_rms" otherwise |
| Skin.CrestSuffix | Source/skin.cpp:161-178 | crest factors 20, 14 and 12 give "_k20", "_k14" and "_k12"; every other one gives "_normal" |
| Skin.Group | Source/skin.cpp:161-178 | the skin group is the fallback group followed by the crest suffix, so the fallback is always its prefix |
| Skin.GroupsAreNotDefault | Source/skin.cpp:143-184 | the skin group, the fallback group and "default" are three distinct names |
| Skin.GroupInjective | Source/skin.cpp:143-178 | the group name determines the layout class, the algorithm class and the crest suffix, and a named crest factor exactly |
| Skin.ChildOf | Source/skin.cpp:204-215 | a found child comes from the given group and has the asked tag |
| Skin.FirstHitFinds | Source/skin.cpp:204-220 | the reference lookup finds a component exactly when some group has it, and takes it from the first such group |
| Skin.Skin.constructor | Source/skin.cpp:29-36 | the names follow the settings and a skin file is kept only when its root is kmeter-skin with a default group and its resource directory exists |
| Skin.Skin.LoadFromXml | Source/skin.cpp:55-117 | the result is true exactly for an accepted file, which is then kept with its path; a missing or invalid file leaves no document, no path and no groups; the names stay |
| Skin.Skin.UpdateSkin | Source/skin.cpp:120-192 | the background, fallback and group names follow the new settings; the document and path stay, and without a document there are no groups |
| Skin.Skin.SelectBackground | Source/skin.cpp:125-141 | the background name follows the settings |
| Skin.Skin.SelectGroups | Source/skin.cpp:143-178 | the fallback and group names follow the settings |
| Skin.Skin.FindGroups | Source/skin.cpp:180-191 | the groups are looked up in a loaded document and are absent otherwise |
| Skin.Skin.ComponentFromXml | Source/skin.cpp:195-223 | without a document there is no component, and any component found has the asked tag |
| Skin.Skin.ComponentIsFirstHit | Source/skin.cpp:195-223 | getComponentFromXml is the reference lookup along skin group, fallback group and default group, in that order |
| Skin.Skin.ComponentLookupOrder | Source/skin.cpp:195-223 | with a skin loaded a component is found exactly when one of the three groups has it, a skin-group component wins, and the default group is always present |
| AudioFilePlayer.CrestFactorName | Source/audio_file_player.cpp:107-121 | the scale is named K-20, K-14 or K-12 exactly for those crest factors and NORM for every other one |
| AudioFilePlayer.OfRank | Source/audio_file_player.cpp:294-358 | every column position of the report belongs to a quantity at that position |
| AudioFilePlayer.RankOf | Source/audio_file_player.cpp:294-358 | the column positions of the seven quantities are distinct and cover the report |
| AudioFilePlayer.EnabledAscending | Source/audio_file_player.cpp:294-358 | the reported quantities come in the fixed column order, so none is reported twice |
| AudioFilePlayer.EnabledMembers | Source/audio_file_player.cpp:124-146 | a quantity is in the report exactly when its flag was set |
| AudioFilePlayer.ReportChannels | Source/audio_file_player.cpp:300-306 | a negative report channel covers every channel in order, any other value covers that channel alone |
| AudioFilePlayer.LogDataLine | Source/audio_file_player.cpp:361-368 | appending a data line to a log that starts with the header keeps the header the only header line and the first one |
| AudioFilePlayer.FormatValueSign | Source/audio_file_player.cpp:463-474 | a value gets a leading "+" exactly when it is not negative, followed by its two-decimal rendering and a tab |
| AudioFilePlayer.ElapsedTime | Source/audio_file_player.cpp:443-450 | the time code is the read position divided by the sample rate, never negative, and 0 for the NaN of 0 / 0 |
| AudioFilePlayer.FormatTimeAsWrittenMissesCarry | Source/audio_file_player.cpp:443-460 | as written, 0.9996 seconds is shown as "00:00.1000": the rounded milliseconds are not carried into the seconds |
| AudioFilePlayer.TimeParts | Source/audio_file_player.cpp:443-460 | the minutes, seconds below 60 and milliseconds below 1000 add up to the time rounded to whole milliseconds |
| AudioFilePlayer.AsWrittenAgrees | Source/audio_file_player.cpp:443-460 | wherever the separately rounded fraction stays below 1000 ms, formatTime as written splits the time into the same parts as the corrected time code and prints the same text |
| AudioFilePlayer.FormatTimeFields | Source/audio_file_player.cpp:443-460 | the corrected time code is minutes of at least two digits, a colon, two digits of seconds, a point and three digits of milliseconds, each reading as the rounded time's part |
| AudioFilePlayer.ClockFields | Source/audio_file_player.cpp:453-459 | the zero-padded fields joined by ':' and '.' read back as the minutes, seconds and milliseconds they show |
| AudioFilePlayer.DataLineIsNoHeader | Source/audio_file_player.cpp:361-440 | a data line starts with a quoted digit, so it never looks like the header line |
| AudioFilePlayer.HeaderIsHeader | Source/audio_file_player.cpp:294-297 | the header line starts with the quoted timecode column |
| AudioFilePlayer.HeaderMatchesLine | Source/audio_file_player.cpp:294-440 | the header and every data line have the same number of tab-terminated fields, one for the time code and one per reported column |
| AudioFilePlayer.ReportsIffColumns | Source/audio_file_player.cpp:124-146 | something is reported exactly when the header has a column besides the time code |
| AudioFilePlayer.AverageColumnsFirst | Source/audio_file_player.cpp:298-306 | with every channel reported, the first columns are the average levels, named avg_1, avg_2, ..., each showing that channel's level plus the crest factor |
| AudioFilePlayer.AverageColumnsLead | Source/audio_file_player.cpp:298-306 | the average-level columns lead the report, one per channel in order |
| AudioFilePlayer.AudioFilePlayer.constructor | Source/audio_file_player.cpp:29-96 | the player plays only an opened file, counts the file length plus the pause after playback, notes whether the sample rates match, sets the crest factor and reports nothing yet |
| AudioFilePlayer.AudioFilePlayer.SetCrestFactor | Source/audio_file_player.cpp:107-121 | the crest factor, its scale name and the floor of the meter (meter minimum plus crest factor) are set; nothing else changes |
| AudioFilePlayer.AudioFilePlayer.SetReporters | Source/audio_file_player.cpp:124-146 | the channel and flags are taken as given and reporting is on exactly when some quantity is selected |
| AudioFilePlayer.AudioFilePlayer.IsPlaying | Source/audio_file_player.cpp:149-164 | the file plays exactly while it was playing and the read position is before the end; when it stops, playing and reporting are switched off |
| AudioFilePlayer.AudioFilePlayer.AppendFields | Source/audio_file_player.cpp:298-306 | the loop over the channels appends one field per channel of the quantity |
| AudioFilePlayer.AudioFilePlayer.AppendSection | Source/audio_file_player.cpp:298-356 | one block of the header or line appends the quantity's fields when its flag is set and nothing otherwise |
| AudioFilePlayer.AudioFilePlayer.AppendReported | Source/audio_file_player.cpp:298-356 | the blocks in sequence append the fields of all reported columns in column order |
| AudioFilePlayer.AudioFilePlayer.ReportCsvHeader | Source/audio_file_player.cpp:294-358 | the header is the time code column and one quoted name per reported column; it is logged and marked as written |
| AudioFilePlayer.AudioFilePlayer.ReportCsvLine | Source/audio_file_player.cpp:361-440 | the log gains the header if it had not been written, then the data line with the corrected time code and every reported value; the header is marked as written |
| AudioFilePlayer.AudioFilePlayer.ReportCsvHeaderOnce | Source/audio_file_player.cpp:365-367 | the header is logged only if it has not been written yet, and is written afterwards |
| AudioFilePlayer.AudioFilePlayer.ReportDataLine | Source/audio_file_player.cpp:369-440 | with the header out, exactly the data line is logged; its time code is the corrected one, which AsWrittenAgrees shows equal to the source's except when the fraction rounds up to 1000 ms |
| AudioFilePlayer.AudioFilePlayer.FormatDataLine | Source/audio_file_player.cpp:369-440 | the data line is the quoted corrected time code followed by one formatted value per reported column |
| AudioFilePlayer.AudioFilePlayer.ReportReadings | Source/audio_file_player.cpp:176-183 | with reports and CSV on, the log gains the header (once) and the data line of the readings and the header is marked as written; otherwise neither the log nor the mark changes |
| AudioFilePlayer.AudioFilePlayer.CopyTo | Source/audio_file_player.cpp:173-193 | the previous readings are reported first: with reports and CSV on, the log gains the header (once) and their data line, otherwise it is unchanged; then the result is whether the file still plays (it was playing and the read position is before the end), and a file that stops switches playing and reporting off |

## Left out

- Floating-point rounding: float arithmetic is exact real arithmetic, and only the explicit `int(...)` casts are modelled, as truncation toward zero.
- log10f, powf and sqrt are not defined: members that use them take them as parameters, with the facts they need (for example `0 < pow(0.01, x) <= 1`) as preconditions.
- The FFT convolution and the filter kernels of Source/fftw_runner.cpp are not part of this model. This includes the windowed-sinc kernel of the rate converter and the interpolation filter of the true-peak meter, which is the parameter `filter`.
- AverageLevelFiltered: the biquad loops of FilterSamples_ItuBs1770, the RMS low-pass FilterSamples_Rms and the kernel designs calculateFilterKernel_Rms and calculateFilterKernel_ItuBs1770 are numeric DSP. The BS.1770 coefficient design is the parameter `design`, and a level is computed from the rows the filter pass leaves.
- AverageLevelFiltered: both copyToBuffer overloads are a debugging aid and are left out.
- GUI painting and JUCE component plumbing are left out: paint, resized, visibilityChanged of the segments, the destructors, Skin.placeAndSkinButton, placeAndSkinLabel, placeAndSkinStateLabel, placeComponent and setBackgroundImage. The meter-bar model keeps the segment arguments and the layout arithmetic.
- The plain-text validation report (outputReportPlain, outputValue with its moving averages) and outputMessage are left out: they only write debug text to the Logger.
- AudioFilePlayer.AudioFilePlayer.CopyTo: with reports on and CSV off it leaves the log unchanged, because the plain-text report is not modelled. The audio file's samples are not read or copied into the buffer: the read position is a parameter.
- AudioFilePlayer.AudioFilePlayer.CopyTo: requires an opened file whenever reports and CSV are on. The source can reach that state with no file: the constructor switches reports off for an unreadable file (Source/audio_file_player.cpp:92-95), but setReporters switches them on again from the quantity flags (Source/audio_file_player.cpp:145). startValidation calls setReporters right after the constructor without checking the file (Source/plugin_processor.cpp:632-633). The next copyTo then reports, and formatTime dereferences the missing audio source (Source/audio_file_player.cpp:445). The model does not give that crash a meaning. ReportReadings has the same requires, and ReportCsvLine, ReportDataLine and FormatDataLine require an opened file.
- AudioFilePlayer.AudioFilePlayer.ReportCsvLine: the data line carries the corrected time code, FormatTime. The source prints formatTime as written (Source/audio_file_player.cpp:439), which differs only when the separately rounded fraction reaches 1000 ms; AudioFilePlayer.AsWrittenAgrees proves that the two are the same text everywhere else, and the finding below gives the case that differs. The same holds for ReportDataLine, FormatDataLine, ReportReadings and CopyTo.
- Audio file decoding and the file system are parameters. The audio file is its length and sample rate. The skin's resource directory check is the boolean `resourceDirectoryExists` of Skin.Skin.LoadFromXml. The parameter store's file check is the `string -> bool` parameter `fileExists`.
- Skin.Skin.LoadFromXml: keeps the "path" attribute as written. The source resolves it against the skin file's directory with getSiblingFile (Source/skin.cpp:100) before it checks the directory, and path resolution is not modelled.
- PluginParameters.KmeterPluginParameters.SetValidationFile: stores the file name as given, where the source stores File::getFullPathName() (Source/plugin_parameters.cpp:179). Path resolution is not modelled. The same holds for PluginParameters.LoadedFile and LoadValidationFile.
- ChannelSlider.ValueFromText: reads only an optional sign and the leading digits of the text. The source's getFloatValue also reads a fraction and an exponent, so "2.5" gives 1.5 in the source and 1.0 in the model. Floating-point parsing is not modelled, so TextRoundTrip covers the texts the slider itself shows.
- RateConverter.RateConverter.Upsample: models only the zero-stuffing. The convolution with the kernel that follows it (Source/rate_converter.cpp:80-84) overwrites the buffer and is FFT work, which is not part of this model.
- TruePeakMeter.TruePeakMeter.GetLevel, TruePeakMeter.TruePeakMeter.GetNumberOfOverflows and AverageLevelFiltered.AverageLevelFiltered.GetAlgorithm: plain accessors that return a stored field, with no contract of their own. The fields they read are stated by the methods that set them.
- Host and editor plumbing of both processors is left out: the constructor and destructor, getName, getNumParameters, getParameter, setParameter, getParameterAsBool, getParameterName, getParameterText, getParameterAsInt, the validation file accessors, MarkParameter, UnmarkParameter, isParameterMarked, channel names, MIDI flags, programs, getStateInformation, setStateInformation, createEditor, getLevels, convertMono, addActionListenerParameters and removeActionListenerParameters. They forward to the parameter store and the meter, which are modelled.
- Processor: releaseResources, startValidation, stopValidation, isValidating, setAverageAlgorithm and setAverageAlgorithmFinal are left out. They create and delete the helper objects, and the helpers' own operations are modelled.
- Processor: sendActionMessage notifications to the editor are left out.
- Processor.KmeterAudioProcessor.ProcessBlock: models processBlock at a supported sample rate. The unsupported-rate branch, which only clears the output channels, is Processor.ClearChannels. The "no input channels" early return is excluded by the class invariant (at least one input). The player's fillBufferChunk call is left out.
- Processor.KmeterAudioProcessor.ProcessBlock: the full-block callback from the input ring into processBufferChunk is recorded as an event and not run inside processBlock. ProcessBufferChunk models the callback on its own.
- Processor.KmeterAudioProcessor.ProcessBufferChunk: `chunkSize` is a parameter that is not tied to the ring. The current processor builds its rings with a separate chunk size of 1024 samples (Source/plugin_processor.cpp:380-383). Its ring buffer class passes that size to processBufferChunk as uChunkSize (Source/plugin_processor.cpp:498), and that class is not part of this model. The model uses the legacy ring of src/audio_ring_buffer.cpp, which has no separate chunk size. It fires once per ring length, which is max(samplesPerBlock, 1024) samples.
- Processor.KmeterAudioProcessor.ProcessBufferChunk: forwards the chunk to the output ring before metering it, where the source meters first. The two steps touch disjoint state, so the final state is the same.
- LegacyMeterBallistics.LegacyMeterBallistics.UpdateChannel: requires the channel to be below the number of channels. The source's mono branch writes index 1 of one-element arrays. That is undefined behaviour, so the branch is unreachable in the model.
- LegacyMeterBar.MeterBar.constructor: the peak field is left uninitialised by the source; the parameter `initialPeak` stands for it.
- PluginParameters.DefaultStore: the integer slot of the validation file name is left uninitialised by the source; the model stores 0 there.
- getNumParameters of both parameter stores is a constant and is not modelled.
- Concurrency between the audio thread and the editor is not modelled; every operation runs alone.

## Findings

| source | as written | input that shows it | evidently intended | confidence | as-written member | corrected member |
|---|---|---|---|---|---|---|
| Source/audio_file_player.cpp:443-460 | the milliseconds are rounded separately from the whole seconds, so a fraction that rounds up to 1000 is printed as a four-digit millisecond field | 0.9996 s gives "00:00.1000" | round to the millisecond first, then split into minutes, seconds and milliseconds ("00:01.000") | not executed | AudioFilePlayer.FormatTimeAsWrittenMissesCarry | AudioFilePlayer.FormatTimeFields |
