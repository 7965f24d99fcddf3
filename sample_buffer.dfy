/**
 * The two operations of JUCE's AudioSampleBuffer the meters rely on, over
 * a channels-by-samples array: reading one channel's row and clearing.
 */
module SampleBuffer {

  /** The samples of channel c, in order. */
  function Row(a: array2<real>, c: nat): (r: seq<real>)
    reads a
    requires c < a.Length0
    ensures |r| == a.Length1 && forall k :: 0 <= k < a.Length1 ==> r[k] == a[c, k]
  {
    seq(a.Length1, k requires 0 <= k < a.Length1 reads a => a[c, k])
  }

  /** JUCE's AudioBuffer::clear: every sample 0. */
  method Clear(buffer: array2<real>)
    modifies buffer
    ensures forall c, k :: 0 <= c < buffer.Length0 && 0 <= k < buffer.Length1 ==> buffer[c, k] == 0.0
  {
    var channel := 0;
    while channel < buffer.Length0
      invariant channel <= buffer.Length0
      invariant forall c, k :: 0 <= c < channel && 0 <= k < buffer.Length1 ==> buffer[c, k] == 0.0
    {
      var sample := 0;
      while sample < buffer.Length1
        invariant sample <= buffer.Length1
        invariant forall c, k :: 0 <= c < channel && 0 <= k < buffer.Length1 ==> buffer[c, k] == 0.0
        invariant forall k :: 0 <= k < sample ==> buffer[channel, k] == 0.0
      {
        buffer[channel, sample] := 0.0;
        sample := sample + 1;
      }
      channel := channel + 1;
    }
  }
}
