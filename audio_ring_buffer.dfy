/**
 * The multi-channel audio ring buffer of src/audio_ring_buffer.cpp.
 *
 * The buffer stores `length` samples per channel plus `preDelay` extra
 * samples, so that windows can be read some samples into the past.  New
 * samples are written at the current position, which then advances
 * modulo the total length; a second counter tracks how many samples of
 * the current `length`-sized block have arrived, and every time a block
 * is complete the registered processor's chunk callback fires.  That
 * callback is recorded in a ghost log of `FullBuffer` events.
 */
module AudioRingBuffer {
  import opened Numeric

  /** One call of the processor's chunk callback: where in the source block it starts and how many samples it covers. */
  datatype FullBuffer = FullBuffer(bufferPosition: nat, processedSamples: nat)

  /** The storage slot lying `back` samples before `position` in a ring of `total` slots. */
  function Slot(position: nat, back: nat, total: nat): (slot: nat)
    requires position < total && back <= total
    ensures slot < total
    ensures (slot + back) % total == position
  {
    ModAddStep(position - back + total, back, total);
    UniqueDivision(position + total, total, 1, position);
    (position - back + total) % total
  }

  /** Two separate rings of the same shape, as an input and an output ring of one processor. */
  ghost predicate Paired(input: AudioRingBuffer, output: AudioRingBuffer, channels: nat, preDelay: nat)
    reads input, output
  {
    input.Valid() && output.Valid() && input != output && input.audioData != output.audioData
    && input.channels == channels && output.channels == channels
    && output.length == input.length && input.preDelay == preDelay && output.preDelay == preDelay
  }

  /** How many samples after `from` the slot `j` lies in a ring of `total` slots. */
  function Distance(from: nat, j: nat, total: nat): (d: nat)
    requires from < total && j < total
    ensures d < total
    ensures j >= from ==> d == j - from
    ensures j < from ==> d == j - from + total
  {
    ShiftedRemainder(j - from, total);
    (j - from + total) % total
  }

  lemma ShiftedRemainder(x: int, total: nat)
    requires total > 0 && -(total as int) <= x < total
    ensures x >= 0 ==> (x + total) % total == x
    ensures x < 0 ==> (x + total) % total == x + total
  {
    if x >= 0 {
      UniqueDivision(x + total, total, 1, x);
    } else {
      UniqueDivision(x + total, total, 0, x + total);
    }
  }

  /** The samples processed since the last full block advance with the block counter. */
  lemma ProcessedStep(s0: nat, f: nat, m: nat, l: nat, processed: nat)
    requires l > 0 && (s0 + f) % l + m <= l
    requires processed == if s0 + f < l then f else (s0 + f) % l
    ensures (if (s0 + f) % l + m == l then 0 else processed + m)
      == if s0 + f + m < l then f + m else (s0 + f + m) % l
  {
    DivModStep(s0 + f, m, l);
    if s0 + f < l {
      UniqueDivision(s0 + f, l, 0, s0 + f);
    }
  }

  lemma RemainderUpToDivisor(x: nat, d: nat)
    requires 0 < d && x <= d
    ensures x % d == if x == d then 0 else x
  {
    if x == d {
      UniqueDivision(x, d, 1, 0);
    } else {
      UniqueDivision(x, d, 0, x);
    }
  }

  /** A ring index that has gone past the end at most once, brought back into range. */
  function WrapOnce(x: nat, total: nat): (r: nat)
    requires total > 0 && x < 2 * total
    ensures r < total
    ensures x < total ==> r == x
    ensures x >= total ==> r == x - total
  {
    if x >= total then x - total else x
  }

  lemma WrapOnceIsRemainder(x: nat, total: nat)
    requires total > 0 && x < 2 * total
    ensures WrapOnce(x, total) == x % total
  {
    if x >= total {
      UniqueDivision(x, total, 1, x - total);
    } else {
      UniqueDivision(x, total, 0, x);
    }
  }

  /** Advancing a once-wrapped index by a chunk that stays inside the storage, as the copy loops do with `%`. */
  lemma AdvanceWrap(s: nat, f: nat, m: nat, total: nat, start: nat)
    requires total > 0 && s < total && f + m <= total
    requires start == WrapOnce(s + f, total) && start + m <= total
    ensures (start + m) % total == WrapOnce(s + f + m, total)
  {
    RemainderUpToDivisor(start + m, total);
  }

  /** Stepping `i` samples forward from the slot `back` samples ago is the slot `back - i` samples ago. */
  lemma SlotAdvance(position: nat, back: nat, i: nat, total: nat)
    requires position < total && i <= back <= total
    ensures Slot(position, back - i, total) == (Slot(position, back, total) + i) % total
  {
    ModAddStep(position - back + total, i, total);
  }

  /** Sample i of a window read from the slot `back` samples ago, f samples of it already read from `start` on. */
  lemma ReadSlot(position: nat, back: nat, total: nat, f: nat, start: nat, i: nat)
    requires position < total && f <= i < back <= total
    requires start == WrapOnce(Slot(position, back, total) + f, total) && start + (i - f) < total
    ensures start + (i - f) == Slot(position, back - i, total)
  {
    WrapOnceIsRemainder(Slot(position, back, total) + f, total);
    SlotAdvance(position, back, i, total);
    ModAddStep(Slot(position, back, total) + f, i - f, total);
    UniqueDivision(start + (i - f), total, 0, start + (i - f));
  }

  /**
   * A chunk of m samples written at slot p, where p lies f samples
   * after the start p0 and the chunk does not cross the end of the
   * storage, covers exactly the slots f .. f + m - 1 samples after p0.
   */
  lemma DistanceInChunk(p0: nat, f: nat, m: nat, total: nat, p: nat, j: nat)
    requires p0 < total && j < total && f + m <= total
    requires p == WrapOnce(p0 + f, total) && p + m <= total
    ensures (p <= j < p + m) <==> (f <= Distance(p0, j, total) < f + m)
    ensures p <= j < p + m ==> Distance(p0, j, total) == f + j - p
  {
  }

  class AudioRingBuffer {
    const channels: nat
    const length: nat
    const preDelay: nat
    const totalLength: nat
    /** One row of `totalLength` samples per channel (the source keeps them in one block with per-channel offsets). */
    const audioData: array2<real>
    var currentPosition: nat
    var samplesInBuffer: nat
    var callbackSet: bool
    ghost var fullBuffers: seq<FullBuffer>

    ghost predicate Valid()
      reads this
    {
      channels > 0 && length > 0 && totalLength == length + preDelay
      && audioData.Length0 == channels && audioData.Length1 == totalLength
      && currentPosition < totalLength && samplesInBuffer < length
    }

    constructor (numberOfChannels: nat, bufferLength: nat, bufferPreDelay: nat)
      requires numberOfChannels > 0 && bufferLength > 0
      ensures Valid() && !callbackSet && fullBuffers == [] && fresh(audioData)
      ensures channels == numberOfChannels && length == bufferLength && preDelay == bufferPreDelay
      ensures currentPosition == 0 && samplesInBuffer == 0
      ensures forall c, j :: 0 <= c < channels && 0 <= j < totalLength ==> audioData[c, j] == 0.0
    {
      channels := numberOfChannels;
      length := bufferLength;
      preDelay := bufferPreDelay;
      totalLength := bufferLength + bufferPreDelay;
      audioData := new real[numberOfChannels, bufferLength + bufferPreDelay];
      callbackSet := false;
      currentPosition := 0;
      samplesInBuffer := 0;
      fullBuffers := [];
      new;
      Clear();
    }

    /** Zeroes every stored sample and rewinds the position; the block counter is left as it is. */
    method Clear()
      requires Valid()
      modifies this, audioData
      ensures Valid() && currentPosition == 0
      ensures samplesInBuffer == old(samplesInBuffer) && callbackSet == old(callbackSet) && fullBuffers == old(fullBuffers)
      ensures forall c, j :: 0 <= c < channels && 0 <= j < totalLength ==> audioData[c, j] == 0.0
    {
      currentPosition := 0;
      var channel := 0;
      while channel < channels
        invariant 0 <= channel <= channels && Valid() && currentPosition == 0
        invariant samplesInBuffer == old(samplesInBuffer) && callbackSet == old(callbackSet) && fullBuffers == old(fullBuffers)
        invariant forall c, j :: 0 <= c < channel && 0 <= j < totalLength ==> audioData[c, j] == 0.0
      {
        var sample := 0;
        while sample < totalLength
          modifies audioData
          invariant 0 <= sample <= totalLength
          invariant forall c, j :: 0 <= c < channel && 0 <= j < totalLength ==> audioData[c, j] == 0.0
          invariant forall j :: 0 <= j < sample ==> audioData[channel, j] == 0.0
        {
          audioData[channel, sample] := 0.0;
          sample := sample + 1;
        }
        channel := channel + 1;
      }
    }

    method SetCallbackClass()
      modifies this
      ensures callbackSet
      ensures currentPosition == old(currentPosition) && samplesInBuffer == old(samplesInBuffer) && fullBuffers == old(fullBuffers)
    {
      callbackSet := true;
    }

    method ClearCallbackClass()
      modifies this
      ensures !callbackSet
      ensures currentPosition == old(currentPosition) && samplesInBuffer == old(samplesInBuffer) && fullBuffers == old(fullBuffers)
    {
      callbackSet := false;
    }

    /** The sample `relativePosition` samples before the current position, a further `delay` samples back. */
    function GetSample(channel: nat, relativePosition: nat, delay: nat): real
      reads this, audioData
      requires Valid() && channel < channels && relativePosition <= length && delay <= preDelay
    {
      audioData[channel, Slot(currentPosition, relativePosition + delay, totalLength)]
    }

    /** Hands a complete block to the processor when one is registered. */
    method TriggerFullBuffer(bufferPosition: nat, processedSamples: nat)
      modifies this`fullBuffers
      ensures fullBuffers == old(fullBuffers) + (if callbackSet then [FullBuffer(bufferPosition, processedSamples)] else [])
    {
      if callbackSet {
        fullBuffers := fullBuffers + [FullBuffer(bufferPosition, processedSamples)];
      }
    }

    /** One chunk of the copy loop: `count` samples of every channel to the slots from the current position on. */
    method WriteChunk(source: array2<real>, sourceStart: nat, count: nat)
      requires Valid() && source != audioData
      requires source.Length0 >= channels && sourceStart + count <= source.Length1
      requires currentPosition + count <= totalLength
      modifies audioData
      ensures forall c, j :: 0 <= c < channels && 0 <= j < totalLength ==>
        audioData[c, j] == if currentPosition <= j < currentPosition + count
                           then source[c, sourceStart + j - currentPosition] else old(audioData[c, j])
    {
      var channel := 0;
      while channel < channels
        invariant 0 <= channel <= channels
        invariant forall c, j :: 0 <= c < channels && 0 <= j < totalLength ==>
          audioData[c, j] == if c < channel && currentPosition <= j < currentPosition + count
                             then source[c, sourceStart + j - currentPosition] else old(audioData[c, j])
      {
        var i := 0;
        while i < count
          invariant 0 <= i <= count
          invariant forall c, j :: 0 <= c < channels && 0 <= j < totalLength ==>
            audioData[c, j] == if (c < channel && currentPosition <= j < currentPosition + count)
                                  || (c == channel && currentPosition <= j < currentPosition + i)
                               then source[c, sourceStart + j - currentPosition] else old(audioData[c, j])
        {
          audioData[channel, currentPosition + i] := source[channel, sourceStart + i];
          i := i + 1;
        }
        channel := channel + 1;
      }
    }

    /** The stored samples as rows of a sequence. */
    ghost function Rows(): (r: seq<seq<real>>)
      reads this, audioData
      requires Valid()
      ensures |r| == channels && forall c :: 0 <= c < channels ==> |r[c]| == totalLength
      ensures forall c, j :: 0 <= c < channels && 0 <= j < totalLength ==> r[c][j] == audioData[c, j]
    {
      seq(channels, c requires 0 <= c < channels reads audioData =>
        seq(totalLength, j requires 0 <= j < totalLength reads audioData => audioData[c, j]))
    }

    /** The stored samples after the first f of `numSamples` samples have been written from slot p0 on. */
    ghost predicate Written(source: array2<real>, sourceStartSample: nat, p0: nat, f: nat, initial: seq<seq<real>>)
      reads this, audioData, source
      requires Valid() && p0 < totalLength && source.Length0 >= channels && sourceStartSample + f <= source.Length1
      requires |initial| == channels && forall c :: 0 <= c < channels ==> |initial[c]| == totalLength
    {
      forall c, j :: 0 <= c < channels && 0 <= j < totalLength ==>
        audioData[c, j] == if Distance(p0, j, totalLength) < f
                           then source[c, sourceStartSample + Distance(p0, j, totalLength)]
                           else initial[c][j]
    }

    /** One pass of the AddSamples loop, with the placement of the samples tracked when `tracked` holds. */
    method WriteWindowChunk(source: array2<real>, sourceStartSample: nat, f: nat, count: nat,
                            ghost p0: nat, ghost initial: seq<seq<real>>, ghost tracked: bool)
      requires Valid() && source != audioData
      requires source.Length0 >= channels && sourceStartSample + f + count <= source.Length1
      requires currentPosition + count <= totalLength
      requires tracked ==> p0 < totalLength && f + count <= totalLength && currentPosition == WrapOnce(p0 + f, totalLength)
      requires tracked ==> |initial| == channels && forall c :: 0 <= c < channels ==> |initial[c]| == totalLength
      requires tracked ==> Written(source, sourceStartSample, p0, f, initial)
      modifies audioData
      ensures tracked ==> Written(source, sourceStartSample, p0, f + count, initial)
    {
      WriteChunk(source, sourceStartSample + f, count);
      if tracked {
        forall c, j | 0 <= c < channels && 0 <= j < totalLength
          ensures audioData[c, j] == if Distance(p0, j, totalLength) < f + count
                                     then source[c, sourceStartSample + Distance(p0, j, totalLength)]
                                     else initial[c][j]
        {
          DistanceInChunk(p0, f, count, totalLength, currentPosition, j);
        }
      }
    }

    /**
     * One pass of the AddSamples loop: copies the next chunk (up to the
     * end of the storage, the end of the block and the samples left),
     * advances both counters, and fires the callback when the block is
     * complete.  `fired` is what it added to the event log.
     */
    method AddChunk(source: array2<real>, sourceStartSample: nat, samplesFinished: nat, samplesLeft: nat, processed: nat,
                    ghost p0: nat, ghost s0: nat, ghost initial: seq<seq<real>>, ghost tracked: bool)
      returns (copied: nat, processedAfter: nat, ghost fired: seq<FullBuffer>)
      requires Valid() && source != audioData && samplesLeft > 0
      requires source.Length0 >= channels && sourceStartSample + samplesFinished + samplesLeft <= source.Length1
      requires p0 < totalLength && s0 < length
      requires currentPosition == (p0 + samplesFinished) % totalLength
      requires samplesInBuffer == (s0 + samplesFinished) % length
      requires processed == if s0 + samplesFinished < length then samplesFinished else (s0 + samplesFinished) % length
      requires tracked ==> samplesFinished + samplesLeft <= totalLength && currentPosition == WrapOnce(p0 + samplesFinished, totalLength)
      requires tracked ==> |initial| == channels && forall c :: 0 <= c < channels ==> |initial[c]| == totalLength
      requires tracked ==> Written(source, sourceStartSample, p0, samplesFinished, initial)
      modifies this, audioData
      ensures Valid() && callbackSet == old(callbackSet) && 0 < copied <= samplesLeft
      ensures currentPosition == (p0 + samplesFinished + copied) % totalLength
      ensures samplesInBuffer == (s0 + samplesFinished + copied) % length
      ensures processedAfter == if s0 + samplesFinished + copied < length then samplesFinished + copied
                                else (s0 + samplesFinished + copied) % length
      ensures fullBuffers == old(fullBuffers) + fired
      ensures |fired| == if callbackSet then (s0 + samplesFinished + copied) / length - (s0 + samplesFinished) / length else 0
      ensures tracked ==> currentPosition == WrapOnce(p0 + samplesFinished + copied, totalLength)
      ensures tracked ==> Written(source, sourceStartSample, p0, samplesFinished + copied, initial)
    {
      copied := length - samplesInBuffer;
      var copied2 := totalLength - currentPosition;
      if copied2 < copied {
        copied := copied2;
      }
      if copied > samplesLeft {
        copied := samplesLeft;
      }
      WriteWindowChunk(source, sourceStartSample, samplesFinished, copied, p0, initial, tracked);
      if tracked {
        AdvanceWrap(p0, samplesFinished, copied, totalLength, currentPosition);
      }
      DivModStep(s0 + samplesFinished, copied, length);
      ProcessedStep(s0, samplesFinished, copied, length, processed);
      ModAddStep(p0 + samplesFinished, copied, totalLength);
      var inBuffer := samplesInBuffer + copied;
      processedAfter := processed + copied;
      var bufferFull := inBuffer == length;
      RemainderUpToDivisor(inBuffer, length);
      samplesInBuffer := inBuffer % length;
      currentPosition := (currentPosition + copied) % totalLength;
      fired := [];
      if bufferFull {
        TriggerFullBuffer(sourceStartSample + samplesFinished, processedAfter);
        if callbackSet {
          fired := [FullBuffer(sourceStartSample + samplesFinished, processedAfter)];
        }
        processedAfter := 0;
      }
    }

    /**
     * Appends `numSamples` samples of every channel of `source`, from
     * `sourceStartSample` on.  The copy proceeds in chunks that stop at
     * the end of the storage and at the end of a block; each completed
     * block fires the callback with the samples processed since the last
     * one.  Returns the samples processed since the last callback, or all
     * of them when none fired.
     */
    method AddSamples(source: array2<real>, sourceStartSample: nat, numSamples: nat) returns (processed: nat)
      requires Valid() && source != audioData
      requires source.Length0 >= channels && sourceStartSample + numSamples <= source.Length1
      modifies this, audioData
      ensures Valid() && callbackSet == old(callbackSet)
      ensures currentPosition == (old(currentPosition) + numSamples) % totalLength
      ensures samplesInBuffer == (old(samplesInBuffer) + numSamples) % length
      ensures callbackSet ==> old(fullBuffers) <= fullBuffers
      ensures callbackSet ==> |fullBuffers| == |old(fullBuffers)| + (old(samplesInBuffer) + numSamples) / length
      ensures !callbackSet ==> fullBuffers == old(fullBuffers)
      ensures processed == if old(samplesInBuffer) + numSamples < length then numSamples
                           else (old(samplesInBuffer) + numSamples) % length
      ensures numSamples <= totalLength ==> forall c, j :: 0 <= c < channels && 0 <= j < totalLength ==>
        audioData[c, j] == if Distance(old(currentPosition), j, totalLength) < numSamples
                           then source[c, sourceStartSample + Distance(old(currentPosition), j, totalLength)]
                           else old(audioData[c, j])
    {
      ghost var p0 := currentPosition;
      ghost var s0 := samplesInBuffer;
      ghost var initial := Rows();
      ghost var tracked := numSamples <= totalLength;
      UniqueDivision(p0, totalLength, 0, p0);
      UniqueDivision(s0, length, 0, s0);
      var samplesLeft: nat := numSamples;
      var samplesFinished: nat := 0;
      processed := 0;
      ghost var added: seq<FullBuffer> := [];
      while samplesLeft > 0
        invariant Valid() && callbackSet == old(callbackSet)
        invariant samplesFinished + samplesLeft == numSamples
        invariant currentPosition == (p0 + samplesFinished) % totalLength
        invariant samplesInBuffer == (s0 + samplesFinished) % length
        invariant fullBuffers == old(fullBuffers) + added
        invariant |added| == if callbackSet then (s0 + samplesFinished) / length else 0
        invariant processed == if s0 + samplesFinished < length then samplesFinished else (s0 + samplesFinished) % length
        invariant tracked ==> currentPosition == WrapOnce(p0 + samplesFinished, totalLength)
        invariant tracked ==> Written(source, sourceStartSample, p0, samplesFinished, initial)
        decreases samplesLeft
      {
        var copied;
        ghost var fired;
        copied, processed, fired := AddChunk(source, sourceStartSample, samplesFinished, samplesLeft, processed, p0, s0, initial, tracked);
        added := added + fired;
        samplesLeft := samplesLeft - copied;
        samplesFinished := samplesFinished + copied;
      }
    }

    /** One chunk of the read loop: `count` samples of every channel from slot `start` on. */
    method ReadChunk(destination: array2<real>, destStart: nat, start: nat, count: nat)
      requires Valid() && destination != audioData
      requires destination.Length0 >= channels && destStart + count <= destination.Length1
      requires start + count <= totalLength
      modifies destination
      ensures forall c, i :: 0 <= c < destination.Length0 && 0 <= i < destination.Length1 ==>
        destination[c, i] == if c < channels && destStart <= i < destStart + count
                             then audioData[c, start + i - destStart] else old(destination[c, i])
    {
      var channel := 0;
      while channel < channels
        invariant 0 <= channel <= channels
        invariant forall c, i :: 0 <= c < destination.Length0 && 0 <= i < destination.Length1 ==>
          destination[c, i] == if c < channel && destStart <= i < destStart + count
                               then audioData[c, start + i - destStart] else old(destination[c, i])
      {
        var k := 0;
        while k < count
          invariant 0 <= k <= count
          invariant forall c, i :: 0 <= c < destination.Length0 && 0 <= i < destination.Length1 ==>
            destination[c, i] == if (c < channel && destStart <= i < destStart + count)
                                    || (c == channel && destStart <= i < destStart + k)
                                 then audioData[c, start + i - destStart] else old(destination[c, i])
        {
          destination[channel, destStart + k] := audioData[channel, start + k];
          k := k + 1;
        }
        channel := channel + 1;
      }
    }

    /** Sample i of a window of `count` samples read from slot `start` on, f of them already read, is the one GetSample names. */
    lemma CopiedSample(c: nat, count: nat, delay: nat, f: nat, start: nat, i: nat)
      requires Valid() && c < channels && count <= length && delay <= preDelay && f <= i < count
      requires start == WrapOnce(Slot(currentPosition, count + delay, totalLength) + f, totalLength)
      requires start + (i - f) < totalLength
      ensures audioData[c, start + (i - f)] == GetSample(c, count - i, delay)
    {
      ReadSlot(currentPosition, count + delay, totalLength, f, start, i);
      assert count - i + delay == count + delay - i;
    }

    /** One pass of the CopyToBuffer loop: samples f .. f + count - 1 of the window, read from slot `start` on. */
    method CopyWindowChunk(destination: array2<real>, destStartSample: nat, numSamples: nat, delay: nat, f: nat, start: nat, count: nat)
      requires Valid() && destination != audioData
      requires destination.Length0 >= channels && numSamples <= length && delay <= preDelay
      requires destStartSample + numSamples <= destination.Length1
      requires f + count <= numSamples && start + count <= totalLength
      requires start == WrapOnce(Slot(currentPosition, numSamples + delay, totalLength) + f, totalLength)
      requires forall c, k :: 0 <= c < channels && destStartSample <= k < destStartSample + f ==>
        destination[c, k] == GetSample(c, numSamples - (k - destStartSample), delay)
      modifies destination
      ensures forall c, k :: 0 <= c < channels && destStartSample <= k < destStartSample + f + count ==>
        destination[c, k] == GetSample(c, numSamples - (k - destStartSample), delay)
      ensures forall c, k ::
        (0 <= c < destination.Length0 && 0 <= k < destination.Length1 && !(c < channels && destStartSample + f <= k < destStartSample + f + count))
        ==> destination[c, k] == old(destination[c, k])
    {
      ReadChunk(destination, destStartSample + f, start, count);
      ChunkIsWindow(destination, destStartSample, numSamples, delay, f, start, count);
    }

    /** Samples read from slot `start` on are samples f .. f + count - 1 of the window. */
    lemma ChunkIsWindow(destination: array2<real>, destStartSample: nat, numSamples: nat, delay: nat, f: nat, start: nat, count: nat)
      requires Valid() && destination.Length0 >= channels && numSamples <= length && delay <= preDelay
      requires destStartSample + numSamples <= destination.Length1
      requires f + count <= numSamples && start + count <= totalLength
      requires start == WrapOnce(Slot(currentPosition, numSamples + delay, totalLength) + f, totalLength)
      requires forall c, k :: 0 <= c < channels && destStartSample + f <= k < destStartSample + f + count ==>
        destination[c, k] == audioData[c, start + k - (destStartSample + f)]
      ensures forall c, k :: 0 <= c < channels && destStartSample + f <= k < destStartSample + f + count ==>
        destination[c, k] == GetSample(c, numSamples - (k - destStartSample), delay)
    {
      forall c, k | 0 <= c < channels && destStartSample + f <= k < destStartSample + f + count
        ensures destination[c, k] == GetSample(c, numSamples - (k - destStartSample), delay)
      {
        assert destination[c, k] == audioData[c, start + (k - destStartSample - f)];
        CopiedSample(c, numSamples, delay, f, start, k - destStartSample);
      }
    }

    /** Copies the newest `numSamples` samples (ending `delay` samples back) of every channel, oldest first. */
    method CopyToBuffer(destination: array2<real>, destStartSample: nat, numSamples: nat, delay: nat)
      requires Valid() && destination != audioData
      requires destination.Length0 >= channels && numSamples <= length && delay <= preDelay
      requires destStartSample + numSamples <= destination.Length1
      modifies destination
      ensures forall c, k :: 0 <= c < channels && destStartSample <= k < destStartSample + numSamples ==>
        destination[c, k] == GetSample(c, numSamples - (k - destStartSample), delay)
      ensures forall c, k ::
        (0 <= c < destination.Length0 && 0 <= k < destination.Length1 && !(c < channels && destStartSample <= k < destStartSample + numSamples))
        ==> destination[c, k] == old(destination[c, k])
    {
      if numSamples == 0 {
        return;
      }
      var samplesLeft: nat := numSamples;
      var samplesFinished: nat := 0;
      var startPosition := Slot(currentPosition, numSamples + delay, totalLength);
      ghost var windowStart := startPosition;
      while samplesLeft > 0
        invariant samplesFinished + samplesLeft == numSamples
        invariant startPosition == WrapOnce(windowStart + samplesFinished, totalLength)
        invariant forall c, k :: 0 <= c < channels && destStartSample <= k < destStartSample + samplesFinished ==>
          destination[c, k] == GetSample(c, numSamples - (k - destStartSample), delay)
        invariant forall c, k ::
          (0 <= c < destination.Length0 && 0 <= k < destination.Length1 && !(c < channels && destStartSample <= k < destStartSample + samplesFinished))
          ==> destination[c, k] == old(destination[c, k])
        decreases samplesLeft
      {
        var samplesToCopy := totalLength - startPosition;
        if samplesToCopy > samplesLeft {
          samplesToCopy := samplesLeft;
        }
        CopyWindowChunk(destination, destStartSample, numSamples, delay, samplesFinished, startPosition, samplesToCopy);
        AdvanceWrap(windowStart, samplesFinished, samplesToCopy, totalLength, startPosition);
        startPosition := (startPosition + samplesToCopy) % totalLength;
        samplesLeft := samplesLeft - samplesToCopy;
        samplesFinished := samplesFinished + samplesToCopy;
      }
    }

    /**
     * The samples 0 .. count - 1 before the current position, `delay`
     * samples further back, in the order GetSample numbers them.
     */
    function Window(channel: nat, count: nat, delay: nat): (w: seq<real>)
      reads this, audioData
      requires Valid() && channel < channels && count <= length + 1 && delay <= preDelay
      ensures |w| == count
      ensures forall i :: 0 <= i < count ==> w[i] == GetSample(channel, i, delay)
    {
      seq(count, i requires 0 <= i < count && Valid() && channel < channels && count <= length + 1 && delay <= preDelay
                     reads this, audioData => GetSample(channel, i, delay))
    }

    /** The windows of every channel, in channel order. */
    function Windows(count: nat, delay: nat): (ws: seq<seq<real>>)
      reads this, audioData
      requires Valid() && count <= length + 1 && delay <= preDelay
      ensures |ws| == channels
      ensures forall c :: 0 <= c < channels ==> ws[c] == Window(c, count, delay)
    {
      seq(channels, c requires 0 <= c < channels && Valid() reads this, audioData => Window(c, count, delay))
    }

    /** The block CopyToBuffer hands over: the `count` samples up to `delay` samples back, oldest first. */
    ghost function Block(channel: nat, count: nat, delay: nat): (b: seq<real>)
      reads this, audioData
      requires Valid() && channel < channels && count <= length && delay <= preDelay
      ensures |b| == count
      ensures forall k :: 0 <= k < count ==> b[k] == GetSample(channel, count - k, delay)
    {
      seq(count, k requires 0 <= k < count && Valid() && channel < channels && count <= length && delay <= preDelay
                     reads this, audioData => GetSample(channel, count - k, delay))
    }

    /** The peak of the window: the largest absolute sample value, 0 for no samples. */
    method GetMagnitude(channel: nat, numSamples: nat, delay: nat) returns (magnitude: real)
      requires Valid() && channel < channels && numSamples <= length + 1 && delay <= preDelay
      ensures magnitude == MaxAbs(Window(channel, numSamples, delay))
    {
      ghost var window := Window(channel, numSamples, delay);
      magnitude := 0.0;
      var sample: nat := 0;
      while sample < numSamples
        invariant sample <= numSamples
        invariant magnitude == MaxAbs(window[..sample])
      {
        var value := Abs(GetSample(channel, sample, delay));
        assert window[..sample + 1] == window[..sample] + [GetSample(channel, sample, delay)];
        MaxAbsStep(window[..sample], GetSample(channel, sample, delay));
        if value > magnitude {
          magnitude := value;
        }
        sample := sample + 1;
      }
      assert window[..numSamples] == window;
    }

    /** The root mean square of the same window as GetMagnitude; undefined (C's 0 / 0) for no samples. */
    method GetRmsLevel(channel: nat, numSamples: nat, delay: nat, sqrt: Sqrt) returns (level: Option<real>)
      requires Valid() && channel < channels && numSamples <= length + 1 && delay <= preDelay
      ensures numSamples == 0 <==> level.None?
      ensures numSamples > 0 ==>
        level == Some(sqrt(Dot(Window(channel, numSamples, delay), Window(channel, numSamples, delay)) / numSamples as real))
    {
      ghost var window := Window(channel, numSamples, delay);
      var runningSum := 0.0;
      var sample := 0;
      while sample < numSamples
        invariant 0 <= sample <= numSamples
        invariant runningSum == Dot(window[..sample], window[..sample])
      {
        var value := GetSample(channel, sample, delay);
        assert window[..sample + 1] == window[..sample] + [value];
        DotStep(window[..sample], window[..sample], value, value);
        runningSum := runningSum + value * value;
        sample := sample + 1;
      }
      assert window[..numSamples] == window;
      if numSamples == 0 {
        level := None;
      } else {
        level := Some(sqrt(runningSum / numSamples as real));
      }
    }
  }
}
