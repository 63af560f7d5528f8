/** The common audio ring buffer (RingBuffer): a circular multi-channel
    sample store with an optional pre-delay, which reports every time a
    chunk of samples has been added, and wrapped reads of the samples
    behind the write position. */
module RingBuffer {

  import opened Arith

  /** Absolute value of a sample. */
  function Abs(x: real): (r: real)
    ensures r >= 0.0 && (r == x || r == -x)
  {
    if x < 0.0 then -x else x
  }

  /** The buffer index `getSample` reads for `offset`: the samples already
      written lie to the left of the write position `current`, the last
      `numberOfSamples` of them start at offset 0, and the pre-delay moves
      the window further back. */
  function ReadIndex(current: int, numberOfSamples: int, preDelay: int, offset: int, applyPreDelay: bool): (i: int)
    requires numberOfSamples > 0 && preDelay >= 0
    ensures 0 <= i < numberOfSamples + preDelay
  {
    (current - numberOfSamples + offset - (if applyPreDelay then preDelay else 0)) % (numberOfSamples + preDelay)
  }

  /** Whether buffer index `i` is one of the `count` indices written from
      `start` onwards (wrapping around), and which of them. */
  function WrittenOffset(start: int, total: int, i: int): (k: int)
    requires total > 0
    ensures 0 <= k < total
  {
    (i - start) % total
  }

  /** The number of samples one pass of `addSamples` copies: it stops at
      the end of the input, at a full chunk and at the end of the buffer. */
  function PassSize(unprocessedSamples: int, samplesToFilledChunk: int, samplesToBufferWrap: int): (n: int)
    ensures n <= unprocessedSamples && n <= samplesToFilledChunk && n <= samplesToBufferWrap
    ensures n == unprocessedSamples || n == samplesToFilledChunk || n == samplesToBufferWrap
  {
    var m := if unprocessedSamples < samplesToFilledChunk then unprocessedSamples else samplesToFilledChunk;
    if m < samplesToBufferWrap then m else samplesToBufferWrap
  }

  /** As written, the constructor accepts a chunk size of 0; a pass then
      copies nothing whatever is left to copy, so `addSamples` never
      finishes (and runs the callback on every pass). */
  lemma ZeroChunkMakesNoProgress(unprocessedSamples: int, samplesToBufferWrap: int)
    requires unprocessedSamples > 0 && samplesToBufferWrap > 0
    ensures PassSize(unprocessedSamples, 0, samplesToBufferWrap) == 0
    ensures unprocessedSamples - PassSize(unprocessedSamples, 0, samplesToBufferWrap) == unprocessedSamples
  {
  }

  /** One pass of `addSamples` in index terms: the indices it writes are
      exactly the next ones in the wrapped sequence of written offsets. */
  lemma PassWindow(start: int, total: int, processed: int, position: int, count: int, i: int)
    requires total > 0 && 0 <= start < total && 0 <= i < total
    requires 0 <= processed && processed + count <= total && 0 <= count
    requires position == (start + processed) % total
    requires position + count <= total
    ensures processed <= WrittenOffset(start, total, i) < processed + count <==> position <= i < position + count
    ensures position <= i < position + count ==> WrittenOffset(start, total, i) == processed + (i - position)
  {
    if position <= i < position + count {
      PassWindowInside(start, total, processed, position, count, i);
    }
    if processed <= WrittenOffset(start, total, i) < processed + count {
      PassWindowOffset(start, total, processed, position, count, i);
    }
  }

  /** An index in the pass's window has the matching written offset. */
  lemma {:induction false} PassWindowInside(start: int, total: int, processed: int, position: int, count: int, i: int)
    requires total > 0 && 0 <= start < total
    requires position == (start + processed) % total
    requires position <= i < position + count && processed + (i - position) < total
    requires 0 <= processed + (i - position)
    ensures WrittenOffset(start, total, i) == processed + (i - position)
  {
    var q := (start + processed) / total;
    assert start + processed == total * q + position;
    assert i - start == total * (-q) + (processed + (i - position));
    ModuloUnique(i - start, total, -q, processed + (i - position));
  }

  /** An index whose written offset falls in the pass lies in its window. */
  lemma {:induction false} PassWindowOffset(start: int, total: int, processed: int, position: int, count: int, i: int)
    requires total > 0 && 0 <= i < total
    requires 0 <= processed && position + count <= total
    requires position == (start + processed) % total
    requires processed <= WrittenOffset(start, total, i) < processed + count
    ensures position <= i < position + count
  {
    var q := (start + processed) / total;
    assert start + processed == total * q + position;
    var d := WrittenOffset(start, total, i);
    var q2 := (i - start) / total;
    assert i - start == total * q2 + d;
    var j := position + (d - processed);
    assert i == total * (q2 + q) + j by {
      assert total * (q2 + q) == total * q2 + total * q;
    }
    ModuloUnique(i, total, q2 + q, j);
    ModuloUnique(i, total, 0, i);
  }

  /** Adding `count` samples to a chunk that is `filled` samples full, where
      the count does not overshoot the chunk. */
  lemma {:induction false} ChunkStep(before: int, chunkSize: int, count: int)
    requires chunkSize > 0 && before >= 0 && count >= 0
    requires before % chunkSize + count <= chunkSize
    ensures (before + count) % chunkSize ==
      if before % chunkSize + count == chunkSize then 0 else before % chunkSize + count
    ensures (before + count) / chunkSize ==
      if before % chunkSize + count == chunkSize then before / chunkSize + 1 else before / chunkSize
  {
    var q, r := before / chunkSize, before % chunkSize;
    assert before == chunkSize * q + r;
    if r + count == chunkSize {
      assert before + count == chunkSize * (q + 1) + 0 by {
        assert chunkSize * (q + 1) == chunkSize * q + chunkSize;
      }
      ModuloUnique(before + count, chunkSize, q + 1, 0);
    } else {
      ModuloUnique(before + count, chunkSize, q, r + count);
    }
  }

  /** One pass of `addSamples` on the chunk counter: `toFilled` samples
      were missing from the current chunk and `count` of them arrive; the
      counter restarts at a full chunk exactly when the chunk is filled,
      and the number of filled chunks then grows by one. */
  lemma {:induction false} ChunkAdvance(filledBefore: int, processed: int, chunkSize: int, toFilled: int, count: int)
    requires chunkSize > 0 && filledBefore >= 0 && processed >= 0
    requires 0 < toFilled <= chunkSize && 0 <= count <= toFilled
    requires chunkSize - toFilled == (filledBefore + processed) % chunkSize
    ensures var left := if toFilled - count == 0 then chunkSize else toFilled - count;
      chunkSize - left == (filledBefore + processed + count) % chunkSize
    ensures (filledBefore + processed + count) / chunkSize
      == (filledBefore + processed) / chunkSize + (if toFilled - count == 0 then 1 else 0)
  {
    ChunkStep(filledBefore + processed, chunkSize, count);
  }

  /** Advancing a wrapped position by `count` is wrapping the advanced
      unwrapped position. */
  lemma {:induction false} WrapStep(start: int, processed: int, total: int, count: int)
    requires total > 0
    ensures ((start + processed) % total + count) % total == (start + processed + count) % total
  {
    var q := (start + processed) / total;
    assert start + processed == total * q + (start + processed) % total;
    ModuloShift((start + processed) % total + count, start + processed + count, total, q);
  }

  /** Two positions that wrap to the same index still do so after both
      advance by `k`. */
  lemma {:induction false} ShiftSame(a: int, b: int, total: int, k: int)
    requires total > 0 && a % total == b % total
    ensures (a + k) % total == (b + k) % total
  {
    var qa, qb := a / total, b / total;
    assert a == total * qa + a % total && b == total * qb + b % total;
    assert a + k == b + k - total * (qb - qa) by {
      assert total * (qb - qa) == total * qb - total * qa;
    }
    ModuloShift(a + k, b + k, total, qb - qa);
  }

  /** The k-th index after `start`, wrapped into a buffer of `total` samples. */
  function WrapIndex(start: int, total: int, k: int): (i: int)
    requires total > 0
    ensures 0 <= i < total
  {
    (start + k) % total
  }

  /** One pass of `getSamples` in index terms: the `count` samples after
      the `processed` ones sit contiguously from `position` on. */
  lemma {:induction false} ReadPass(start: int, processed: int, total: int, position: int, count: int, k: int)
    requires total > 0 && 0 <= count && position + count <= total
    requires position == (start + processed) % total
    requires processed <= k < processed + count
    ensures WrapIndex(start, total, k) == position + (k - processed)
  {
    var q := (start + processed) / total;
    assert start + processed == total * q + position;
    assert start + k == total * q + (position + (k - processed));
    ModuloUnique(start + k, total, q, position + (k - processed));
  }

  /** After `addSamples` wrote `count` samples from `start`, `getSample`
      without pre-delay finds the k-th of them at offset
      `numberOfSamples - count + k`: the newest sample is at the last
      offset below `numberOfSamples`. */
  lemma {:induction false} AddThenGetSample(start: int, numberOfSamples: int, preDelay: int, count: int, k: int)
    requires numberOfSamples > 0 && preDelay >= 0
    requires 0 <= start < numberOfSamples + preDelay
    requires 0 <= count <= numberOfSamples && 0 <= k < count
    ensures var total := numberOfSamples + preDelay;
      WrittenOffset(start, total, ReadIndex((start + count) % total, numberOfSamples, preDelay, numberOfSamples - count + k, false)) == k
  {
    var total := numberOfSamples + preDelay;
    var current := (start + count) % total;
    var q := (start + count) / total;
    assert start + count == total * q + current;
    var x := current - numberOfSamples + (numberOfSamples - count + k);
    assert x == start + k - total * q;
    ModuloShift(x, start + k, total, q);
    var index := ReadIndex(current, numberOfSamples, preDelay, numberOfSamples - count + k, false);
    assert index == (start + k) % total;
    var q2 := (start + k) / total;
    assert start + k == total * q2 + index;
    ModuloShift(index - start, k, total, q2);
    ModuloUnique(k, total, 0, k);
  }

  /** Reading with the pre-delay applied reads what was read without it
      when the write position stood `preDelay` samples earlier. */
  lemma {:induction false} PreDelayDelays(current: int, numberOfSamples: int, preDelay: int, offset: int)
    requires numberOfSamples > 0 && preDelay >= 0
    ensures ReadIndex(current, numberOfSamples, preDelay, offset, true)
      == ReadIndex((current - preDelay) % (numberOfSamples + preDelay), numberOfSamples, preDelay, offset, false)
  {
    var total := numberOfSamples + preDelay;
    ShiftSame((current - preDelay) % total, current - preDelay, total, offset - numberOfSamples);
  }

  /** With the pre-delay applied, the samples behind the write position
      start at the write position itself: the oldest sample in the buffer. */
  lemma {:induction false} DelayedWindowStartsAtWritePosition(current: int, numberOfSamples: int, preDelay: int, offset: int)
    requires numberOfSamples > 0 && preDelay >= 0
    ensures ReadIndex(current, numberOfSamples, preDelay, offset, true) == (current + offset) % (numberOfSamples + preDelay)
  {
    var total := numberOfSamples + preDelay;
    ModuloShift(current - numberOfSamples + offset - preDelay, current + offset, total, 1);
  }

  class RingBuffer {
    const numberOfChannels: int
    const numberOfSamples: int
    const preDelay: int
    const totalLength: int
    const chunkSize: int
    /** Samples indexed [channel, position]; the source's padding guard
        samples around each channel are not part of the model. */
    const audioData: array2<real>

    var currentPosition: int
    var samplesToFilledChunk: int
    var hasCallback: bool

    ghost predicate Valid()
      reads this
    {
      && numberOfChannels > 0 && numberOfSamples > 0 && preDelay >= 0
      && totalLength == numberOfSamples + preDelay
      && 0 <= chunkSize <= numberOfSamples
      && audioData.Length0 == numberOfChannels && audioData.Length1 == totalLength
      && 0 <= currentPosition < totalLength
      && 0 <= samplesToFilledChunk <= chunkSize
      && (chunkSize > 0 ==> samplesToFilledChunk > 0)
    }

    /** The constructor: a silent buffer without callback, written from
        position 0, expecting a whole chunk. */
    constructor (numberOfChannels: int, numberOfSamples: int, preDelay: int, chunkSize: int)
      requires numberOfChannels > 0 && numberOfSamples > 0 && preDelay >= 0
      requires 0 <= chunkSize <= numberOfSamples
      ensures Valid() && fresh(audioData)
      ensures this.numberOfChannels == numberOfChannels && this.numberOfSamples == numberOfSamples
      ensures this.preDelay == preDelay && this.chunkSize == chunkSize
      ensures currentPosition == 0 && samplesToFilledChunk == chunkSize && !hasCallback
      ensures forall ch, i :: 0 <= ch < numberOfChannels && 0 <= i < totalLength ==> audioData[ch, i] == 0.0
    {
      this.numberOfChannels := numberOfChannels;
      this.numberOfSamples := numberOfSamples;
      this.preDelay := preDelay;
      totalLength := numberOfSamples + preDelay;
      this.chunkSize := chunkSize;
      audioData := new real[numberOfChannels, numberOfSamples + preDelay]((ch, i) => 0.0);
      currentPosition := 0;
      samplesToFilledChunk := chunkSize;
      hasCallback := false;
    }

    /** `clear`: writing restarts at position 0 with a whole chunk to fill,
        and every sample of every channel is zero. */
    method Clear()
      requires Valid()
      modifies this, audioData
      ensures Valid() && hasCallback == old(hasCallback)
      ensures currentPosition == 0 && samplesToFilledChunk == chunkSize
      ensures forall ch, i :: 0 <= ch < numberOfChannels && 0 <= i < totalLength ==> audioData[ch, i] == 0.0
    {
      currentPosition := 0;
      samplesToFilledChunk := chunkSize;
      var channel := 0;
      while channel < numberOfChannels
        modifies audioData
        invariant 0 <= channel <= numberOfChannels
        invariant forall ch, i :: 0 <= ch < channel && 0 <= i < totalLength ==> audioData[ch, i] == 0.0
      {
        var sample := 0;
        while sample < totalLength
          modifies audioData
          invariant 0 <= sample <= totalLength
          invariant forall ch, i :: 0 <= ch < channel && 0 <= i < totalLength ==> audioData[ch, i] == 0.0
          invariant forall i :: 0 <= i < sample ==> audioData[channel, i] == 0.0
        {
          audioData[channel, sample] := 0.0;
          sample := sample + 1;
        }
        channel := channel + 1;
      }
    }

    /** `setCallbackClass`: whether a chunk processor is attached. */
    method SetCallbackClass(attached: bool)
      modifies this
      ensures hasCallback == attached
      ensures currentPosition == old(currentPosition) && samplesToFilledChunk == old(samplesToFilledChunk)
    {
      hasCallback := attached;
    }

    /** `getCurrentPosition`: where the next sample will be written. */
    function GetCurrentPosition(): (p: int)
      reads this
      requires Valid()
      ensures 0 <= p < numberOfSamples + preDelay && p == currentPosition
    {
      currentPosition
    }

    /** The per-channel `memcpy` of one pass: `count` samples of every
        source channel, from `sourceStart` on, land at `position` onwards. */
    method CopyIn(source: seq<seq<real>>, sourceStart: int, position: int, count: int)
      requires Valid()
      requires |source| == numberOfChannels
      requires 0 <= position && 0 <= count && position + count <= totalLength
      requires 0 <= sourceStart && forall ch :: 0 <= ch < |source| ==> sourceStart + count <= |source[ch]|
      modifies audioData
      ensures forall ch, i :: 0 <= ch < numberOfChannels && 0 <= i < totalLength ==>
        audioData[ch, i] ==
          if position <= i < position + count then source[ch][sourceStart + (i - position)]
          else old(audioData[ch, i])
    {
      var channel := 0;
      while channel < numberOfChannels
        invariant 0 <= channel <= numberOfChannels
        invariant forall ch, i :: 0 <= ch < numberOfChannels && 0 <= i < totalLength ==>
          audioData[ch, i] ==
            if ch < channel && position <= i < position + count then source[ch][sourceStart + (i - position)]
            else old(audioData[ch, i])
      {
        var sample := 0;
        while sample < count
          invariant 0 <= sample <= count
          invariant forall ch, i :: 0 <= ch < numberOfChannels && 0 <= i < totalLength ==>
            audioData[ch, i] ==
              if (ch < channel && position <= i < position + count)
                || (ch == channel && position <= i < position + sample)
              then source[ch][sourceStart + (i - position)]
              else old(audioData[ch, i])
        {
          audioData[channel, position + sample] := source[channel][sourceStart + sample];
          sample := sample + 1;
        }
        channel := channel + 1;
      }
    }

    /** The samples of every channel, as values. */
    ghost function Channels(): (s: seq<seq<real>>)
      requires Valid()
      reads this, audioData
      ensures |s| == numberOfChannels
      ensures forall ch :: 0 <= ch < |s| ==> |s[ch]| == totalLength
      ensures forall ch, i :: 0 <= ch < numberOfChannels && 0 <= i < totalLength ==> s[ch][i] == audioData[ch, i]
    {
      seq(numberOfChannels, ch requires 0 <= ch < audioData.Length0 reads audioData =>
        seq(audioData.Length1, i requires 0 <= i < audioData.Length1 reads audioData => audioData[ch, i]))
    }

    /** One pass of `addSamples`: the next `count` samples after the
        `processed` ones already copied go to the next `count` buffer
        indices after `start`, which begin at `position` and do not wrap;
        everything else still holds what `orig` held or what earlier
        passes wrote. */
    method CopyPass(source: seq<seq<real>>, sourceStart: int, ghost start: int, processed: int, position: int, count: int,
                    ghost orig: seq<seq<real>>)
      requires Valid()
      requires |source| == numberOfChannels
      requires 0 <= start < totalLength && 0 <= processed && 0 <= count && processed + count <= totalLength
      requires position == (start + processed) % totalLength && position + count <= totalLength
      requires 0 <= sourceStart && forall ch :: 0 <= ch < |source| ==> sourceStart + processed + count <= |source[ch]|
      requires |orig| == numberOfChannels && forall ch :: 0 <= ch < |orig| ==> |orig[ch]| == totalLength
      requires forall ch, i :: 0 <= ch < numberOfChannels && 0 <= i < totalLength ==>
        audioData[ch, i] ==
          if WrittenOffset(start, totalLength, i) < processed
          then source[ch][sourceStart + WrittenOffset(start, totalLength, i)]
          else orig[ch][i]
      modifies audioData
      ensures forall ch, i :: 0 <= ch < numberOfChannels && 0 <= i < totalLength ==>
        audioData[ch, i] ==
          if WrittenOffset(start, totalLength, i) < processed + count
          then source[ch][sourceStart + WrittenOffset(start, totalLength, i)]
          else orig[ch][i]
    {
      CopyIn(source, sourceStart + processed, position, count);
      forall i | 0 <= i < totalLength
        ensures processed <= WrittenOffset(start, totalLength, i) < processed + count <==> position <= i < position + count
        ensures position <= i < position + count ==> WrittenOffset(start, totalLength, i) == processed + (i - position)
      {
        PassWindow(start, totalLength, processed, position, count, i);
      }
    }

    /** The loop that adds the buffer length to a negative position, as in
        `getSample`, `getSamples` and `getMagnitude`: the result is not
        negative and wraps to the same index. */
    method MakeNonNegative(position: int) returns (p: int)
      requires Valid()
      ensures p >= 0 && p % totalLength == position % totalLength
      ensures position >= 0 ==> p == position
      ensures position < 0 ==> p < totalLength
    {
      p := position;
      ghost var turns := 0;
      while p < 0
        invariant p == position + totalLength * turns && turns >= 0
        invariant position < 0 ==> p < totalLength
        invariant position >= 0 ==> p == position
        decreases -p
      {
        p := p + totalLength;
        turns := turns + 1;
      }
      ModuloShift(position, p, totalLength, turns);
    }

    /** `getSample`: the sample of `channel` at `offset` behind the write
        position, optionally delayed by the pre-delay. */
    method GetSample(channel: int, offset: int, applyPreDelay: bool) returns (sampleValue: real)
      requires Valid()
      requires 0 <= channel < numberOfChannels
      requires 0 <= offset <= numberOfSamples
      ensures sampleValue == audioData[channel, ReadIndex(currentPosition, numberOfSamples, preDelay, offset, applyPreDelay)]
    {
      var position := currentPosition - numberOfSamples + offset;
      if applyPreDelay {
        position := position - preDelay;
      }
      position := MakeNonNegative(position);
      position := position % totalLength;
      sampleValue := audioData[channel, position];
    }

    /** The per-channel `memcpy` of one pass of `getSamples`. */
    method CopyOut(destination: array2<real>, destOffset: int, position: int, count: int)
      requires Valid()
      requires destination != audioData && destination.Length0 == numberOfChannels
      requires 0 <= position && 0 <= count && position + count <= totalLength
      requires 0 <= destOffset && destOffset + count <= destination.Length1
      modifies destination
      ensures forall ch, j :: 0 <= ch < numberOfChannels && 0 <= j < destination.Length1 ==>
        destination[ch, j] ==
          if destOffset <= j < destOffset + count then audioData[ch, position + (j - destOffset)]
          else old(destination[ch, j])
    {
      var channel := 0;
      while channel < numberOfChannels
        invariant 0 <= channel <= numberOfChannels
        invariant forall ch, j :: 0 <= ch < numberOfChannels && 0 <= j < destination.Length1 ==>
          destination[ch, j] ==
            if ch < channel && destOffset <= j < destOffset + count then audioData[ch, position + (j - destOffset)]
            else old(destination[ch, j])
      {
        var sample := 0;
        while sample < count
          invariant 0 <= sample <= count
          invariant forall ch, j :: 0 <= ch < numberOfChannels && 0 <= j < destination.Length1 ==>
            destination[ch, j] ==
              if (ch < channel && destOffset <= j < destOffset + count)
                || (ch == channel && destOffset <= j < destOffset + sample)
              then audioData[ch, position + (j - destOffset)]
              else old(destination[ch, j])
        {
          destination[channel, destOffset + sample] := audioData[channel, position + sample];
          sample := sample + 1;
        }
        channel := channel + 1;
      }
    }

    /** One pass of `getSamples`: the `count` samples after the `processed`
        ones, which lie contiguously from `position`, are copied out. */
    method CopyOutPass(destination: array2<real>, destStartSample: int, start: int, processed: int, position: int, count: int)
      requires Valid()
      requires destination != audioData && destination.Length0 == numberOfChannels
      requires 0 <= processed && 0 <= count && 0 <= position && position + count <= totalLength
      requires position == (start + processed) % totalLength
      requires 0 <= destStartSample && destStartSample + processed + count <= destination.Length1
      modifies destination
      ensures forall ch, j :: 0 <= ch < numberOfChannels && 0 <= j < destination.Length1 ==>
        destination[ch, j] ==
          if destStartSample + processed <= j < destStartSample + processed + count
          then audioData[ch, WrapIndex(start, totalLength, j - destStartSample)]
          else old(destination[ch, j])
    {
      CopyOut(destination, destStartSample + processed, position, count);
      forall k | processed <= k < processed + count
        ensures WrapIndex(start, totalLength, k) == position + (k - processed)
      {
        ReadPass(start, processed, totalLength, position, count, k);
      }
    }

    /** `getSamples`: the last `count` samples behind the write position
        (optionally delayed by the pre-delay), oldest first, are copied to
        `destination` from `destStartSample` on; the k-th of them is what
        `getSample` returns for offset `numberOfSamples - count + k`. */
    method GetSamples(destination: array2<real>, destStartSample: int, count: int, applyPreDelay: bool)
      requires Valid()
      requires destination != audioData && destination.Length0 == numberOfChannels
      requires 0 <= count <= numberOfSamples
      requires 0 <= destStartSample && destStartSample + count <= destination.Length1
      modifies destination
      ensures forall ch, j :: 0 <= ch < numberOfChannels && 0 <= j < destination.Length1 ==>
        destination[ch, j] ==
          if destStartSample <= j < destStartSample + count
          then audioData[ch, ReadIndex(currentPosition, numberOfSamples, preDelay,
                                       numberOfSamples - count + (j - destStartSample), applyPreDelay)]
          else old(destination[ch, j])
    {
      var start := currentPosition - count - (if applyPreDelay then preDelay else 0);
      var position := currentPosition - count;
      if applyPreDelay {
        position := position - preDelay;
      }
      position := MakeNonNegative(position);
      position := position % totalLength;
      ModuloUnique(0, totalLength, 0, 0);
      CopyOutWrapped(destination, destStartSample, start, position, count);
      forall k | 0 <= k < count
        ensures WrapIndex(start, totalLength, k)
                == ReadIndex(currentPosition, numberOfSamples, preDelay, numberOfSamples - count + k, applyPreDelay)
      {
        assert start + k == currentPosition - numberOfSamples + (numberOfSamples - count + k)
                            - (if applyPreDelay then preDelay else 0);
      }
    }

    /** The copy loop of `getSamples`: `count` samples from the wrapped
        index `start` on, in passes that stop at the end of the buffer. */
    method CopyOutWrapped(destination: array2<real>, destStartSample: int, start: int, position: int, count: int)
      requires Valid()
      requires destination != audioData && destination.Length0 == numberOfChannels
      requires 0 <= count && 0 <= position < totalLength && position == start % totalLength
      requires 0 <= destStartSample && destStartSample + count <= destination.Length1
      modifies destination
      ensures forall ch, j :: 0 <= ch < numberOfChannels && 0 <= j < destination.Length1 ==>
        destination[ch, j] ==
          if destStartSample <= j < destStartSample + count
          then audioData[ch, WrapIndex(start, totalLength, j - destStartSample)]
          else old(destination[ch, j])
    {
      var processedSamples := 0;
      var unprocessedSamples := count;
      var position := position;
      while unprocessedSamples > 0
        invariant 0 <= processedSamples <= count && unprocessedSamples == count - processedSamples
        invariant 0 <= position < totalLength && position == (start + processedSamples) % totalLength
        invariant forall ch, j :: 0 <= ch < numberOfChannels && 0 <= j < destination.Length1 ==>
          destination[ch, j] ==
            if destStartSample <= j < destStartSample + processedSamples
            then audioData[ch, WrapIndex(start, totalLength, j - destStartSample)]
            else old(destination[ch, j])
        decreases unprocessedSamples
      {
        var samplesToBufferWrap := totalLength - position;
        var samplesToCopy := if unprocessedSamples < samplesToBufferWrap then unprocessedSamples else samplesToBufferWrap;
        CopyOutPass(destination, destStartSample, start, processedSamples, position, samplesToCopy);
        WrapStep(start, processedSamples, totalLength, samplesToCopy);
        position := (position + samplesToCopy) % totalLength;
        processedSamples := processedSamples + samplesToCopy;
        unprocessedSamples := unprocessedSamples - samplesToCopy;
      }
    }

    /** The absolute value of the sample `getSample` returns for `channel`
        and `offset` with the pre-delay applied. */
    function MagnitudeAt(channel: int, offset: int): (r: real)
      reads this, audioData
      requires Valid() && 0 <= channel < numberOfChannels
      ensures r >= 0.0
    {
      Abs(audioData[channel, ReadIndex(currentPosition, numberOfSamples, preDelay, offset, true)])
    }

    /** `getMagnitude`: the largest absolute value among the first `count`
        samples of `channel` behind the write position with the pre-delay
        applied (0 when `count` is 0). */
    method GetMagnitude(channel: int, count: int) returns (magnitude: real)
      requires Valid()
      requires 0 <= channel < numberOfChannels
      requires 0 <= count <= numberOfSamples
      ensures magnitude >= 0.0
      ensures forall k :: 0 <= k < count ==> MagnitudeAt(channel, k) <= magnitude
      ensures magnitude == 0.0 || exists k :: 0 <= k < count && magnitude == MagnitudeAt(channel, k)
    {
      var bufferStart := currentPosition - numberOfSamples;
      bufferStart := bufferStart - preDelay;
      bufferStart := MakeNonNegative(bufferStart);
      magnitude := 0.0;
      var sample := 0;
      while sample < count
        invariant 0 <= sample <= count
        invariant magnitude >= 0.0
        invariant forall k :: 0 <= k < sample ==> MagnitudeAt(channel, k) <= magnitude
        invariant magnitude == 0.0 || exists k :: 0 <= k < sample && magnitude == MagnitudeAt(channel, k)
      {
        var position := (bufferStart + sample) % totalLength;
        ShiftSame(bufferStart, currentPosition - numberOfSamples - preDelay, totalLength, sample);
        var amplitude := audioData[channel, position];
        if amplitude < 0.0 {
          amplitude := -amplitude;
        }
        assert amplitude == MagnitudeAt(channel, sample);
        magnitude := if magnitude < amplitude then amplitude else magnitude;
        sample := sample + 1;
      }
    }

    /** `addSamples`: the `numberOfSamples` samples of every source channel
        from `sourceStart` on are written from the write position onwards,
        wrapping around; the write position moves past them; the chunk
        counter advances by the same number, and the callback fires once
        for every chunk that became full. Returns how often it fired. */
    method AddSamples(source: seq<seq<real>>, sourceStart: int, count: int) returns (callbacks: int)
      requires Valid()
      requires chunkSize > 0
      requires |source| == numberOfChannels
      requires 0 <= count <= numberOfSamples
      requires 0 <= sourceStart && forall ch :: 0 <= ch < |source| ==> sourceStart + count <= |source[ch]|
      modifies this, audioData
      ensures Valid() && hasCallback == old(hasCallback)
      ensures currentPosition == (old(currentPosition) + count) % totalLength
      ensures chunkSize - samplesToFilledChunk == (chunkSize - old(samplesToFilledChunk) + count) % chunkSize
      ensures callbacks == if hasCallback then (chunkSize - old(samplesToFilledChunk) + count) / chunkSize else 0
      ensures forall ch, i :: 0 <= ch < numberOfChannels && 0 <= i < totalLength ==>
        audioData[ch, i] ==
          if WrittenOffset(old(currentPosition), totalLength, i) < count
          then source[ch][sourceStart + WrittenOffset(old(currentPosition), totalLength, i)]
          else old(audioData[ch, i])
    {
      var start := currentPosition;
      ghost var orig := Channels();
      assert forall ch, i :: 0 <= ch < numberOfChannels && 0 <= i < totalLength ==> orig[ch][i] == old(audioData[ch, i]);
      var filledBefore := chunkSize - samplesToFilledChunk;
      ModuloUnique(filledBefore, chunkSize, 0, filledBefore);
      ModuloUnique(start, totalLength, 0, start);
      callbacks := 0;
      var processedSamples := 0;
      var unprocessedSamples := count;
      while unprocessedSamples > 0
        invariant Valid() && hasCallback == old(hasCallback)
        invariant 0 <= processedSamples <= count && unprocessedSamples == count - processedSamples
        invariant currentPosition == (start + processedSamples) % totalLength
        invariant chunkSize - samplesToFilledChunk == (filledBefore + processedSamples) % chunkSize
        invariant callbacks == if hasCallback then (filledBefore + processedSamples) / chunkSize else 0
        invariant forall ch, i :: 0 <= ch < numberOfChannels && 0 <= i < totalLength ==>
          audioData[ch, i] ==
            if WrittenOffset(start, totalLength, i) < processedSamples
            then source[ch][sourceStart + WrittenOffset(start, totalLength, i)]
            else orig[ch][i]
        decreases unprocessedSamples
      {
        var samplesToCopy, chunkFilled := AddPass(source, sourceStart, start, filledBefore, orig,
                                                  processedSamples, unprocessedSamples);
        processedSamples := processedSamples + samplesToCopy;
        unprocessedSamples := unprocessedSamples - samplesToCopy;
        if chunkFilled && hasCallback {
          callbacks := callbacks + 1;
        }
      }
      assert processedSamples == count;
    }

    /** One pass of the loop in `addSamples`: as many samples as fit before
        the input ends, the chunk fills up or the buffer wraps are copied
        (at least one), and the write position and chunk counter move on
        by that many. */
    method AddPass(source: seq<seq<real>>, sourceStart: int, ghost start: int, ghost filledBefore: int,
                   ghost orig: seq<seq<real>>, processed: int, unprocessed: int)
      returns (samplesToCopy: int, chunkFilled: bool)
      requires Valid() && chunkSize > 0
      requires |source| == numberOfChannels
      requires 0 <= start < totalLength && filledBefore >= 0
      requires 0 <= processed && 0 < unprocessed && processed + unprocessed <= numberOfSamples
      requires 0 <= sourceStart && forall ch :: 0 <= ch < |source| ==> sourceStart + processed + unprocessed <= |source[ch]|
      requires currentPosition == (start + processed) % totalLength
      requires chunkSize - samplesToFilledChunk == (filledBefore + processed) % chunkSize
      requires |orig| == numberOfChannels && forall ch :: 0 <= ch < |orig| ==> |orig[ch]| == totalLength
      requires forall ch, i :: 0 <= ch < numberOfChannels && 0 <= i < totalLength ==>
        audioData[ch, i] ==
          if WrittenOffset(start, totalLength, i) < processed
          then source[ch][sourceStart + WrittenOffset(start, totalLength, i)]
          else orig[ch][i]
      modifies this, audioData
      ensures Valid() && hasCallback == old(hasCallback)
      ensures 0 < samplesToCopy <= unprocessed
      ensures currentPosition == (start + processed + samplesToCopy) % totalLength
      ensures chunkSize - samplesToFilledChunk == (filledBefore + processed + samplesToCopy) % chunkSize
      ensures (filledBefore + processed + samplesToCopy) / chunkSize
              == (filledBefore + processed) / chunkSize + (if chunkFilled then 1 else 0)
      ensures forall ch, i :: 0 <= ch < numberOfChannels && 0 <= i < totalLength ==>
        audioData[ch, i] ==
          if WrittenOffset(start, totalLength, i) < processed + samplesToCopy
          then source[ch][sourceStart + WrittenOffset(start, totalLength, i)]
          else orig[ch][i]
    {
      var samplesToBufferWrap := totalLength - currentPosition;
      samplesToCopy := PassSize(unprocessed, samplesToFilledChunk, samplesToBufferWrap);
      CopyPass(source, sourceStart, start, processed, currentPosition, samplesToCopy, orig);
      chunkFilled := AdvancePass(start, filledBefore, processed, samplesToCopy);
    }

    /** The bookkeeping after one pass of `addSamples` that copied `count`
        samples: the write position moves on and wraps, the chunk counter
        goes down and restarts at a full chunk when the chunk is filled,
        which is reported so that the callback can fire. */
    method AdvancePass(ghost start: int, ghost filledBefore: int, ghost processed: int, count: int)
      returns (chunkFilled: bool)
      requires Valid() && chunkSize > 0
      requires 0 <= processed && filledBefore >= 0
      requires 0 <= count <= samplesToFilledChunk && currentPosition + count <= totalLength
      requires currentPosition == (start + processed) % totalLength
      requires chunkSize - samplesToFilledChunk == (filledBefore + processed) % chunkSize
      modifies this
      ensures Valid() && hasCallback == old(hasCallback)
      ensures currentPosition == (start + processed + count) % totalLength
      ensures chunkSize - samplesToFilledChunk == (filledBefore + processed + count) % chunkSize
      ensures (filledBefore + processed + count) / chunkSize
              == (filledBefore + processed) / chunkSize + (if chunkFilled then 1 else 0)
    {
      WrapStep(start, processed, totalLength, count);
      currentPosition := (currentPosition + count) % totalLength;
      ChunkAdvance(filledBefore, processed, chunkSize, samplesToFilledChunk, count);
      samplesToFilledChunk := samplesToFilledChunk - count;
      chunkFilled := samplesToFilledChunk == 0;
      if chunkFilled {
        samplesToFilledChunk := chunkSize;
      }
    }
  }
}
