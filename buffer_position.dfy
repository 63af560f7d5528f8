/** Read and write bookkeeping of the frut audio ring buffer
    (frut::audio::BufferPosition): where the next block of samples goes,
    split into two blocks where it wraps around the end of the buffer. */
module BufferPosition {

  import opened Arith

  /** The two blocks an access of several samples is split into: the first
      runs from `start1` towards the end of the buffer, the second (possibly
      empty) continues at the start of the buffer. */
  datatype Blocks = Blocks(start1: int, size1: int, start2: int, size2: int)

  /** Block split for `count` samples starting at `position` in a buffer of
      `total` samples: the first block is as long as fits before the end,
      the second holds the rest, from index 0. */
  function SplitAt(position: int, total: int, count: int): (b: Blocks)
    requires 0 <= position < total
    requires 0 <= count <= total
    ensures b.start1 == position && b.start2 == 0
    ensures 0 <= b.size1 && 0 <= b.size2 && b.size1 + b.size2 == count
    ensures b.start1 + b.size1 <= total
    ensures b.size2 <= b.start1
    ensures b.size2 > 0 ==> b.start1 + b.size1 == total
  {
    var toWrap := total - position;
    var size1 := if count < toWrap then count else toWrap;
    Blocks(position, size1, 0, count - size1)
  }

  /** The k-th of the `count` samples starting at `position`, wrapped into the buffer. */
  function WrappedIndex(position: int, total: int, k: int): int
    requires total > 0
  {
    (position + k) % total
  }

  /** The blocks cover exactly the wrapped positions position, position + 1,
      ... (count of them), in order: the k-th sample sits at the k-th index
      of block one, then of block two. */
  lemma {:induction false} SplitCovers(position: int, total: int, count: int, k: int)
    requires 0 <= position < total
    requires 0 <= count <= total
    requires 0 <= k < count
    ensures var b := SplitAt(position, total, count);
      WrappedIndex(position, total, k) ==
        if k < b.size1 then b.start1 + k else b.start2 + (k - b.size1)
  {
    var b := SplitAt(position, total, count);
    if k < b.size1 {
      ModuloUnique(position + k, total, 0, position + k);
    } else {
      ModuloUnique(position + k, total, 1, position + k - total);
    }
  }

  class BufferPosition {
    const preDelay: int
    const totalBufferLength: int

    var readPosition: int
    var readPositionToWrap: int
    var writePosition: int
    var writePositionToWrap: int
    var storedSamples: int

    /** Both positions lie inside the buffer and each "to wrap" count is
        the distance from its position to the end of the buffer. */
    ghost predicate Valid()
      reads this
    {
      && 0 <= preDelay < totalBufferLength
      && 0 <= readPosition < totalBufferLength
      && readPositionToWrap == totalBufferLength - readPosition
      && 0 <= writePosition < totalBufferLength
      && writePositionToWrap == totalBufferLength - writePosition
    }

    /** The constructor: the buffer holds `numberOfSamples` samples plus the pre-delay. */
    constructor (numberOfSamples: int, preDelay: int)
      requires numberOfSamples > 0
      requires preDelay >= 0
      ensures Valid()
      ensures this.preDelay == preDelay
      ensures GetNumberOfSamples() == numberOfSamples
      ensures readPosition == 0 && writePosition == preDelay && storedSamples == 0
    {
      this.preDelay := preDelay;
      totalBufferLength := numberOfSamples + preDelay;
      readPosition := 0;
      readPositionToWrap := numberOfSamples + preDelay;
      writePosition := preDelay;
      writePositionToWrap := numberOfSamples;
      storedSamples := 0;
    }

    /** `reset`: reading starts at 0, writing starts the pre-delay ahead,
        nothing is stored. */
    method Reset()
      requires 0 <= preDelay < totalBufferLength
      modifies this
      ensures Valid()
      ensures readPosition == 0 && readPositionToWrap == totalBufferLength
      ensures writePosition == preDelay && writePositionToWrap == totalBufferLength - preDelay
      ensures storedSamples == 0
    {
      readPosition := 0;
      readPositionToWrap := totalBufferLength - readPosition;
      writePosition := preDelay;
      writePositionToWrap := totalBufferLength - writePosition;
      storedSamples := 0;
    }

    /** `getNumberOfSamples`: the buffer length without the pre-delay. */
    function GetNumberOfSamples(): (n: int)
      reads this
      requires Valid()
      ensures n > 0
      ensures n + preDelay == totalBufferLength
    {
      totalBufferLength - preDelay
    }

    /** `getTotalBufferLength`. */
    function GetTotalBufferLength(): (n: int)
      reads this
      requires Valid()
      ensures n > preDelay && n == totalBufferLength
    {
      totalBufferLength
    }

    /** `getPreDelay`. */
    function GetPreDelay(): (n: int)
      reads this
      requires Valid()
      ensures 0 <= n < totalBufferLength && n == preDelay
    {
      preDelay
    }

    /** `getCurrentReadPosition`. */
    function GetCurrentReadPosition(): (n: int)
      reads this
      requires Valid()
      ensures 0 <= n < totalBufferLength && n == readPosition
    {
      readPosition
    }

    /** `getCurrentWritePosition`. */
    function GetCurrentWritePosition(): (n: int)
      reads this
      requires Valid()
      ensures 0 <= n < totalBufferLength && n == writePosition
    {
      writePosition
    }

    /** `store` (and through it `queue` and `overwrite`): the blocks to
        write `numberOfSamples` samples at the write position; with
        `updatePosition` the write position moves past them and the stored
        count grows, otherwise nothing changes. */
    method Store(numberOfSamples: int, updatePosition: bool)
      returns (startIndex1: int, blockSize1: int, startIndex2: int, blockSize2: int)
      requires Valid()
      requires 0 <= numberOfSamples <= totalBufferLength
      modifies this
      ensures Valid()
      ensures Blocks(startIndex1, blockSize1, startIndex2, blockSize2)
        == SplitAt(old(writePosition), totalBufferLength, numberOfSamples)
      ensures readPosition == old(readPosition) && readPositionToWrap == old(readPositionToWrap)
      ensures updatePosition ==>
        && writePosition == (old(writePosition) + numberOfSamples) % totalBufferLength
        && storedSamples == old(storedSamples) + numberOfSamples
      ensures !updatePosition ==>
        writePosition == old(writePosition) && storedSamples == old(storedSamples)
      ensures writePositionToWrap == totalBufferLength - writePosition
    {
      startIndex1 := writePosition;
      blockSize1 := if numberOfSamples < writePositionToWrap then numberOfSamples else writePositionToWrap;
      startIndex2 := 0;
      blockSize2 := numberOfSamples - blockSize1;

      if updatePosition {
        writePosition := (writePosition + numberOfSamples) % totalBufferLength;
        writePositionToWrap := totalBufferLength - writePosition;
        storedSamples := storedSamples + numberOfSamples;
      }
    }

    /** `retrieve` (and through it `dequeue` and `copy`): the mirror image
        of Store on the read side; the stored count shrinks. */
    method Retrieve(numberOfSamples: int, updatePosition: bool)
      returns (startIndex1: int, blockSize1: int, startIndex2: int, blockSize2: int)
      requires Valid()
      requires 0 <= numberOfSamples <= totalBufferLength
      modifies this
      ensures Valid()
      ensures Blocks(startIndex1, blockSize1, startIndex2, blockSize2)
        == SplitAt(old(readPosition), totalBufferLength, numberOfSamples)
      ensures writePosition == old(writePosition) && writePositionToWrap == old(writePositionToWrap)
      ensures updatePosition ==>
        && readPosition == (old(readPosition) + numberOfSamples) % totalBufferLength
        && storedSamples == old(storedSamples) - numberOfSamples
      ensures !updatePosition ==>
        readPosition == old(readPosition) && storedSamples == old(storedSamples)
      ensures readPositionToWrap == totalBufferLength - readPosition
    {
      startIndex1 := readPosition;
      blockSize1 := if numberOfSamples < readPositionToWrap then numberOfSamples else readPositionToWrap;
      startIndex2 := 0;
      blockSize2 := numberOfSamples - blockSize1;

      if updatePosition {
        readPosition := (readPosition + numberOfSamples) % totalBufferLength;
        readPositionToWrap := totalBufferLength - readPosition;
        storedSamples := storedSamples - numberOfSamples;
      }
    }

    /** `simulateDequeue`: only the read position moves (any count, also a
        negative one, is wrapped into the buffer) and the stored count shrinks. */
    method SimulateDequeue(numberOfSamples: int)
      requires Valid()
      modifies this
      ensures Valid()
      ensures readPosition == (old(readPosition) + numberOfSamples) % totalBufferLength
      ensures storedSamples == old(storedSamples) - numberOfSamples
      ensures writePosition == old(writePosition) && writePositionToWrap == old(writePositionToWrap)
    {
      readPosition := (readPosition + numberOfSamples) % totalBufferLength;
      readPositionToWrap := totalBufferLength - readPosition;
      storedSamples := storedSamples - numberOfSamples;
    }

    /** `lookBackFromWritePosition`: the blocks of the `numberOfSamples`
        samples that end just before the write position; neither position
        changes. */
    method LookBackFromWritePosition(numberOfSamples: int)
      returns (startIndex1: int, blockSize1: int, startIndex2: int, blockSize2: int)
      requires Valid()
      requires 0 <= numberOfSamples <= totalBufferLength
      ensures startIndex1 == (writePosition - numberOfSamples) % totalBufferLength
      ensures blockSize1 + blockSize2 == numberOfSamples && 0 <= blockSize1 && 0 <= blockSize2
      ensures startIndex2 == 0
      ensures Blocks(startIndex1, blockSize1, startIndex2, blockSize2)
        == SplitAt((writePosition - numberOfSamples) % totalBufferLength, totalBufferLength, numberOfSamples)
      ensures blockSize1 == if numberOfSamples < totalBufferLength - startIndex1
                            then numberOfSamples else totalBufferLength - startIndex1
      ensures forall k :: 0 <= k < numberOfSamples ==>
        LookBackIndex(numberOfSamples, k) ==
          if k < blockSize1 then startIndex1 + k else startIndex2 + (k - blockSize1)
      ensures numberOfSamples > 0 ==>
        LookBackIndex(numberOfSamples, numberOfSamples - 1)
          == (writePosition + totalBufferLength - 1) % totalBufferLength
    {
      var writePositionTemp := (writePosition - numberOfSamples) % totalBufferLength;
      var writePositionTempToWrap := totalBufferLength - writePositionTemp;

      startIndex1 := writePositionTemp;
      blockSize1 := if numberOfSamples < writePositionTempToWrap then numberOfSamples else writePositionTempToWrap;
      startIndex2 := 0;
      blockSize2 := numberOfSamples - blockSize1;

      forall k | 0 <= k < numberOfSamples
        ensures LookBackIndex(numberOfSamples, k) ==
          if k < blockSize1 then startIndex1 + k else startIndex2 + (k - blockSize1)
      {
        SplitCovers(writePositionTemp, totalBufferLength, numberOfSamples, k);
        ShiftWrapped(writePosition - numberOfSamples, totalBufferLength, k);
      }
      if numberOfSamples > 0 {
        ModuloShift(writePosition - 1, writePosition + totalBufferLength - 1, totalBufferLength, 1);
      }
    }

    /** Where the k-th of the last `n` samples before the write position lies. */
    function LookBackIndex(n: int, k: int): int
      reads this
      requires totalBufferLength > 0
    {
      WrappedIndex(writePosition - n, totalBufferLength, k)
    }
  }

  /** Wrapping the start first does not change where the k-th sample lands. */
  lemma ShiftWrapped(start: int, total: int, k: int)
    requires total > 0
    ensures WrappedIndex(start % total, total, k) == WrappedIndex(start, total, k)
  {
    ModuloShift(start % total + k, start + k, total, start / total);
  }

  /** Storing n samples and then retrieving n samples from the same
      position lands the read position where the write position went. */
  lemma {:induction false} StoreThenRetrieveMeet(read: int, write: int, total: int, n: int)
    requires total > 0 && 0 <= read < total && 0 <= write < total
    requires 0 <= n <= total
    ensures ((write + n) % total - (read + n) % total) % total == (write - read) % total
  {
    var w := (write + n) % total;
    var r := (read + n) % total;
    assert (write + n) - w == total * ((write + n) / total);
    assert (read + n) - r == total * ((read + n) / total);
    ModuloShift(w - r, write - read, total, (write + n) / total - (read + n) / total);
  }
}
