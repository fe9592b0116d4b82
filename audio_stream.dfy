/**
 * The rolling window of samples kept for live streaming: appends go at the end, the oldest
 * samples are dropped once the capacity is exceeded, and windows are cut relative to the
 * current end. Durations are given in whole samples.
 */
module AudioStream {
  import opened PyBuiltins
  import opened AudioSignal

  /**
   * The trim step of `append`: when the buffer is longer than `maxSamples`, it becomes
   * `buffer[-maxSamples:]` under Python's slicing rules.
   */
  function Trimmed(s: Samples, maxSamples: int): (r: Samples)
    ensures maxSamples > 0 ==> r == s[|s| - Min(maxSamples, |s|)..]
    ensures maxSamples == 0 ==> r == s
    ensures maxSamples < 0 ==> r == s[Min(-maxSamples, |s|)..]
  {
    if |s| > maxSamples then Slice(s, -maxSamples, |s|) else s
  }

  /** The buffer after `append(data)`: unchanged when locked, otherwise concatenated and trimmed. */
  function Appended(buffer: Samples, data: Samples, maxSamples: int, locked: bool): (r: Samples)
    ensures locked ==> r == buffer
    ensures !locked && maxSamples > 0 ==>
              |r| == Min(maxSamples, |buffer| + |data|) && r == (buffer + data)[|buffer| + |data| - |r|..]
  {
    if locked then buffer else Trimmed(buffer + data, maxSamples)
  }

  /** The last `n` elements of a suffix of `w` are the last `n` elements of `w`. */
  lemma SuffixOfSuffix(w: Samples, k: nat, n: nat)
    requires k + n <= |w|
    ensures w[k..][|w| - k - n..] == w[|w| - n..]
  {
  }

  /** Trimming before an append and after it keeps what trimming only after it keeps. */
  lemma TrimAfterAppend(x: Samples, y: Samples, maxSamples: int)
    requires maxSamples > 0
    ensures Trimmed(Trimmed(x, maxSamples) + y, maxSamples) == Trimmed(x + y, maxSamples)
  {
    var t := Trimmed(x, maxSamples);
    var cut := |x| - |t|;
    var n := Min(maxSamples, |x| + |y|);
    assert t == x[cut..];
    DropOfAppend(x, y, cut);
    SuffixOfSuffix(x + y, cut, n);
    assert Trimmed(t + y, maxSamples) == (t + y)[|t + y| - n..];
  }

  /** Dropping a prefix of `x` from `x + y` leaves the rest of `x` followed by `y`. */
  lemma DropOfAppend(x: Samples, y: Samples, k: nat)
    requires k <= |x|
    ensures (x + y)[k..] == x[k..] + y
  {
  }

  /** The buffer after appending each block of `blocks` in turn. */
  function AppendAll(buffer: Samples, blocks: seq<Samples>, maxSamples: int): Samples
    decreases |blocks|
  {
    if blocks == [] then buffer
    else AppendAll(Appended(buffer, blocks[0], maxSamples, false), blocks[1..], maxSamples)
  }

  /**
   * Drop-oldest in the large: after any run of appends to a buffer that holds at most the
   * capacity, it holds the most recent `min(capacity, total)` samples in their original order.
   */
  lemma {:induction false} AppendAllKeepsNewest(buffer: Samples, blocks: seq<Samples>, maxSamples: int)
    requires maxSamples > 0 && |buffer| <= maxSamples
    ensures AppendAll(buffer, blocks, maxSamples) == Trimmed(buffer + Flatten(blocks), maxSamples)
    decreases |blocks|
  {
    if blocks != [] {
      var next := Appended(buffer, blocks[0], maxSamples, false);
      var rest := Flatten(blocks[1..]);
      AppendAllKeepsNewest(next, blocks[1..], maxSamples);
      AppendThenTrim(buffer, blocks[0], rest, maxSamples);
      assert Flatten(blocks) == blocks[0] + rest;
      assert AppendAll(buffer, blocks, maxSamples) == AppendAll(next, blocks[1..], maxSamples);
    } else {
      assert buffer + Flatten(blocks) == buffer;
    }
  }

  /** One append followed by a trim of everything after it is a single trim. */
  lemma AppendThenTrim(buffer: Samples, block: Samples, rest: Samples, maxSamples: int)
    requires maxSamples > 0
    ensures Trimmed(Appended(buffer, block, maxSamples, false) + rest, maxSamples)
            == Trimmed(buffer + (block + rest), maxSamples)
  {
    TrimAfterAppend(buffer + block, rest, maxSamples);
    assert buffer + block + rest == buffer + (block + rest);
  }

  /** `AudioBuffer`: a bounded, drop-oldest window of samples. */
  class AudioBuffer {
    const sampleRate: int
    /** `int(sample_rate * max_duration)`, given directly as a sample count. */
    const maxSamples: int
    var buffer: Samples
    /** Never set by the class itself; while true, `append` ignores its input. */
    var locked: bool

    /** With a positive capacity the buffer never holds more than the capacity. */
    ghost predicate Valid()
      reads this
    {
      maxSamples > 0 ==> |buffer| <= maxSamples
    }

    constructor (sampleRate: int, maxSamples: int)
      ensures this.sampleRate == sampleRate && this.maxSamples == maxSamples
      ensures buffer == [] && !locked && Valid()
    {
      this.sampleRate := sampleRate;
      this.maxSamples := maxSamples;
      buffer := [];
      locked := false;
    }

    method Append(data: Samples)
      requires Valid()
      modifies this
      ensures Valid() && locked == old(locked)
      ensures buffer == Appended(old(buffer), data, maxSamples, locked)
    {
      if locked {
        return;
      }
      buffer := buffer + data;
      if |buffer| > maxSamples {
        buffer := Slice(buffer, -maxSamples, |buffer|);
      }
    }

    /**
     * `get_chunk(start_offset, duration)` with both in samples: the samples whose index lies in
     * `[len - start_offset, len - start_offset + duration)` and inside the buffer, in order.
     */
    function GetChunk(startOffset: int, duration: int): (r: Samples)
      reads this
      ensures var lo := Max(0, |buffer| - startOffset);
              |r| == Max(0, Min(|buffer|, |buffer| - startOffset + duration) - lo)
              && forall k | 0 <= k < |r| :: r[k] == buffer[lo + k]
      ensures r == [] <==>
                |buffer| == 0 || startOffset <= 0 || duration <= 0 || startOffset >= |buffer| + duration
    {
      var startSample := |buffer| - startOffset;
      var endSample := startSample + duration;
      var s := Max(0, startSample);
      var e := Min(|buffer|, endSample);
      if s >= e then [] else buffer[s..e]
    }

    /**
     * The window the parameter names describe: `duration` samples ending `startOffset` samples
     * before the current end, clamped to the buffer.
     */
    function GetChunkEndingAt(startOffset: int, duration: int): (r: Samples)
      reads this
      ensures 0 <= startOffset <= |buffer| && 0 <= duration ==>
                r == buffer[Max(0, |buffer| - startOffset - duration)..|buffer| - startOffset]
      ensures startOffset >= |buffer| || duration <= 0 ==> r == []
    {
      var hi := Min(|buffer|, Max(0, |buffer| - startOffset));
      var lo := Min(hi, Max(0, |buffer| - startOffset - duration));
      buffer[lo..hi]
    }

    method Clear()
      modifies this
      ensures buffer == [] && IsEmpty() && Valid() && locked == old(locked)
    {
      buffer := [];
    }

    /** `get_all`: a copy of everything buffered. */
    function GetAll(): (r: Samples)
      reads this
      ensures r == buffer
    {
      buffer
    }

    predicate IsEmpty()
      reads this
      ensures IsEmpty() <==> buffer == []
    {
      |buffer| == 0
    }
  }

  /** A window starting at the current end (offset 0) is empty, whatever its duration. */
  lemma GetChunkAtEndIsEmpty(b: AudioBuffer, duration: int)
    ensures b.GetChunk(0, duration) == []
  {
  }

  /** The intended window at the current end is the newest `duration` samples: a full buffer comes back whole. */
  lemma GetChunkEndingAtEndIsNewest(b: AudioBuffer, duration: int)
    requires 0 <= duration <= |b.buffer|
    ensures b.GetChunkEndingAt(0, duration) == b.buffer[|b.buffer| - duration..]
    ensures b.GetChunkEndingAt(0, |b.buffer|) == b.buffer
  {
  }

  /** The intended window is the written one with the start moved back by the duration. */
  lemma GetChunkEndingAtIsShifted(b: AudioBuffer, startOffset: int, duration: int)
    requires 0 <= startOffset && 0 <= duration
    ensures b.GetChunkEndingAt(startOffset, duration) == b.GetChunk(startOffset + duration, duration)
  {
  }

  /** Reaching back over the whole buffer with a long enough duration returns everything. */
  lemma GetChunkWholeBuffer(b: AudioBuffer, duration: int)
    requires duration >= |b.buffer|
    ensures b.GetChunk(|b.buffer|, duration) == b.buffer
  {
  }

  /** A window that ends at or before sample 0 is empty. */
  lemma GetChunkBeforeStart(b: AudioBuffer, startOffset: int, duration: int)
    requires startOffset >= |b.buffer| + duration
    ensures b.GetChunk(startOffset, duration) == []
  {
  }

  /** Appending past a positive capacity leaves exactly the capacity, the newest samples last. */
  lemma AppendOverflowKeepsCapacity(buffer: Samples, data: Samples, maxSamples: int)
    requires maxSamples > 0 && |buffer| + |data| > maxSamples
    ensures Appended(buffer, data, maxSamples, false) == (buffer + data)[|buffer| + |data| - maxSamples..]
  {
  }

  /** Whole-buffer trimming quirk: with capacity 0, `buffer[-0:]` keeps every sample. */
  lemma ZeroCapacityKeepsEverything(buffer: Samples, data: Samples)
    ensures Appended(buffer, data, 0, false) == buffer + data
  {
  }
}
