/**
 * Sample-array processing of the audio pipeline: peak normalisation, trimming of leading and
 * trailing silence, fixed-size chunking for streaming, and the order in which preprocessing
 * applies these steps. Samples are exact reals; the envelope, resampling and decoding are
 * supplied as functions.
 */
module AudioSignal {
  import opened Wrappers
  import opened PyBuiltins

  type Samples = seq<real>

  /** The default sample rate of every audio helper, in Hz. */
  const TargetSampleRate: int := 16000
  /** `remove_silence` pads the kept region by one analysis frame on each side. */
  const DefaultFrameLength: int := 2048
  /** `10 ** (-40 / 20)`: the default -40 dB threshold as a linear amplitude. */
  const DefaultSilenceThreshold: real := 0.01
  const DefaultChunkDurationMs: int := 250

  /** The exceptions NumPy and Python raise on the paths modelled here. */
  datatype SignalError =
    | EmptyArrayReduction               // `np.max` of a zero-size array
    | ZeroRangeStep                     // `range(0, n, 0)`
    | EmptyEnvelope                     // `scipy.signal.hilbert` of a zero-length array
    | PreprocessingFailed(cause: SignalError)   // the `AudioProcessingError` wrapper

  function Abs(x: real): real { if x < 0.0 then -x else x }

  /** `np.max(np.abs(s))`. */
  function MaxAbs(s: Samples): (m: real)
    requires |s| > 0
    ensures m >= 0.0
    ensures forall i | 0 <= i < |s| :: Abs(s[i]) <= m
    ensures exists i | 0 <= i < |s| :: Abs(s[i]) == m
  {
    if |s| == 1 then Abs(s[0])
    else
      var rest := MaxAbs(s[1..]);
      assert forall i | 1 <= i < |s| :: s[i] == s[1..][i - 1];
      if Abs(s[0]) >= rest then Abs(s[0]) else rest
  }

  predicate IsSilent(s: Samples) {
    forall i | 0 <= i < |s| :: s[i] == 0.0
  }

  /** Peak amplitude exactly 1: every sample within [-1, 1] and one of them at the bound. */
  predicate PeakIsOne(s: Samples) {
    (forall i | 0 <= i < |s| :: Abs(s[i]) <= 1.0) && (exists i | 0 <= i < |s| :: Abs(s[i]) == 1.0)
  }

  lemma {:induction false} MaxAbsZeroIffSilent(s: Samples)
    requires |s| > 0
    ensures MaxAbs(s) == 0.0 <==> IsSilent(s)
  {
    if MaxAbs(s) == 0.0 {
      forall i | 0 <= i < |s| ensures s[i] == 0.0 {
        assert Abs(s[i]) <= 0.0;
      }
    }
  }

  /** Each sample divided by `peak`. */
  function Scale(s: Samples, peak: real): (t: Samples)
    requires peak > 0.0
    ensures |t| == |s| && forall i | 0 <= i < |s| :: t[i] * peak == s[i]
  {
    seq(|s|, i requires 0 <= i < |s| => s[i] / peak)
  }

  lemma DivideByBound(x: real, p: real)
    requires p > 0.0 && Abs(x) <= p
    ensures Abs(x / p) <= 1.0
    ensures Abs(x) == p ==> Abs(x / p) == 1.0
  {
    var q := x / p;
    assert q * p == x;
  }

  /** Dividing by the peak absolute value leaves a buffer whose peak is exactly 1. */
  lemma {:induction false} ScaleByPeak(s: Samples)
    requires |s| > 0 && MaxAbs(s) > 0.0
    ensures PeakIsOne(Scale(s, MaxAbs(s)))
  {
    var peak := MaxAbs(s);
    var t := Scale(s, peak);
    forall i | 0 <= i < |s| ensures Abs(t[i]) <= 1.0 {
      DivideByBound(s[i], peak);
    }
    var j :| 0 <= j < |s| && Abs(s[j]) == peak;
    DivideByBound(s[j], peak);
    assert Abs(t[j]) == 1.0;
  }

  /** `normalize_audio`: divides by the peak absolute value, or returns an all-zero buffer unchanged. */
  function NormalizeAudio(s: Samples): (r: Result<Samples, SignalError>)
    ensures r.Failure? <==> s == []
    ensures r.Failure? ==> r.error == EmptyArrayReduction
    ensures r.Success? ==> |r.value| == |s|
    ensures r.Success? && IsSilent(s) ==> r.value == s
    ensures r.Success? && !IsSilent(s) ==> r.value == Scale(s, MaxAbs(s)) && PeakIsOne(r.value)
  {
    if s == [] then Failure(EmptyArrayReduction)
    else if MaxAbs(s) > 0.0 then
      MaxAbsZeroIffSilent(s);
      ScaleByPeak(s);
      Success(Scale(s, MaxAbs(s)))
    else
      MaxAbsZeroIffSilent(s);
      Success(s)
  }

  /** Normalising an already normalised buffer changes nothing. */
  lemma NormalizeIdempotent(s: Samples)
    requires NormalizeAudio(s).Success?
    ensures NormalizeAudio(NormalizeAudio(s).value) == NormalizeAudio(s)
  {
    var t := NormalizeAudio(s).value;
    if !IsSilent(s) {
      var j :| 0 <= j < |t| && Abs(t[j]) == 1.0;
      assert MaxAbs(t) == 1.0;
      assert !IsSilent(t);
      assert Scale(t, 1.0) == t;
    }
  }

  predicate Loud(env: seq<real>, threshold: real, i: int)
    requires 0 <= i < |env|
  {
    env[i] > threshold
  }

  /** `np.where(env > threshold)[0]`, restricted to indices from `from` on. */
  function NonSilentIndices(env: seq<real>, threshold: real, from: nat): (idx: seq<nat>)
    requires from <= |env|
    decreases |env| - from
    ensures forall k | 0 <= k < |idx| :: from <= idx[k] < |env| && Loud(env, threshold, idx[k])
    ensures forall i | from <= i < |env| && Loud(env, threshold, i) :: i in idx
    ensures forall k, l | 0 <= k < l < |idx| :: idx[k] < idx[l]
  {
    if from == |env| then []
    else if Loud(env, threshold, from) then [from] + NonSilentIndices(env, threshold, from + 1)
    else NonSilentIndices(env, threshold, from + 1)
  }

  /**
   * `remove_silence` once the envelope is known: keeps from one frame before the first loud
   * sample to one frame after the last, or returns the input when no sample is loud.
   */
  function RemoveSilence(audio: Samples, env: seq<real>, threshold: real, frameLength: int): (r: Samples)
    ensures (forall i | 0 <= i < |env| :: !Loud(env, threshold, i)) ==> r == audio
    ensures |r| <= |audio|
    ensures forall x | x in r :: x in audio
  {
    var idx := NonSilentIndices(env, threshold, 0);
    if |idx| == 0 then audio
    else
      var start := Max(0, idx[0] - frameLength);
      var end := Min(|audio|, idx[|idx| - 1] + frameLength);
      Slice(audio, start, end)
  }

  /**
   * With an envelope as long as the audio, the kept region is exactly one frame around the
   * first and last loud samples, clamped to the buffer.
   */
  lemma RemoveSilenceWindow(audio: Samples, env: seq<real>, threshold: real, frameLength: int, first: nat, last: nat)
    requires |env| == |audio| && frameLength >= 0
    requires first <= last < |env|
    requires Loud(env, threshold, first) && Loud(env, threshold, last)
    requires forall i | 0 <= i < first :: !Loud(env, threshold, i)
    requires forall i | last < i < |env| :: !Loud(env, threshold, i)
    ensures RemoveSilence(audio, env, threshold, frameLength)
            == audio[Max(0, first - frameLength)..Min(|audio|, last + frameLength)]
  {
    LoudIndicesRun(env, threshold, first, last);
    var lo, hi := Max(0, first - frameLength), Min(|audio|, last + frameLength);
    assert 0 <= lo <= hi <= |audio|;
    assert RemoveSilence(audio, env, threshold, frameLength) == Slice(audio, lo, hi);
  }

  /**
   * With a frame of at least one sample, trimming keeps every loud sample: the result is the
   * input shifted left by `max(0, first - frameLength)`, and no loud sample falls outside it.
   */
  lemma SilenceWindowKeepsLoud(audio: Samples, env: seq<real>, threshold: real, frameLength: int, first: nat, last: nat)
    requires |env| == |audio| && frameLength >= 1
    requires first <= last < |env|
    requires Loud(env, threshold, first) && Loud(env, threshold, last)
    requires forall i | 0 <= i < first :: !Loud(env, threshold, i)
    requires forall i | last < i < |env| :: !Loud(env, threshold, i)
    ensures var r, lo := RemoveSilence(audio, env, threshold, frameLength), Max(0, first - frameLength);
            && |r| > 0
            && forall i | 0 <= i < |env| && Loud(env, threshold, i) :: 0 <= i - lo < |r| && r[i - lo] == audio[i]
  {
    RemoveSilenceWindow(audio, env, threshold, frameLength, first, last);
  }

  /** The loud indices run from the first loud sample to the last. */
  lemma LoudIndicesRun(env: seq<real>, threshold: real, first: nat, last: nat)
    requires first <= last < |env|
    requires Loud(env, threshold, first) && Loud(env, threshold, last)
    requires forall i | 0 <= i < first :: !Loud(env, threshold, i)
    requires forall i | last < i < |env| :: !Loud(env, threshold, i)
    ensures var idx := NonSilentIndices(env, threshold, 0);
            |idx| > 0 && idx[0] == first && idx[|idx| - 1] == last
  {
    var idx := NonSilentIndices(env, threshold, 0);
    assert first in idx && last in idx;
    var a :| 0 <= a < |idx| && idx[a] == first;
    var b :| 0 <= b < |idx| && idx[b] == last;
    assert idx[0] <= idx[a];
    assert idx[b] <= idx[|idx| - 1];
  }

  /** `int(sample_rate * chunk_duration_ms / 1000)`: the quotient truncated toward zero. */
  function ChunkSamples(sampleRate: int, chunkDurationMs: int): (c: int)
    ensures var p := sampleRate * chunkDurationMs;
            (p >= 0 ==> 0 <= p - c * 1000 < 1000) && (p < 0 ==> 0 <= c * 1000 - p < 1000)
  {
    var p := sampleRate * chunkDurationMs;
    if p >= 0 then p / 1000 else -((-p) / 1000)
  }

  function Zeros(n: nat): (z: Samples)
    ensures |z| == n && forall i | 0 <= i < n :: z[i] == 0.0
  {
    seq(n, _ => 0.0)
  }

  /**
   * The chunks `chunk_audio` produces for a positive chunk size `c`: every chunk has exactly `c`
   * samples and there are ceil(n / c) of them (none for empty input), so the chunks cover the
   * input and the last one starts inside it.
   */
  function Chunks(audio: Samples, c: int): (cs: seq<Samples>)
    requires c > 0
    decreases |audio|
    ensures forall k | 0 <= k < |cs| :: |cs[k]| == c
    ensures cs == [] <==> audio == []
    ensures |cs| * c >= |audio|
    ensures audio != [] ==> (|cs| - 1) * c < |audio|
  {
    if |audio| == 0 then []
    else if |audio| <= c then [audio + Zeros(c - |audio|)]
    else
      var rest := Chunks(audio[c..], c);
      assert (|rest| + 1) * c == |rest| * c + c;
      [audio[..c]] + rest
  }

  /** The pieces laid end to end. */
  function Flatten(chunks: seq<Samples>): Samples {
    if chunks == [] then [] else chunks[0] + Flatten(chunks[1..])
  }

  /** Concatenating the chunks gives back the input followed by fewer than `c` zeros of padding. */
  lemma {:induction false} ChunksConcat(audio: Samples, c: int)
    requires c > 0
    ensures var cs := Chunks(audio, c);
            && Flatten(cs) == audio + Zeros(|cs| * c - |audio|)
            && |cs| * c - |audio| < c
    decreases |audio|
  {
    var cs := Chunks(audio, c);
    if |audio| == 0 {
    } else if |audio| <= c {
      assert Flatten(cs) == cs[0] + Flatten([]);
    } else {
      var rest := Chunks(audio[c..], c);
      ChunksConcat(audio[c..], c);
      assert cs == [audio[..c]] + rest;
      assert cs[1..] == rest;
      assert |cs| * c - |audio| == |rest| * c - |audio[c..]|;
      calc {
        Flatten(cs);
        audio[..c] + Flatten(rest);
        audio[..c] + (audio[c..] + Zeros(|rest| * c - |audio[c..]|));
        { assert audio[..c] + audio[c..] == audio; }
        audio + Zeros(|cs| * c - |audio|);
      }
    }
  }

  /** One pass of the loop: the chunk starting at `i`, padded to `c`, followed by the chunks of the rest. */
  lemma ChunkStep(audio: Samples, i: nat, c: int)
    requires i < |audio| && c > 0
    ensures var piece := audio[i..Min(i + c, |audio|)];
            && |piece| > 0
            && Chunks(audio[i..], c)
               == [if |piece| < c then piece + Zeros(c - |piece|) else piece] + Chunks(audio[Min(i + c, |audio|)..], c)
  {
    var rest := audio[i..];
    var piece := audio[i..Min(i + c, |audio|)];
    if |rest| <= c {
      assert piece == rest;
      assert audio[Min(i + c, |audio|)..] == [];
      assert Chunks(rest, c) == [rest + Zeros(c - |rest|)];
      assert rest + Zeros(0) == rest;
    } else {
      assert piece == rest[..c] && audio[Min(i + c, |audio|)..] == rest[c..];
    }
  }

  /** `chunk_audio` with its `for i in range(0, n, chunk_samples)` loop. */
  method ChunkAudio(audio: Samples, sampleRate: int, chunkDurationMs: int) returns (r: Result<seq<Samples>, SignalError>)
    ensures ChunkSamples(sampleRate, chunkDurationMs) == 0 <==> r == Failure(ZeroRangeStep)
    ensures ChunkSamples(sampleRate, chunkDurationMs) < 0 ==> r == Success([])
    ensures ChunkSamples(sampleRate, chunkDurationMs) > 0 ==>
              r == Success(Chunks(audio, ChunkSamples(sampleRate, chunkDurationMs)))
  {
    var chunkSamples := ChunkSamples(sampleRate, chunkDurationMs);
    if chunkSamples == 0 {
      return Failure(ZeroRangeStep);
    }
    var chunks: seq<Samples> := [];
    if chunkSamples < 0 {
      // `range(0, n, step)` with a negative step yields nothing.
      return Success(chunks);
    }
    var c := chunkSamples;
    var i := 0;
    while i < |audio|
      invariant 0 <= i
      invariant chunks + Chunks(audio[Min(i, |audio|)..], c) == Chunks(audio, c)
    {
      var chunk := audio[i..Min(i + c, |audio|)];
      ChunkStep(audio, i, c);
      if |chunk| > 0 {
        if |chunk| < c {
          chunk := chunk + Zeros(c - |chunk|);
        }
        chunks := chunks + [chunk];
      }
      i := i + c;
    }
    assert audio[Min(i, |audio|)..] == [];
    assert chunks + Chunks([], c) == chunks;
    return Success(chunks);
  }

  /** What the decoder delivers: one channel, or frames holding one value per channel. */
  datatype ChannelData = Mono(samples: Samples) | MultiChannel(frames: seq<seq<real>>)

  predicate WellFormed(d: ChannelData) {
    d.MultiChannel? ==> forall k | 0 <= k < |d.frames| :: |d.frames[k]| > 0
  }

  function Sum(xs: seq<real>): real {
    if xs == [] then 0.0 else xs[0] + Sum(xs[1..])
  }

  /** `np.mean(audio, axis=1)`: each frame's channels averaged into one sample. */
  function Downmix(d: ChannelData): (r: Samples)
    requires WellFormed(d)
    ensures d.Mono? ==> r == d.samples
    ensures d.MultiChannel? ==>
              |r| == |d.frames| && forall k | 0 <= k < |r| :: r[k] * (|d.frames[k]| as real) == Sum(d.frames[k])
  {
    match d
    case Mono(s) => s
    case MultiChannel(frames) =>
      seq(|frames|, k requires 0 <= k < |frames| => Sum(frames[k]) / (|frames[k]| as real))
  }

  /** The samples after the channel mix and, when the rates differ, the resampler. */
  function MonoAtTarget(d: ChannelData, sampleRate: int, targetSampleRate: int,
                        resample: (Samples, int, int) -> Samples): (r: Samples)
    requires WellFormed(d)
    ensures sampleRate == targetSampleRate ==> r == Downmix(d)
    ensures sampleRate != targetSampleRate ==> r == resample(Downmix(d), sampleRate, targetSampleRate)
  {
    var mono := Downmix(d);
    if sampleRate != targetSampleRate then resample(mono, sampleRate, targetSampleRate) else mono
  }

  /**
   * `preprocess_audio` after decoding: mix down, resample, then optionally normalise and
   * optionally trim silence with the default threshold and frame length. Either step fails on
   * an empty signal: normalising reduces over it, trimming computes its envelope.
   */
  function PreprocessAudio(d: ChannelData, sampleRate: int, targetSampleRate: int,
                           normalize: bool, removeSilenceFlag: bool,
                           resample: (Samples, int, int) -> Samples,
                           envelope: Samples -> seq<real>): (r: Result<(Samples, int), SignalError>)
    requires WellFormed(d)
    ensures r.Success? ==> r.value.1 == targetSampleRate
    ensures r.Failure? <==> (normalize || removeSilenceFlag) && MonoAtTarget(d, sampleRate, targetSampleRate, resample) == []
    ensures r.Failure? ==> r.error == PreprocessingFailed(if normalize then EmptyArrayReduction else EmptyEnvelope)
    ensures !normalize && !removeSilenceFlag ==>
              r == Success((MonoAtTarget(d, sampleRate, targetSampleRate, resample), targetSampleRate))
    ensures !normalize && !removeSilenceFlag && d.Mono? && sampleRate == targetSampleRate ==>
              r == Success((d.samples, targetSampleRate))
    ensures r.Success? && !removeSilenceFlag && normalize ==>
              r.value.0 == NormalizeAudio(MonoAtTarget(d, sampleRate, targetSampleRate, resample)).value
    ensures r.Success? && removeSilenceFlag ==>
              var mono := MonoAtTarget(d, sampleRate, targetSampleRate, resample);
              var x := if normalize then NormalizeAudio(mono).value else mono;
              r.value.0 == RemoveSilence(x, envelope(x), DefaultSilenceThreshold, DefaultFrameLength)
  {
    var mono := MonoAtTarget(d, sampleRate, targetSampleRate, resample);
    var normalized := if normalize then NormalizeAudio(mono) else Success(mono);
    match normalized
    case Failure(e) => Failure(PreprocessingFailed(e))
    case Success(x) =>
      if removeSilenceFlag && x == [] then Failure(PreprocessingFailed(EmptyEnvelope))
      else
        var trimmed := if removeSilenceFlag
                       then RemoveSilence(x, envelope(x), DefaultSilenceThreshold, DefaultFrameLength)
                       else x;
        Success((trimmed, targetSampleRate))
  }

  /**
   * A normalised result stays within [-1, 1] whether or not silence is trimmed afterwards, since
   * trimming only keeps samples of its input.
   */
  lemma PreprocessedNormalizedWithinUnit(d: ChannelData, sampleRate: int, targetSampleRate: int,
                                         removeSilenceFlag: bool, resample: (Samples, int, int) -> Samples,
                                         envelope: Samples -> seq<real>)
    requires WellFormed(d)
    requires PreprocessAudio(d, sampleRate, targetSampleRate, true, removeSilenceFlag, resample, envelope).Success?
    ensures var r := PreprocessAudio(d, sampleRate, targetSampleRate, true, removeSilenceFlag, resample, envelope);
            forall x | x in r.value.0 :: Abs(x) <= 1.0
  {
    var mono := MonoAtTarget(d, sampleRate, targetSampleRate, resample);
    var n := NormalizeAudio(mono).value;
    assert forall x | x in n :: Abs(x) <= 1.0 by {
      forall x | x in n ensures Abs(x) <= 1.0 {
        var i :| 0 <= i < |n| && n[i] == x;
      }
    }
  }

  /**
   * Every chunk spans the requested duration at the given rate, short by less than one sample
   * when `sample_rate * chunk_duration_ms` is not a whole number of thousands and exactly when it
   * is; laid end to end the chunks are the input padded by less than one chunk of zeros.
   */
  lemma ChunksSpanDuration(audio: Samples, sampleRate: int, chunkDurationMs: int)
    requires ChunkSamples(sampleRate, chunkDurationMs) > 0
    ensures var c := ChunkSamples(sampleRate, chunkDurationMs);
            var cs := Chunks(audio, c);
            && (forall k | 0 <= k < |cs| ::
                  |cs[k]| * 1000 <= sampleRate * chunkDurationMs < (|cs[k]| + 1) * 1000)
            && ((sampleRate * chunkDurationMs) % 1000 == 0 ==>
                  forall k | 0 <= k < |cs| :: |cs[k]| * 1000 == sampleRate * chunkDurationMs)
            && Flatten(cs) == audio + Zeros(|cs| * c - |audio|)
            && |cs| * c - |audio| < c
  {
    var c := ChunkSamples(sampleRate, chunkDurationMs);
    var p := sampleRate * chunkDurationMs;
    if p % 1000 == 0 {
      assert p == (p / 1000) * 1000;
      assert c == p / 1000;
    }
    ChunksConcat(audio, c);
  }

  /**
   * With the default rate and chunk duration, every chunk `chunk_audio` produces is exactly
   * `DefaultChunkDurationMs` of audio at `TargetSampleRate`.
   */
  lemma DefaultChunksSpanDuration(audio: Samples)
    ensures ChunkSamples(TargetSampleRate, DefaultChunkDurationMs) > 0
    ensures var cs := Chunks(audio, ChunkSamples(TargetSampleRate, DefaultChunkDurationMs));
            forall k | 0 <= k < |cs| :: |cs[k]| * 1000 == DefaultChunkDurationMs * TargetSampleRate
  {
    ChunksSpanDuration(audio, TargetSampleRate, DefaultChunkDurationMs);
  }
}
