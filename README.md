# Voice sentiment backend: audio utilities and model services

This project is a Dafny model of the core of a voice-sentiment backend. The backend takes recorded or streamed speech, transcribes it with Whisper and classifies the emotion of the transcript with a transformer classifier. The model covers three parts.

- **Audio utilities** (`backend/app/utils/audio_utils.py`):
  - the upload gate `validate_audio_file`;
  - peak normalisation;
  - trimming of leading and trailing silence;
  - fixed-size chunking for streaming;
  - the order of steps in `preprocess_audio`;
  - the rolling `AudioBuffer` used for live audio.
- **Sentiment service** (`backend/app/services/sentiment_service.py`):
  - the lazily loaded tokenizer, model and pipeline, with load, unload and info;
  - the dominant emotion (`analyze`);
  - the all-labels distribution (`analyze_with_all_scores`);
  - both together (`analyze_complete`).
- **Whisper service** (`backend/app/services/whisper_service.py`):
  - the lazily loaded speech model, with load, unload and info;
  - `transcribe`, which checks the file and shapes the model's raw output into a `TranscriptionResult`.

Modules:

- `Wrappers`: `Option`, `Result` and `Outcome`.
- `PyBuiltins`: the Python semantics the code relies on, namely slicing with negative bounds, `str.strip`, ASCII `str.lower` and `PurePath.suffix`.
- `AudioValidation`, `AudioSignal` and `AudioStream`: the audio utilities.
- `Emotion`: label mapping, the stable score sort, dict construction, arg-max and the all-labels view.
- `ModelLifecycle`: device resolution and the service errors.
- `Sentiment` and `Transcription`: the two services.

Each service operation is a pure transition `Step(newState, result)` on a state datatype. The classes `SentimentService` and `WhisperService` hold the same fields and perform the transition in place. Each method's postcondition ties its new state and its result to the transition function. The properties are proved about those functions.

Library calls whose behaviour is outside the code are fields of a backend value; a `None` result stands for a call that raises. These calls are:

- `AutoTokenizer.from_pretrained`, `AutoModelForSequenceClassification.from_pretrained`, `model.to` and `pipeline`;
- the classifier call;
- `whisper.load_model` and `model.transcribe`;
- `Path.exists`;
- `torch.cuda.is_available` and the GPU's name and memory;
- the exponential of the mean log-probability.

Elapsed load times are parameters.

Behaviour of the code as written that its docstrings and names do not suggest, which the model follows:

- **`get_chunk` with `start_offset = 0`**: the docstring (`backend/app/utils/audio_utils.py:440-446`) calls `start_offset` an offset from the end of the buffer, but the window starts there and runs `duration` forward, past the end. The default offset therefore returns an empty array, not the newest samples (see Findings).
- **`max_samples == 0`**: `buffer[-0:]` at `backend/app/utils/audio_utils.py:431-432` keeps the whole buffer, so a zero capacity never trims (`AudioStream.ZeroCapacityKeepsEverything`).
- **Failed load**: `load_model` sets `_model_loaded` only after every step succeeds (`backend/app/services/sentiment_service.py:115`) and its `except` branch only re-raises (121-123). A failed forced reload of a loaded service therefore stays marked loaded and keeps classifying with its previous pipeline (`Sentiment.FailedReloadKeepsOldPipeline`).
- **Seven labels, not six**: the class docstring (`backend/app/services/sentiment_service.py:26-31`) and `EMOTION_MAPPING` (37-44) name six emotions, but `analyze_with_all_scores` fills in every member of the label enumeration (228-230), which also has `Neutral`. The all-scores map has seven keys.
- **`Neutral` collects several raw labels**: `EMOTION_MAPPING.get(label, NEUTRAL)` (180-182, 224) sends every raw label outside the table to `Neutral`, and a later one overwrites an earlier one's score (`Sentiment.NeutralCollectsSeveralRawLabels`).
- **The two analyses read a batched output differently**: `analyze` unwraps the first inner list and then indexes it (153-159), while `analyze_with_all_scores` iterates over it (215-221). A first list that is empty fails the first and gives all zeros in the second (`Sentiment.EmptyFirstBatchSplitsAnalyses`).

## Model

| member | source | states |
|---|---|---|
| AudioValidation.AllowedOrDefault | backend/app/utils/audio_utils.py:59-60 | With no list given, the allowed suffixes are the six keys of the supported-format table; a given list is used as it is |
| AudioValidation.ValidateAudioFile | backend/app/utils/audio_utils.py:43-78 | Checks in order, first failure wins: "not found" (with the path) iff the file is absent; "unsupported" iff it is present and its lower-cased suffix is not allowed, carrying that suffix and the allowed list; "too large" iff present, allowed and more than `max_size_mb` MiB, carrying the size and the limit; accepted iff present, allowed and within the limit |
| AudioValidation.SizeAtLimitAccepted | backend/app/utils/audio_utils.py:69-78 | With the defaults, a file named `clip.WAV` of exactly 50 MiB is accepted: the suffix is compared lower-cased and the size limit is inclusive |
| AudioValidation.OneByteOverLimitRejected | backend/app/utils/audio_utils.py:74-76 | A supported file one byte above the limit is rejected as too large |
| PyBuiltins.Suffix | backend/app/utils/audio_utils.py:69 | `PurePath.suffix`: non-empty exactly when the name's last dot is neither its first nor its last character, and then it is the name from that dot on; otherwise empty |
| PyBuiltins.Lower | backend/app/utils/audio_utils.py:69 | Lower-casing keeps the length and maps each ASCII capital to its small letter |
| PyBuiltins.Slice | backend/app/utils/audio_utils.py:430-432 | Python slicing: in-range bounds give exactly `s[i..j]`; a negative bound counts from the end (clamped at the start), so `s[-k:]` is the last `min(k, len)` elements; inverted bounds give an empty result; never longer than `s` |
| PyBuiltins.Strip | backend/app/services/sentiment_service.py:143 | `str.strip()` is empty iff the text is all whitespace; otherwise it neither starts nor ends with whitespace |
| PyBuiltins.StripIsTrimmedSlice | backend/app/services/whisper_service.py:154 | What `strip` keeps is one contiguous piece of the input, and everything it drops is whitespace |
| PyBuiltins.StripIdempotent | backend/app/services/whisper_service.py:154 | Stripping twice is the same as stripping once |
| PyBuiltins.IsBlank | backend/app/services/sentiment_service.py:143 | `not text or not text.strip()` holds exactly when every character is whitespace, the empty text included |
| AudioSignal.MaxAbs | backend/app/utils/audio_utils.py:217 | `np.max(np.abs(x))` bounds every sample's magnitude and is reached by one of them |
| AudioSignal.MaxAbsZeroIffSilent | backend/app/utils/audio_utils.py:217-220 | The peak is zero exactly when every sample is zero |
| AudioSignal.ScaleByPeak | backend/app/utils/audio_utils.py:218-219 | Dividing by the peak leaves every sample in [-1, 1] with one of them at magnitude 1 |
| AudioSignal.NormalizeAudio | backend/app/utils/audio_utils.py:207-220 | Fails (empty-array reduction) iff the input is empty; an all-zero signal comes back unchanged; any other comes back divided by its peak, with peak exactly 1 |
| AudioSignal.NormalizeIdempotent | backend/app/utils/audio_utils.py:207-220 | Normalising a normalised signal changes nothing |
| AudioSignal.NonSilentIndices | backend/app/utils/audio_utils.py:252-255 | `np.where(envelope > threshold)`: exactly the loud indices, strictly increasing |
| AudioSignal.RemoveSilence | backend/app/utils/audio_utils.py:243-264 | Returns the audio unchanged when no sample is loud; never lengthens it and keeps only samples of the input |
| AudioSignal.RemoveSilenceWindow | backend/app/utils/audio_utils.py:257-264 | The result is exactly the audio from one frame before the first loud sample to one frame after the last, clamped to the buffer |
| AudioSignal.SilenceWindowKeepsLoud | backend/app/utils/audio_utils.py:257-264 | With a frame of at least one sample, the trimmed audio is non-empty and holds every loud sample, shifted left by the samples cut from the front |
| AudioSignal.ChunkSamples | backend/app/utils/audio_utils.py:340 | The chunk size is `sample_rate * chunk_duration_ms / 1000` truncated toward zero |
| AudioSignal.Chunks | backend/app/utils/audio_utils.py:342-349 | Every chunk has exactly the chunk size; there are none for empty input, and otherwise just enough to cover the input |
| AudioSignal.ChunksConcat | backend/app/utils/audio_utils.py:342-351 | Concatenating the chunks gives back the input followed by fewer than one chunk of zero padding |
| AudioSignal.ChunkAudio | backend/app/utils/audio_utils.py:324-351 | The stepping loop returns exactly `Chunks`; a zero step fails as `range` does, and a negative step yields no chunks |
| AudioSignal.Downmix | backend/app/utils/audio_utils.py:295-297 | Mono input is kept; each multi-channel frame becomes the mean of its channels |
| AudioSignal.MonoAtTarget | backend/app/utils/audio_utils.py:295-307 | The channels are mixed down first; the down-mix is resampled from the file's rate to the target rate exactly when the two differ |
| AudioSignal.PreprocessAudio | backend/app/utils/audio_utils.py:285-321 | Always reports the target rate; fails (wrapped) iff normalisation or trimming runs on an empty signal, with the error of the first step that runs; with every step off, the result is the down-mixed, resampled signal (so mono input at the target rate comes back unchanged); with normalisation only, the result is the normalised down-mix; with trimming on, the result is `RemoveSilence` of the (normalised, if asked) down-mix with the default threshold and frame length |
| AudioSignal.PreprocessedNormalizedWithinUnit | backend/app/utils/audio_utils.py:309-315 | A normalised preprocessing result has every sample in [-1, 1], whether or not silence is trimmed afterwards |
| AudioSignal.ChunksSpanDuration | backend/app/utils/audio_utils.py:324-340 | Every chunk spans the requested duration at the given rate, short by less than one sample when the size is truncated and exact when it divides evenly; laid end to end the chunks are the input padded by less than one chunk of zeros |
| AudioSignal.DefaultChunksSpanDuration | backend/app/utils/audio_utils.py:324-340 | At the default rate and chunk duration every chunk is exactly `DefaultChunkDurationMs` of audio at `TargetSampleRate` |
| AudioStream.Trimmed | backend/app/utils/audio_utils.py:430-432 | With positive capacity, trimming keeps the newest `min(capacity, length)` samples; capacity 0 keeps everything; a negative capacity drops that many oldest samples |
| AudioStream.Appended | backend/app/utils/audio_utils.py:423-432 | Locked: unchanged. Otherwise, with positive capacity: the newest `min(capacity, old + new)` samples of old followed by new |
| AudioStream.TrimAfterAppend | backend/app/utils/audio_utils.py:423-432 | Trimming before an append does not change what trimming after it keeps |
| AudioStream.AppendAllKeepsNewest | backend/app/utils/audio_utils.py:423-432 | After any sequence of appends, the buffer holds the newest `min(capacity, total)` samples of everything appended, in order |
| AudioStream.AudioBuffer.constructor | backend/app/utils/audio_utils.py:406-421 | A new buffer is empty and unlocked and holds the given rate and capacity |
| AudioStream.AudioBuffer.Append | backend/app/utils/audio_utils.py:423-432 | The new buffer is `Appended(old buffer, data)`; it never exceeds a positive capacity |
| AudioStream.AudioBuffer.GetChunk | backend/app/utils/audio_utils.py:434-458 | The window `[len - offset, len - offset + duration)` clamped to the buffer, in order; it is empty iff the buffer is empty, the offset is not positive, the duration is not positive, or the window ends before sample 0 |
| AudioStream.AudioBuffer.GetChunkEndingAt | backend/app/utils/audio_utils.py:434-448 | The window the parameters describe: `duration` samples ending `start_offset` before the end; empty when the offset reaches past the start |
| AudioStream.AudioBuffer.Clear | backend/app/utils/audio_utils.py:460-462 | The buffer becomes empty |
| AudioStream.AudioBuffer.GetAll | backend/app/utils/audio_utils.py:464-466 | Returns the whole buffer |
| AudioStream.AudioBuffer.IsEmpty | backend/app/utils/audio_utils.py:468-470 | True iff the buffer holds no sample |
| AudioStream.GetChunkAtEndIsEmpty | backend/app/utils/audio_utils.py:449-456 | As written, a window starting at the current end, which is the default offset, is always empty |
| AudioStream.GetChunkEndingAtEndIsNewest | backend/app/utils/audio_utils.py:434-448 | The intended window at the end is the newest `duration` samples; on a buffer holding exactly `duration` samples it is the whole buffer |
| AudioStream.GetChunkEndingAtIsShifted | backend/app/utils/audio_utils.py:449-458 | The intended window equals the written one with the start offset moved back by the duration |
| AudioStream.GetChunkWholeBuffer | backend/app/utils/audio_utils.py:449-458 | Reaching back over the whole buffer with a long enough duration returns everything |
| AudioStream.GetChunkBeforeStart | backend/app/utils/audio_utils.py:449-456 | A window that ends at or before sample 0 is empty |
| AudioStream.AppendOverflowKeepsCapacity | backend/app/utils/audio_utils.py:430-432 | An append that overflows a positive capacity leaves exactly the newest capacity samples |
| AudioStream.ZeroCapacityKeepsEverything | backend/app/utils/audio_utils.py:420-432 | With capacity 0 nothing is ever trimmed |
| Emotion.MapRawLabel | backend/app/services/sentiment_service.py:37-44 | A raw label in the table gets its emotion; any other raw label, and only such a label, gets `Neutral` |
| Emotion.SortByScoreDesc | backend/app/services/sentiment_service.py:163 | `sorted(..., reverse=True)` by score: descending and a permutation of the records |
| Emotion.SortIsStable | backend/app/services/sentiment_service.py:163 | Records with equal scores keep their original relative order |
| Emotion.SortOfSortedIsIdentity | backend/app/services/sentiment_service.py:163 | Records already in descending score order come out of the sort unchanged |
| Emotion.FirstMaxIndex | backend/app/services/sentiment_service.py:173 | `max(..., key=...)`: an index of the highest score, and every earlier record scores strictly less (first maximum wins) |
| Emotion.SortHeadIsFirstMax | backend/app/services/sentiment_service.py:161-173 | The head of the stable descending sort is the first record of highest score |
| Emotion.FirstMaxOfSortedIsHead | backend/app/services/sentiment_service.py:173 | On a descending list, the first maximum is at the head |
| Emotion.DictSet | backend/app/services/sentiment_service.py:161-164 | `d[name] = score`: a new name is appended as the last key; with distinct keys, an existing key's record is replaced in place and every other record is kept |
| Emotion.BuildDictIsDict | backend/app/services/sentiment_service.py:161-164 | The dict comprehension yields exactly the Python dict of its records: every name is a key, keys are ordered by their first record, and each key holds its last record's score |
| Emotion.BuildDictDistinct | backend/app/services/sentiment_service.py:161-164 | Without repeated labels, the dict comprehension holds the records themselves, in the same order |
| Emotion.ScoresForAnalyze | backend/app/services/sentiment_service.py:150-169 | The `scores` dict of `analyze`: fails with an index error iff the output is batched with an empty first list; otherwise it is the dict of the (first) list of records sorted by descending score; empty for an empty batch |
| Emotion.DominantEmotion | backend/app/services/sentiment_service.py:150-187 | Fails iff the output is batched with an empty first list; an empty output gives `(Neutral, 1.0)` |
| Emotion.BatchedReadsFirstList | backend/app/services/sentiment_service.py:153-156 | A batched output is read as its first inner list |
| Emotion.DistinctScoresKeepSortedOrder | backend/app/services/sentiment_service.py:159-164 | With distinct labels, the `scores` dict is the sorted records |
| Emotion.DominantIsFirstMaximum | backend/app/services/sentiment_service.py:159-187 | With distinct raw labels, the dominant result is the first record of highest score, label mapped |
| Emotion.RepeatedLabelExample | backend/app/services/sentiment_service.py:161-174 | A repeated raw label keeps its first position but its last score: when records a, b, c have scores a > b > c and a and c share a label, b dominates (`joy .9, anger .7, joy .5` yields anger 0.7) |
| Emotion.LastScoreFor | backend/app/services/sentiment_service.py:221-225 | None iff no record maps to the label; otherwise the score of the last record that maps to it |
| Emotion.AllScores | backend/app/services/sentiment_service.py:219-232 | Every label is present; a label no record maps to has 0.0; otherwise the last mapping record's score |
| Emotion.AllScoresInUnitRange | backend/app/services/sentiment_service.py:219-232 | Scores within [0, 1] give every label a value within [0, 1] |
| Emotion.EntriesForAllScores | backend/app/services/sentiment_service.py:213-221 | Only a non-empty batched output yields records, namely its first list; a flat list fails, as iterating a record's keys does |
| Emotion.ZeroScores | backend/app/services/sentiment_service.py:209-210 | Every label is present with score 0.0 |
| Emotion.FillAllScores | backend/app/services/sentiment_service.py:219-232 | The record loop followed by the fill-in loop computes exactly `AllScores` |
| ModelLifecycle.ResolveDevice | backend/app/services/sentiment_service.py:87-88 | "auto" becomes "cuda" iff CUDA is available and "cpu" otherwise; any other setting is kept |
| ModelLifecycle.ResolveDeviceIdempotent | backend/app/services/whisper_service.py:77-78 | A resolved device stays as it is on later loads |
| ModelLifecycle.MemoryMib | backend/app/services/sentiment_service.py:269-272 | Total GPU memory in MiB: times 2^20 gives the byte count |
| Sentiment.Initial | backend/app/services/sentiment_service.py:60-67 | A new service is unloaded, holds no model or pipeline, and is valid |
| Sentiment.PipelineDeviceFor | backend/app/services/sentiment_service.py:110 | The pipeline gets -1 exactly for "cpu", the device name otherwise |
| Sentiment.Load | backend/app/services/sentiment_service.py:72-123 | Success leaves the service loaded; failure reports a load error and leaves the `loaded` flag as it was |
| Sentiment.LoadFailsIffBackendFails | backend/app/services/sentiment_service.py:79-123 | A load fails iff it is not skipped and one of the tokenizer, model, placement and pipeline steps raises |
| Sentiment.LoadInstallsArtefacts | backend/app/services/sentiment_service.py:85-115 | A full load installs the backend's tokenizer, model, pipeline (on the mapped device), the model's labels and the load time, on the resolved device |
| Sentiment.LoadKeepsValid | backend/app/services/sentiment_service.py:72-123 | Loading, successful or not, keeps "loaded implies every artefact present" |
| Sentiment.SecondLoadIsNoOp | backend/app/services/sentiment_service.py:79-81 | On any service marked loaded, an unforced load returns without changing anything or calling the backend |
| Sentiment.FailedReloadKeepsOldPipeline | backend/app/services/sentiment_service.py:85-123 | A failed forced reload of a loaded service leaves it marked loaded, with its old pipeline and load time |
| Sentiment.Unload | backend/app/services/sentiment_service.py:276-291 | With a model held, drops model, tokenizer and pipeline and clears `loaded`; otherwise nothing changes |
| Sentiment.UnloadKeepsValid | backend/app/services/sentiment_service.py:276-291 | Unloading keeps the validity invariant |
| Sentiment.UnloadIdempotent | backend/app/services/sentiment_service.py:276-291 | Unloading twice is unloading once |
| Sentiment.Info | backend/app/services/sentiment_service.py:255-274 | "not loaded" iff unloaded; otherwise the model name, device, load time and labels, plus the GPU's total memory in MiB iff CUDA is available |
| Sentiment.UnloadThenInfoNotLoaded | backend/app/services/sentiment_service.py:255-291 | After an unload, a valid service reports "not loaded" |
| Sentiment.EnsureLoaded | backend/app/services/sentiment_service.py:140-141 | An unloaded service is loaded without force; a loaded one is left alone; the lazy load succeeds iff the service ends loaded |
| Sentiment.Classify | backend/app/services/sentiment_service.py:150 | Calling the pipeline: its output, or a raise when no pipeline is held |
| Sentiment.Analyze | backend/app/services/sentiment_service.py:125-191 | The state is that of the lazy load; a success needs a loaded service and non-blank text; on a loaded service, blank text is rejected as empty |
| Sentiment.AnalyzeWithAllScores | backend/app/services/sentiment_service.py:193-236 | The state is that of the lazy load; a success maps every label; on a loaded service, blank text yields all zeros |
| Sentiment.AnalyzeComplete | backend/app/services/sentiment_service.py:238-253 | Leaves the state the lazy load leaves (the service as it was when already loaded); a success needs a loaded service and non-blank text |
| Sentiment.AnalyzeLoadedReadsClassifier | backend/app/services/sentiment_service.py:143-236 | On a loaded service and non-blank text: the state is unchanged; `analyze` fails with an analysis error iff the classifier raises or its output has an empty first list, and otherwise returns the dominant result of the output; `analyze_with_all_scores` fails with an analysis error iff the classifier raises or its output is not a non-empty batch, and otherwise returns the all-labels map of the first list |
| Sentiment.LazyLoadComesFirst | backend/app/services/sentiment_service.py:140-253 | On an unloaded service a failing lazy load is reported by all three analyses, even for blank text (`analyze_complete` loads through `analyze`); after a successful one each analysis is the analysis of the loaded service |
| Sentiment.EmptyFirstBatchSplitsAnalyses | backend/app/services/sentiment_service.py:153-232 | A batched output whose first list is empty fails `analyze` and `analyze_complete` but gives all zeros in `analyze_with_all_scores` |
| Sentiment.AnalysisKeepsLoadedState | backend/app/services/sentiment_service.py:125-253 | On a loaded service, no analysis changes the service state |
| Sentiment.CompleteIsAnalyzeThenAllScores | backend/app/services/sentiment_service.py:251-253 | The combined call succeeds iff both separate calls do, and returns their pair |
| Sentiment.CompleteIsConsistent | backend/app/services/sentiment_service.py:159-232 | With distinct raw labels and a dominant label from the table, the all-scores map gives the dominant label exactly the dominant score |
| Sentiment.CompleteOnBatched | backend/app/services/sentiment_service.py:150-253 | On a batched output with a non-empty first list, the combined call succeeds with the dominant result of that list and its all-labels map |
| Sentiment.NeutralCollectsSeveralRawLabels | backend/app/services/sentiment_service.py:180-225 | With "neutral" 0.6 and "disgust" 0.1, the dominant result is `Neutral 0.6` while the all-scores map gives `Neutral` 0.1 |
| Sentiment.SentimentService.constructor | backend/app/services/sentiment_service.py:55-67 | A new service has the initial state |
| Sentiment.SentimentService.LoadModel | backend/app/services/sentiment_service.py:72-123 | Performs `Load` in place and keeps the invariant |
| Sentiment.SentimentService.UnloadModel | backend/app/services/sentiment_service.py:276-291 | Performs `Unload` in place |
| Sentiment.SentimentService.GetModelInfo | backend/app/services/sentiment_service.py:255-274 | Reports `Info` of the current state |
| Sentiment.SentimentService.AnalyzeText | backend/app/services/sentiment_service.py:125-191 | Performs `Analyze` in place |
| Sentiment.SentimentService.AnalyzeAllScores | backend/app/services/sentiment_service.py:193-236 | Performs `AnalyzeWithAllScores` in place, with the two filling loops |
| Sentiment.SentimentService.AnalyzeTextComplete | backend/app/services/sentiment_service.py:238-253 | Performs `AnalyzeComplete` in place |
| Transcription.Initial | backend/app/services/whisper_service.py:53-57 | A new service is unloaded with no model, and valid |
| Transcription.ComputeTypeFor | backend/app/services/whisper_service.py:91-93 | "default" becomes float16 with CUDA available and float32 without; any other setting is kept |
| Transcription.RequestFor | backend/app/services/whisper_service.py:83-94 | The load request names the model size, device and cache directory, and carries a compute type iff the device is "cuda" |
| Transcription.Load | backend/app/services/whisper_service.py:62-107 | Success leaves the service loaded; failure reports a load error and keeps the `loaded` flag and the old model |
| Transcription.LoadInstallsModel | backend/app/services/whisper_service.py:77-99 | A full load resolves the device, and succeeds iff the model loads, installing it with its load time |
| Transcription.LoadKeepsValid | backend/app/services/whisper_service.py:62-107 | Loading keeps "loaded implies a model and a load time" |
| Transcription.SecondLoadIsNoOp | backend/app/services/whisper_service.py:69-71 | On any service marked loaded, an unforced load returns without changing anything or calling the backend |
| Transcription.Unload | backend/app/services/whisper_service.py:252-263 | With a model held, drops it and clears `loaded`; otherwise nothing changes |
| Transcription.UnloadKeepsValid | backend/app/services/whisper_service.py:252-263 | Unloading keeps the validity invariant |
| Transcription.UnloadIdempotent | backend/app/services/whisper_service.py:252-263 | Unloading twice is unloading once |
| Transcription.Info | backend/app/services/whisper_service.py:230-250 | "not loaded" iff unloaded; otherwise model size, device and load time, the held model's parameter count iff a model is held, and the GPU's name and total memory in MiB iff CUDA is available |
| Transcription.UnloadThenInfoNotLoaded | backend/app/services/whisper_service.py:230-263 | After an unload, a valid service reports "not loaded" |
| Transcription.LanguageOption | backend/app/services/whisper_service.py:143-145 | The language option is passed iff the hint is present and non-empty |
| Transcription.DetectedLanguage | backend/app/services/whisper_service.py:155 | The model's language if reported, else a non-empty hint, else "unknown" |
| Transcription.ShapeTranscript | backend/app/services/whisper_service.py:153-175 | Text is the stripped raw text (empty if absent); confidence is present iff log-probabilities are; duration is passed through |
| Transcription.ShapedTextIsIdempotent | backend/app/services/whisper_service.py:154 | Feeding the shaped text back through shaping leaves it unchanged |
| Transcription.EnsureLoaded | backend/app/services/whisper_service.py:128-130 | An unloaded service is loaded without force; a loaded one is left alone; the lazy load succeeds iff the service ends loaded |
| Transcription.Transcribe | backend/app/services/whisper_service.py:109-179 | The state is that of the lazy load; a success needs a loaded service and an existing file; on a loaded service a missing file is reported as not found |
| Transcription.TranscribeLoadedShapesModelOutput | backend/app/services/whisper_service.py:141-175 | On a loaded service with an existing file, the state is unchanged and the result is the shaped output of the model call made with the language option, or a transcription error iff that call raises |
| Transcription.LazyLoadComesFirst | backend/app/services/whisper_service.py:128-137 | On an unloaded service a failing lazy load is reported before the file is checked; after a successful one the call is a transcription by the loaded service |
| Transcription.WhisperService.constructor | backend/app/services/whisper_service.py:48-57 | A new service has the initial state |
| Transcription.WhisperService.LoadModel | backend/app/services/whisper_service.py:62-107 | Performs `Load` in place and keeps the invariant |
| Transcription.WhisperService.UnloadModel | backend/app/services/whisper_service.py:252-263 | Performs `Unload` in place |
| Transcription.WhisperService.GetModelInfo | backend/app/services/whisper_service.py:230-250 | Reports `Info` of the current state |
| Transcription.WhisperService.TranscribeFile | backend/app/services/whisper_service.py:109-179 | Performs `Transcribe` in place |

## Left out

- Decoding and encoding are not modelled: `convert_to_wav`, `_convert_with_scipy`, `get_audio_duration`, `audio_to_base64` and `base64_to_audio` are file, ffmpeg or codec I/O outside the modelled core.
- `AudioBuffer.length_seconds` is not modelled: it is a floating-point division. The buffer's capacity is given directly as the sample count `int(sample_rate * max_duration)`.
- AudioStream.AudioBuffer.GetChunk: the offset and duration are whole sample counts. The source multiplies seconds by the rate and truncates the float; that rounding is not modelled.
- AudioSignal.ChunkSamples: the quotient is exact, so float rounding of `sample_rate * chunk_duration_ms / 1000` is not modelled.
- Samples are exact reals: NaN, infinities and float rounding of the division in `normalize_audio` are not modelled.
- AudioSignal.RemoveSilence takes the envelope as an input: the median filter and Hilbert transform are signal processing on floats. The default -40 dB threshold is its linear value 0.01.
- AudioSignal.RemoveSilence returns an empty input unchanged. Called directly on an empty array, the source raises inside `scipy.signal.hilbert`; that failure is modelled only where preprocessing trims an empty signal.
- AudioSignal.PreprocessAudio starts from the decoded channels: reading the file and the resampler are inputs. Among the wrapped exceptions only those raised on an empty signal, by normalising or by trimming, are modelled.
- AudioSignal.Downmix requires every multi-channel frame to have at least one channel: a zero-channel frame would be a NaN mean in the source.
- AudioValidation.ValidateAudioFile takes the file's existence, name and size as inputs, and reports the rejection reason rather than the formatted message text.
- PyBuiltins.Lower lower-cases ASCII letters only, not the full Unicode case mapping of `str.lower`.
- `WhisperService.transcribe_numpy` is not modelled: it writes a temporary WAV file and then calls `transcribe`, which is modelled.
- Sentiment.Load and Transcription.Load take the elapsed load time as a parameter; the clock is not modelled. `model.eval()` and the CUDA cache release in unload have no modelled effect.
- Transcription.ShapeTranscript takes the confidence function (`exp(mean(log_probs))`) as a parameter; the floating-point formula is not modelled. `Path(audio_path)` normalisation of the path string is not modelled.
- The singleton construction, the class-level lock and logging are not modelled; the model is single-threaded.
- Emotion.SentimentLabel assumes the label enumeration has exactly seven members in this order, since `backend/app/models/schemas.py` is not part of this model.
- Emotion.ScoreEntry always carries a label and a score: the `.get("label", "unknown")` and `.get("score", 0.0)` defaults of `analyze_with_all_scores` for a record missing either key are not modelled.
- Emotion.AllScores is a map: the insertion order of the returned dict (labels in record order, then the missing ones in enumeration order) is not modelled.
- Transcription.Info assumes the held model carries a parameter count (`self.model.num_parameters`); a model object without that attribute, on which `get_model_info` would raise, is not modelled.
- Transcription.DetectedLanguage models an absent "language" key only; a key present with the value None, which the source passes through as None, is not modelled.
- Emotion.DominantIsFirstMaximum is stated for distinct raw labels only. With repeated labels the dict keeps the first position and the last score (`Emotion.RepeatedLabelExample`).

## Findings

| source | as written | input that shows it | evidently intended | confidence | as-written member | corrected member |
|---|---|---|---|---|---|---|
| backend/app/utils/audio_utils.py:449-458 | The window starts `start_offset` before the end and reaches `duration` beyond it, so the default `start_offset = 0` always yields an empty array | `get_chunk()` with its defaults on a buffer holding 2 s of samples returns nothing | The `duration` samples ending `start_offset` before the current end; with the defaults, the newest 2 s | medium, not executed | AudioStream.GetChunkAtEndIsEmpty | AudioStream.GetChunkEndingAtEndIsNewest |
