/**
 * The speech-to-text service: a lazily loaded Whisper model and the shaping of its raw
 * transcription output into a `TranscriptionResult`. As for the sentiment service, each operation
 * is a transition on `WhisperState` that the `WhisperService` class performs on its fields.
 */
module Transcription {
  import opened Wrappers
  import opened ModelLifecycle
  import PyBuiltins

  datatype WhisperModel = WhisperModel(id: nat, numParameters: nat)

  /** The configuration the service reads: model size, compute type and model cache directory. */
  datatype WhisperConfig = WhisperConfig(modelSize: string, computeType: string, downloadRoot: string)

  /** The keyword arguments of `whisper.load_model`; `computeType` is passed for CUDA only. */
  datatype LoadRequest = LoadRequest(model: string, device: string, downloadRoot: string, computeType: Option<string>)

  /** The arguments of `model.transcribe`: the path, the verbosity, and the language option if any. */
  datatype TranscribeRequest = TranscribeRequest(path: string, verbose: bool, language: Option<string>)

  /**
   * The keys of the dict `model.transcribe` returns; `None` is an absent key (for `log_probs`, an
   * absent key or a `None` value).
   */
  datatype RawTranscript = RawTranscript(
    text: Option<string>, language: Option<string>, logProbs: Option<seq<real>>, duration: Option<real>)

  datatype TranscriptionResult = TranscriptionResult(
    text: string, language: string, confidence: Option<real>, duration: Option<real>)

  /**
   * The library calls, file-system and device queries the service makes; `None` stands for a call
   * that raises. `confidenceOf` is the exponential of the mean log-probability.
   */
  datatype WhisperBackend = WhisperBackend(
    cudaAvailable: bool,
    loadModel: LoadRequest -> Option<WhisperModel>,
    pathExists: string -> bool,
    transcribeFile: (WhisperModel, TranscribeRequest) -> Option<RawTranscript>,
    confidenceOf: seq<real> -> real,
    gpuName: string,
    gpuTotalMemoryBytes: nat)

  datatype WhisperState = WhisperState(device: string, model: Option<WhisperModel>, loadTime: Option<real>, loaded: bool)
  {
    /** A loaded service holds a model and its load time. */
    predicate Valid() {
      loaded ==> model.Some? && loadTime.Some?
    }
  }

  datatype GpuInfo = GpuInfo(name: string, memoryMb: real)

  datatype ModelInfo =
    | NotLoaded
    | Loaded(modelSize: string, device: string, isLoaded: bool, loadTimeSeconds: Option<real>,
             numParameters: Option<nat>, gpu: Option<GpuInfo>)

  function Initial(configuredDevice: string): (s: WhisperState)
    ensures s.Valid() && !s.loaded && s.model.None?
  {
    WhisperState(configuredDevice, None, None, false)
  }

  /** The compute type requested on CUDA: "default" becomes float16 with CUDA present, float32 without. */
  function ComputeTypeFor(configured: string, cudaAvailable: bool): (c: string)
    ensures configured != "default" ==> c == configured
    ensures configured == "default" ==> c == (if cudaAvailable then "float16" else "float32")
  {
    if configured == "default" then (if cudaAvailable then "float16" else "float32") else configured
  }

  function RequestFor(cfg: WhisperConfig, device: string, cudaAvailable: bool): (r: LoadRequest)
    ensures r.model == cfg.modelSize && r.device == device && r.downloadRoot == cfg.downloadRoot
    ensures r.computeType.Some? <==> device == "cuda"
    ensures r.computeType.Some? ==> r.computeType.value == ComputeTypeFor(cfg.computeType, cudaAvailable)
  {
    LoadRequest(cfg.modelSize, device, cfg.downloadRoot,
                if device == "cuda" then Some(ComputeTypeFor(cfg.computeType, cudaAvailable)) else None)
  }

  /**
   * `load_model`: a no-op on a loaded service unless forced; otherwise resolve the device and load
   * the model. A failure leaves the resolved device, the old model and the `loaded` flag.
   */
  function Load(s: WhisperState, cfg: WhisperConfig, b: WhisperBackend, force: bool, elapsed: real)
    : (t: Step<WhisperState, Outcome<ServiceError>>)
    ensures t.result.Pass? ==> t.state.loaded
    ensures t.result.Fail? ==> t.result.error == ModelLoadFailed && t.state.loaded == s.loaded && t.state.model == s.model
  {
    if s.loaded && !force then Step(s, Pass)
    else
      var device := ResolveDevice(s.device, b.cudaAvailable);
      var s1 := s.(device := device);
      match b.loadModel(RequestFor(cfg, device, b.cudaAvailable))
      case None => Step(s1, Fail(ModelLoadFailed))
      case Some(m) => Step(s1.(model := Some(m), loadTime := Some(elapsed), loaded := true), Pass)
  }

  /** A full load asks for the configured model on the resolved device and installs what it gets. */
  lemma LoadInstallsModel(s: WhisperState, cfg: WhisperConfig, b: WhisperBackend, force: bool, elapsed: real)
    requires !(s.loaded && !force)
    ensures var t := Load(s, cfg, b, force, elapsed);
            var device := ResolveDevice(s.device, b.cudaAvailable);
            var m := b.loadModel(RequestFor(cfg, device, b.cudaAvailable));
            && (t.result.Pass? <==> m.Some?)
            && t.state.device == device
            && (m.Some? ==> t.state == WhisperState(device, m, Some(elapsed), true))
  {
  }

  lemma LoadKeepsValid(s: WhisperState, cfg: WhisperConfig, b: WhisperBackend, force: bool, elapsed: real)
    requires s.Valid()
    ensures Load(s, cfg, b, force, elapsed).state.Valid()
  {
  }

  /**
   * On a service marked loaded, however it got there, loading without force changes nothing
   * and makes no backend call; in particular a second load after a successful one is a no-op.
   */
  lemma SecondLoadIsNoOp(s: WhisperState, cfg: WhisperConfig, b: WhisperBackend, elapsed: real)
    requires s.loaded
    ensures Load(s, cfg, b, false, elapsed) == Step(s, Pass)
  {
  }

  /** `unload_model`: drops the model when one is held; otherwise nothing happens. */
  function Unload(s: WhisperState): (u: WhisperState)
    ensures s.model.None? ==> u == s
    ensures s.model.Some? ==> !u.loaded && u.model.None?
    ensures u.device == s.device && u.loadTime == s.loadTime
  {
    if s.model.Some? then s.(model := None, loaded := false) else s
  }

  lemma UnloadKeepsValid(s: WhisperState)
    requires s.Valid()
    ensures Unload(s).Valid()
  {
  }

  lemma UnloadIdempotent(s: WhisperState)
    ensures Unload(Unload(s)) == Unload(s)
  {
  }

  /** `get_model_info`: only the status of an unloaded service, the full record otherwise. */
  function Info(s: WhisperState, cfg: WhisperConfig, b: WhisperBackend): (i: ModelInfo)
    ensures i.NotLoaded? <==> !s.loaded
    ensures i.Loaded? ==> i.isLoaded && i.modelSize == cfg.modelSize && i.device == s.device
                          && i.loadTimeSeconds == s.loadTime
    ensures i.Loaded? ==> (i.numParameters.Some? <==> s.model.Some?)
    ensures i.Loaded? && s.model.Some? ==> i.numParameters == Some(s.model.value.numParameters)
    ensures i.Loaded? ==> (i.gpu.Some? <==> b.cudaAvailable)
    ensures i.Loaded? && b.cudaAvailable ==>
              i.gpu == Some(GpuInfo(b.gpuName, MemoryMib(b.gpuTotalMemoryBytes)))
  {
    if !s.loaded then NotLoaded
    else Loaded(cfg.modelSize, s.device, s.loaded, s.loadTime,
                if s.model.Some? then Some(s.model.value.numParameters) else None,
                if b.cudaAvailable then Some(GpuInfo(b.gpuName, MemoryMib(b.gpuTotalMemoryBytes))) else None)
  }

  lemma UnloadThenInfoNotLoaded(s: WhisperState, cfg: WhisperConfig, b: WhisperBackend)
    requires s.Valid()
    ensures Info(Unload(s), cfg, b) == NotLoaded
  {
  }

  /** The language option of a call: passed only for a non-empty language hint. */
  function LanguageOption(hint: Option<string>): (o: Option<string>)
    ensures o.Some? <==> hint.Some? && hint.value != ""
    ensures o.Some? ==> o.value == hint.value
  {
    if hint.Some? && hint.value != "" then hint else None
  }

  /** `result.get("language", language or "unknown")`. */
  function DetectedLanguage(raw: Option<string>, hint: Option<string>): (l: string)
    ensures raw.Some? ==> l == raw.value
    ensures raw.None? && LanguageOption(hint).Some? ==> l == hint.value
    ensures raw.None? && LanguageOption(hint).None? ==> l == "unknown"
  {
    match raw
    case Some(v) => v
    case None => if LanguageOption(hint).Some? then hint.value else "unknown"
  }

  /** The `TranscriptionResult` built from the model's raw output. */
  function ShapeTranscript(raw: RawTranscript, hint: Option<string>, confidenceOf: seq<real> -> real)
    : (r: TranscriptionResult)
    ensures r.text == PyBuiltins.Strip(raw.text.GetOr(""))
    ensures r.language == DetectedLanguage(raw.language, hint)
    ensures r.confidence.Some? <==> raw.logProbs.Some?
    ensures raw.logProbs.Some? ==> r.confidence == Some(confidenceOf(raw.logProbs.value))
    ensures r.duration == raw.duration
  {
    TranscriptionResult(
      PyBuiltins.Strip(raw.text.GetOr("")),
      DetectedLanguage(raw.language, hint),
      if raw.logProbs.Some? then Some(confidenceOf(raw.logProbs.value)) else None,
      raw.duration)
  }

  /** Shaping is idempotent on the text: feeding the result's text back in gives the same text. */
  lemma ShapedTextIsIdempotent(raw: RawTranscript, hint: Option<string>, confidenceOf: seq<real> -> real)
    ensures var text := ShapeTranscript(raw, hint, confidenceOf).text;
            ShapeTranscript(raw.(text := Some(text)), hint, confidenceOf).text == text
  {
    PyBuiltins.StripIdempotent(raw.text.GetOr(""));
  }

  /** The state a transcription starts from: the service as it is if loaded, else after a lazy load. */
  function EnsureLoaded(s: WhisperState, cfg: WhisperConfig, b: WhisperBackend, elapsed: real)
    : (t: Step<WhisperState, Outcome<ServiceError>>)
    ensures t.result.Pass? <==> t.state.loaded
    ensures s.loaded ==> t == Step(s, Pass)
    ensures !s.loaded ==> t == Load(s, cfg, b, false, elapsed)
  {
    if !s.loaded then Load(s, cfg, b, false, elapsed) else Step(s, Pass)
  }

  /** `transcribe`: lazy load, then the file check, then the model call and the shaping of its output. */
  function Transcribe(s: WhisperState, cfg: WhisperConfig, b: WhisperBackend, path: string,
                      hint: Option<string>, verbose: bool, elapsed: real)
    : (t: Step<WhisperState, Result<TranscriptionResult, ServiceError>>)
    ensures t.state == EnsureLoaded(s, cfg, b, elapsed).state
    ensures t.result.Success? ==> t.state.loaded && b.pathExists(path)
    ensures t.state.loaded && !b.pathExists(path) ==> t.result == Failure(FileNotFound(path))
  {
    var ready := EnsureLoaded(s, cfg, b, elapsed);
    if ready.result.Fail? then Step(ready.state, Failure(ready.result.error))
    else if !b.pathExists(path) then Step(ready.state, Failure(FileNotFound(path)))
    else
      match ready.state.model
      case None => Step(ready.state, Failure(TranscriptionFailed))
      case Some(m) =>
        match b.transcribeFile(m, TranscribeRequest(path, verbose, LanguageOption(hint)))
        case None => Step(ready.state, Failure(TranscriptionFailed))
        case Some(raw) => Step(ready.state, Success(ShapeTranscript(raw, hint, b.confidenceOf)))
  }

  /**
   * On a loaded service with an existing file, the result is the shaped output of the model call
   * made with the hint as language option, and the service state does not change.
   */
  lemma TranscribeLoadedShapesModelOutput(s: WhisperState, cfg: WhisperConfig, b: WhisperBackend, path: string,
                                          hint: Option<string>, verbose: bool, elapsed: real)
    requires s.Valid() && s.loaded && b.pathExists(path)
    ensures var t := Transcribe(s, cfg, b, path, hint, verbose, elapsed);
            var raw := b.transcribeFile(s.model.value, TranscribeRequest(path, verbose, LanguageOption(hint)));
            && t.state == s
            && (t.result.Success? <==> raw.Some?)
            && (raw.Some? ==> t.result.value == ShapeTranscript(raw.value, hint, b.confidenceOf))
            && (t.result.Failure? ==> t.result.error == TranscriptionFailed)
  {
  }

  /**
   * An unloaded service loads before anything else: a failing lazy load is reported before the
   * file is looked at, and a successful one makes the call a transcription by the freshly loaded
   * service.
   */
  lemma LazyLoadComesFirst(s: WhisperState, cfg: WhisperConfig, b: WhisperBackend, path: string,
                           hint: Option<string>, verbose: bool, elapsed: real)
    requires !s.loaded
    ensures var l := Load(s, cfg, b, false, elapsed);
            l.result.Fail? ==> Transcribe(s, cfg, b, path, hint, verbose, elapsed) == Step(l.state, Failure(ModelLoadFailed))
    ensures var l := Load(s, cfg, b, false, elapsed);
            l.result.Pass? ==>
              Transcribe(s, cfg, b, path, hint, verbose, elapsed) == Transcribe(l.state, cfg, b, path, hint, verbose, elapsed)
  {
  }

  /** The service object: its fields are the components of `WhisperState`. */
  class WhisperService {
    const config: WhisperConfig
    var device: string
    var model: Option<WhisperModel>
    var loadTime: Option<real>
    var modelLoaded: bool

    function State(): WhisperState
      reads this
    {
      WhisperState(device, model, loadTime, modelLoaded)
    }

    ghost predicate Valid()
      reads this
    {
      State().Valid()
    }

    constructor (config: WhisperConfig, configuredDevice: string)
      ensures Valid()
      ensures this.config == config && State() == Initial(configuredDevice)
    {
      this.config := config;
      device := configuredDevice;
      model := None;
      loadTime := None;
      modelLoaded := false;
    }

    method LoadModel(b: WhisperBackend, force: bool, elapsed: real) returns (outcome: Outcome<ServiceError>)
      requires Valid()
      modifies this
      ensures Valid()
      ensures Step(State(), outcome) == Load(old(State()), config, b, force, elapsed)
    {
      LoadKeepsValid(State(), config, b, force, elapsed);
      if modelLoaded && !force {
        return Pass;
      }
      device := ResolveDevice(device, b.cudaAvailable);
      var computeType := None;
      if device == "cuda" {
        computeType := Some(ComputeTypeFor(config.computeType, b.cudaAvailable));
      }
      var request := LoadRequest(config.modelSize, device, config.downloadRoot, computeType);
      var m := b.loadModel(request);
      if m.None? {
        return Fail(ModelLoadFailed);
      }
      model := m;
      loadTime := Some(elapsed);
      modelLoaded := true;
      outcome := Pass;
    }

    method UnloadModel()
      requires Valid()
      modifies this
      ensures Valid()
      ensures State() == Unload(old(State()))
    {
      if model.Some? {
        model := None;
        modelLoaded := false;
      }
    }

    function GetModelInfo(b: WhisperBackend): (i: ModelInfo)
      reads this
      ensures i == Info(State(), config, b)
    {
      Info(State(), config, b)
    }

    method TranscribeFile(b: WhisperBackend, path: string, hint: Option<string>, verbose: bool, elapsed: real)
      returns (r: Result<TranscriptionResult, ServiceError>)
      requires Valid()
      modifies this
      ensures Valid()
      ensures Step(State(), r) == Transcribe(old(State()), config, b, path, hint, verbose, elapsed)
    {
      if !modelLoaded {
        var loading := LoadModel(b, false, elapsed);
        if loading.Fail? {
          return Failure(loading.error);
        }
      }
      if !b.pathExists(path) {
        return Failure(FileNotFound(path));
      }
      if model.None? {
        return Failure(TranscriptionFailed);
      }
      var options := None;
      if hint.Some? && hint.value != "" {
        options := hint;
      }
      var raw := b.transcribeFile(model.value, TranscribeRequest(path, verbose, options));
      if raw.None? {
        return Failure(TranscriptionFailed);
      }
      r := Success(ShapeTranscript(raw.value, hint, b.confidenceOf));
    }
  }
}
