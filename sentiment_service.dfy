/**
 * The emotion-classification service: a lazily loaded tokenizer, model and pipeline, and the
 * analysis operations on top of them. Each operation is a transition on `SentimentState`; the
 * `SentimentService` class performs it in place on its fields.
 */
module Sentiment {
  import opened Wrappers
  import opened ModelLifecycle
  import opened Emotion
  import PyBuiltins

  /** Handles to the loaded artefacts; a model carries the label names of its configuration. */
  datatype Tokenizer = Tokenizer(id: nat)
  datatype ClassifierModel = ClassifierModel(id: nat, labelNames: seq<string>)
  datatype Pipeline = Pipeline(id: nat)

  /** The pipeline's `device` argument: the device name, or -1 for the CPU. */
  datatype PipelineDevice = OnDevice(device: string) | CpuIndex

  /**
   * The library calls and device queries the service makes, as the values they return:
   * `None` stands for a call that raises.
   */
  datatype SentimentBackend = SentimentBackend(
    cudaAvailable: bool,
    tokenizerFrom: string -> Option<Tokenizer>,
    modelFrom: string -> Option<ClassifierModel>,
    placeOn: (ClassifierModel, string) -> bool,
    pipelineFrom: (ClassifierModel, Tokenizer, PipelineDevice) -> Option<Pipeline>,
    classify: (Pipeline, string) -> Option<ClassifierOutput>,
    gpuTotalMemoryBytes: nat)

  datatype SentimentState = SentimentState(
    device: string,
    tokenizer: Option<Tokenizer>,
    model: Option<ClassifierModel>,
    classifier: Option<Pipeline>,
    loadTime: Option<real>,
    loaded: bool,
    labels: seq<string>)
  {
    /** A loaded service holds every artefact an analysis needs. */
    predicate Valid() {
      loaded ==> tokenizer.Some? && model.Some? && classifier.Some? && loadTime.Some?
    }
  }

  datatype ModelInfo =
    | NotLoaded
    | Loaded(modelName: string, device: string, isLoaded: bool, loadTimeSeconds: Option<real>,
             labels: seq<string>, gpuMemoryMb: Option<real>)

  /** The state of a freshly constructed service. */
  function Initial(configuredDevice: string): (s: SentimentState)
    ensures s.Valid() && !s.loaded && s.model.None? && s.classifier.None?
  {
    SentimentState(configuredDevice, None, None, None, None, false, [])
  }

  function PipelineDeviceFor(device: string): (p: PipelineDevice)
    ensures p == CpuIndex <==> device == "cpu"
    ensures p.OnDevice? ==> p.device == device
  {
    if device != "cpu" then OnDevice(device) else CpuIndex
  }

  /**
   * `load_model`: a no-op on a loaded service unless forced; otherwise resolve the device, then
   * tokenizer, model, placement, labels and pipeline in turn. A failing step leaves the fields set so
   * far and the `loaded` flag as they were.
   */
  function Load(s: SentimentState, modelName: string, b: SentimentBackend, force: bool, elapsed: real)
    : (t: Step<SentimentState, Outcome<ServiceError>>)
    ensures t.result.Pass? ==> t.state.loaded
    ensures t.result.Fail? ==> t.result.error == ModelLoadFailed && t.state.loaded == s.loaded
  {
    if s.loaded && !force then Step(s, Pass)
    else
      var s1 := s.(device := ResolveDevice(s.device, b.cudaAvailable));
      match b.tokenizerFrom(modelName)
      case None => Step(s1, Fail(ModelLoadFailed))
      case Some(tok) =>
        var s2 := s1.(tokenizer := Some(tok));
        match b.modelFrom(modelName)
        case None => Step(s2, Fail(ModelLoadFailed))
        case Some(m) =>
          var s3 := s2.(model := Some(m));
          if !b.placeOn(m, s3.device) then Step(s3, Fail(ModelLoadFailed))
          else
            var s4 := s3.(labels := m.labelNames);
            match b.pipelineFrom(m, tok, PipelineDeviceFor(s4.device))
            case None => Step(s4, Fail(ModelLoadFailed))
            case Some(p) => Step(s4.(classifier := Some(p), loadTime := Some(elapsed), loaded := true), Pass)
  }

  /** Every backend call of a full load succeeds. */
  predicate BackendLoads(b: SentimentBackend, modelName: string, device: string) {
    && b.tokenizerFrom(modelName).Some?
    && b.modelFrom(modelName).Some?
    && b.placeOn(b.modelFrom(modelName).value, device)
    && b.pipelineFrom(b.modelFrom(modelName).value, b.tokenizerFrom(modelName).value, PipelineDeviceFor(device)).Some?
  }

  /** A load fails exactly when it is not skipped and some backend call raises. */
  lemma LoadFailsIffBackendFails(s: SentimentState, modelName: string, b: SentimentBackend, force: bool, elapsed: real)
    ensures Load(s, modelName, b, force, elapsed).result.Fail?
            <==> !(s.loaded && !force) && !BackendLoads(b, modelName, ResolveDevice(s.device, b.cudaAvailable))
  {
  }

  /** A full load installs the artefacts the backend returns on the resolved device. */
  lemma LoadInstallsArtefacts(s: SentimentState, modelName: string, b: SentimentBackend, force: bool, elapsed: real)
    requires !(s.loaded && !force)
    requires BackendLoads(b, modelName, ResolveDevice(s.device, b.cudaAvailable))
    ensures var t := Load(s, modelName, b, force, elapsed);
            var device := ResolveDevice(s.device, b.cudaAvailable);
            var m := b.modelFrom(modelName).value;
            var tok := b.tokenizerFrom(modelName).value;
            && t.result == Pass
            && t.state == SentimentState(device, Some(tok), Some(m),
                                         b.pipelineFrom(m, tok, PipelineDeviceFor(device)),
                                         Some(elapsed), true, m.labelNames)
  {
  }

  lemma LoadKeepsValid(s: SentimentState, modelName: string, b: SentimentBackend, force: bool, elapsed: real)
    requires s.Valid()
    ensures Load(s, modelName, b, force, elapsed).state.Valid()
  {
  }

  /**
   * On a service marked loaded, however it got there, loading without force changes nothing
   * and touches no backend call; in particular a second load after a successful one is a no-op.
   */
  lemma SecondLoadIsNoOp(s: SentimentState, modelName: string, b: SentimentBackend, elapsed: real)
    requires s.loaded
    ensures Load(s, modelName, b, false, elapsed) == Step(s, Pass)
  {
  }

  /**
   * A failed forced reload of a loaded service leaves it marked loaded and still classifying with
   * the pipeline it had before.
   */
  lemma FailedReloadKeepsOldPipeline(s: SentimentState, modelName: string, b: SentimentBackend, elapsed: real)
    requires s.Valid() && s.loaded
    requires Load(s, modelName, b, true, elapsed).result.Fail?
    ensures var t := Load(s, modelName, b, true, elapsed);
            t.state.loaded && t.state.classifier == s.classifier && t.state.loadTime == s.loadTime
  {
  }

  /** `unload_model`: drops the artefacts when a model is held; otherwise nothing happens. */
  function Unload(s: SentimentState): (u: SentimentState)
    ensures s.model.None? ==> u == s
    ensures s.model.Some? ==> !u.loaded && u.model.None? && u.tokenizer.None? && u.classifier.None?
    ensures u.device == s.device && u.loadTime == s.loadTime && u.labels == s.labels
  {
    if s.model.Some? then s.(model := None, tokenizer := None, classifier := None, loaded := false) else s
  }

  lemma UnloadKeepsValid(s: SentimentState)
    requires s.Valid()
    ensures Unload(s).Valid()
  {
  }

  lemma UnloadIdempotent(s: SentimentState)
    ensures Unload(Unload(s)) == Unload(s)
  {
  }

  /** `get_model_info`: only the status of an unloaded service, the full record otherwise. */
  function Info(s: SentimentState, modelName: string, b: SentimentBackend): (i: ModelInfo)
    ensures i.NotLoaded? <==> !s.loaded
    ensures i.Loaded? ==> i.isLoaded && i.modelName == modelName && i.device == s.device
                          && i.loadTimeSeconds == s.loadTime && i.labels == s.labels
    ensures i.Loaded? ==> (i.gpuMemoryMb.Some? <==> b.cudaAvailable)
    ensures i.Loaded? && b.cudaAvailable ==> i.gpuMemoryMb == Some(MemoryMib(b.gpuTotalMemoryBytes))
  {
    if !s.loaded then NotLoaded
    else Loaded(modelName, s.device, s.loaded, s.loadTime, s.labels,
                if b.cudaAvailable then Some(MemoryMib(b.gpuTotalMemoryBytes)) else None)
  }

  /** A valid service reports "not loaded" after an unload. */
  lemma UnloadThenInfoNotLoaded(s: SentimentState, modelName: string, b: SentimentBackend)
    requires s.Valid()
    ensures Info(Unload(s), modelName, b) == NotLoaded
  {
  }

  /** The state an analysis starts from: the service as it is if loaded, else after a lazy load. */
  function EnsureLoaded(s: SentimentState, modelName: string, b: SentimentBackend, elapsed: real)
    : (t: Step<SentimentState, Outcome<ServiceError>>)
    ensures t.result.Pass? <==> t.state.loaded
    ensures s.loaded ==> t == Step(s, Pass)
    ensures !s.loaded ==> t == Load(s, modelName, b, false, elapsed)
  {
    if !s.loaded then Load(s, modelName, b, false, elapsed) else Step(s, Pass)
  }

  /**
   * `self.classifier(text)`: the pipeline's output, or `None` when the call raises, which it
   * also does when no pipeline is held.
   */
  function Classify(s: SentimentState, b: SentimentBackend, text: string): (o: Option<ClassifierOutput>)
    ensures s.classifier.None? ==> o.None?
    ensures s.classifier.Some? ==> o == b.classify(s.classifier.value, text)
  {
    match s.classifier
    case None => None
    case Some(p) => b.classify(p, text)
  }

  /** `analyze`: the dominant emotion of `text`. */
  function Analyze(s: SentimentState, modelName: string, b: SentimentBackend, text: string, elapsed: real)
    : (t: Step<SentimentState, Result<SentimentResult, ServiceError>>)
    ensures t.state == EnsureLoaded(s, modelName, b, elapsed).state
    ensures t.result.Success? ==> t.state.loaded && !PyBuiltins.IsBlank(text)
    ensures t.state.loaded && PyBuiltins.IsBlank(text) ==> t.result == Failure(EmptyText)
  {
    var ready := EnsureLoaded(s, modelName, b, elapsed);
    if ready.result.Fail? then Step(ready.state, Failure(ready.result.error))
    else if PyBuiltins.IsBlank(text) then Step(ready.state, Failure(EmptyText))
    else
      match Classify(ready.state, b, text)
      case None => Step(ready.state, Failure(AnalysisFailed))
      case Some(out) =>
        match DominantEmotion(out)
        case Failure(_) => Step(ready.state, Failure(AnalysisFailed))
        case Success(r) => Step(ready.state, Success(r))
  }

  /** `analyze_with_all_scores`: a score for every label; all zeros for blank text. */
  function AnalyzeWithAllScores(s: SentimentState, modelName: string, b: SentimentBackend, text: string, elapsed: real)
    : (t: Step<SentimentState, Result<map<SentimentLabel, real>, ServiceError>>)
    ensures t.state == EnsureLoaded(s, modelName, b, elapsed).state
    ensures t.result.Success? ==> t.state.loaded && forall l: SentimentLabel :: l in t.result.value
    ensures t.state.loaded && PyBuiltins.IsBlank(text) ==> t.result == Success(ZeroScores())
  {
    var ready := EnsureLoaded(s, modelName, b, elapsed);
    if ready.result.Fail? then Step(ready.state, Failure(ready.result.error))
    else if PyBuiltins.IsBlank(text) then Step(ready.state, Success(ZeroScores()))
    else
      match Classify(ready.state, b, text)
      case None => Step(ready.state, Failure(AnalysisFailed))
      case Some(out) =>
        match EntriesForAllScores(out)
        case Failure(_) => Step(ready.state, Failure(AnalysisFailed))
        case Success(es) => Step(ready.state, Success(AllScores(es)))
  }

  /** `analyze_complete`: `analyze`, then `analyze_with_all_scores` on the state it leaves. */
  function AnalyzeComplete(s: SentimentState, modelName: string, b: SentimentBackend, text: string, elapsed: real)
    : (t: Step<SentimentState, Result<(SentimentResult, map<SentimentLabel, real>), ServiceError>>)
    ensures t.state == EnsureLoaded(s, modelName, b, elapsed).state
    ensures t.result.Success? ==> t.state.loaded && !PyBuiltins.IsBlank(text)
  {
    var first := Analyze(s, modelName, b, text, elapsed);
    if first.result.Failure? then Step(first.state, Failure(first.result.error))
    else
      var second := AnalyzeWithAllScores(first.state, modelName, b, text, elapsed);
      if second.result.Failure? then Step(second.state, Failure(second.result.error))
      else Step(second.state, Success((first.result.value, second.result.value)))
  }

  /**
   * On a loaded service and non-blank text both analyses are decided by the classifier's output
   * alone: each fails with `AnalysisFailed` exactly when the call raises or the output has a
   * shape its code cannot read, and otherwise returns the dominant result of the output, or the
   * all-labels map of the records it iterates over.
   */
  lemma AnalyzeLoadedReadsClassifier(s: SentimentState, modelName: string, b: SentimentBackend, text: string,
                                     elapsed: real)
    requires s.Valid() && s.loaded && !PyBuiltins.IsBlank(text)
    ensures var out := b.classify(s.classifier.value, text);
            var d := Analyze(s, modelName, b, text, elapsed);
            && d.state == s
            && (d.result.Failure? <==> out.None? || DominantEmotion(out.value).Failure?)
            && (d.result.Failure? ==> d.result.error == AnalysisFailed)
            && (out.Some? && DominantEmotion(out.value).Success? ==> d.result == Success(DominantEmotion(out.value).value))
    ensures var out := b.classify(s.classifier.value, text);
            var a := AnalyzeWithAllScores(s, modelName, b, text, elapsed);
            && a.state == s
            && (a.result.Failure? <==> out.None? || EntriesForAllScores(out.value).Failure?)
            && (a.result.Failure? ==> a.result.error == AnalysisFailed)
            && (out.Some? && EntriesForAllScores(out.value).Success? ==>
                  a.result == Success(AllScores(EntriesForAllScores(out.value).value)))
  {
  }

  /**
   * An unloaded service loads before anything else: a failing lazy load is reported by every
   * analysis, even for blank text, and a successful one makes each analysis the analysis of the
   * freshly loaded service. `analyze_complete` loads through its call to `analyze`.
   */
  lemma LazyLoadComesFirst(s: SentimentState, modelName: string, b: SentimentBackend, text: string, elapsed: real)
    requires !s.loaded
    ensures var l := Load(s, modelName, b, false, elapsed);
            l.result.Fail? ==>
              && Analyze(s, modelName, b, text, elapsed) == Step(l.state, Failure(ModelLoadFailed))
              && AnalyzeWithAllScores(s, modelName, b, text, elapsed) == Step(l.state, Failure(ModelLoadFailed))
              && AnalyzeComplete(s, modelName, b, text, elapsed) == Step(l.state, Failure(ModelLoadFailed))
    ensures var l := Load(s, modelName, b, false, elapsed);
            l.result.Pass? ==>
              && Analyze(s, modelName, b, text, elapsed) == Analyze(l.state, modelName, b, text, elapsed)
              && AnalyzeWithAllScores(s, modelName, b, text, elapsed) == AnalyzeWithAllScores(l.state, modelName, b, text, elapsed)
              && AnalyzeComplete(s, modelName, b, text, elapsed) == AnalyzeComplete(l.state, modelName, b, text, elapsed)
  {
  }

  /**
   * The two analyses read a batched output whose first list is empty differently: `analyze`
   * indexes into the empty list and fails, while `analyze_with_all_scores` iterates over nothing
   * and returns all zeros.
   */
  lemma EmptyFirstBatchSplitsAnalyses(s: SentimentState, modelName: string, b: SentimentBackend, text: string,
                                      elapsed: real, more: seq<seq<ScoreEntry>>)
    requires s.Valid() && s.loaded && !PyBuiltins.IsBlank(text)
    requires b.classify(s.classifier.value, text) == Some(Batched([[]] + more))
    ensures Analyze(s, modelName, b, text, elapsed).result == Failure(AnalysisFailed)
    ensures AnalyzeWithAllScores(s, modelName, b, text, elapsed).result == Success(ZeroScores())
    ensures AnalyzeComplete(s, modelName, b, text, elapsed).result == Failure(AnalysisFailed)
  {
    assert ([[]] + more)[0] == [];
  }

  /** Analysing a loaded service leaves its state as it was. */
  lemma AnalysisKeepsLoadedState(s: SentimentState, modelName: string, b: SentimentBackend, text: string, elapsed: real)
    requires s.loaded
    ensures Analyze(s, modelName, b, text, elapsed).state == s
    ensures AnalyzeWithAllScores(s, modelName, b, text, elapsed).state == s
    ensures AnalyzeComplete(s, modelName, b, text, elapsed).state == s
  {
  }

  /** The combined call returns what the two separate calls return, and fails when either fails. */
  lemma CompleteIsAnalyzeThenAllScores(s: SentimentState, modelName: string, b: SentimentBackend, text: string, elapsed: real)
    requires s.loaded
    ensures var c := AnalyzeComplete(s, modelName, b, text, elapsed).result;
            var d := Analyze(s, modelName, b, text, elapsed).result;
            var a := AnalyzeWithAllScores(s, modelName, b, text, elapsed).result;
            && (c.Success? <==> d.Success? && a.Success?)
            && (c.Success? ==> c.value == (d.value, a.value))
  {
  }

  /**
   * On a batched output with distinct raw labels whose dominant label is one of the six named
   * emotions, the all-scores map gives that label exactly the dominant score.
   */
  lemma {:induction false} CompleteIsConsistent(s: SentimentState, modelName: string, b: SentimentBackend,
                                                text: string, elapsed: real, es: seq<ScoreEntry>,
                                                more: seq<seq<ScoreEntry>>)
    requires s.loaded && s.classifier.Some? && !PyBuiltins.IsBlank(text)
    requires b.classify(s.classifier.value, text) == Some(Batched([es] + more))
    requires |es| > 0 && DistinctLabels(es) && es[FirstMaxIndex(es)].name in EmotionMapping
    ensures var c := AnalyzeComplete(s, modelName, b, text, elapsed).result;
            c.Success? && c.value.1[c.value.0.emotion] == c.value.0.score
  {
    CompleteOnBatched(s, modelName, b, text, elapsed, es, more);
    DominantIsFirstMaximum(es);
    DominantIsLastForItsLabel(es);
  }

  /** On a batched output both halves of the combined call read the first inner list. */
  lemma CompleteOnBatched(s: SentimentState, modelName: string, b: SentimentBackend, text: string, elapsed: real,
                          es: seq<ScoreEntry>, more: seq<seq<ScoreEntry>>)
    requires s.loaded && s.classifier.Some? && !PyBuiltins.IsBlank(text)
    requires b.classify(s.classifier.value, text) == Some(Batched([es] + more)) && es != []
    ensures var d := DominantEmotion(Flat(es));
            d.Success? && AnalyzeComplete(s, modelName, b, text, elapsed).result == Success((d.value, AllScores(es)))
  {
    CompleteIsAnalyzeThenAllScores(s, modelName, b, text, elapsed);
    BatchedReadsFirstList(es, more);
    assert ([es] + more)[0] == es;
  }

  /** With distinct raw labels, the first highest record is the last one mapping onto a named label. */
  lemma DominantIsLastForItsLabel(es: seq<ScoreEntry>)
    requires |es| > 0 && DistinctLabels(es) && es[FirstMaxIndex(es)].name in EmotionMapping
    ensures IsLastFor(es, FirstMaxIndex(es), MapRawLabel(es[FirstMaxIndex(es)].name))
  {
    var i := FirstMaxIndex(es);
    var l := MapRawLabel(es[i].name);
    forall j | i < j < |es| ensures !MapsTo(es, j, l) {
      MappingInjective(es[i].name, es[j].name);
    }
  }

  /** Distinct named raw labels map to distinct labels. */
  lemma MappingInjective(x: string, y: string)
    requires x in EmotionMapping
    ensures MapRawLabel(y) == MapRawLabel(x) ==> x == y
  {
  }

  /**
   * The raw labels "neutral" and "disgust" both map to `Neutral`, so the all-scores map keeps the
   * later one's score, while the dominant result may carry the other's.
   */
  lemma NeutralCollectsSeveralRawLabels()
    ensures var es := [ScoreEntry("neutral", 0.6), ScoreEntry("disgust", 0.1)];
            && DominantEmotion(Flat(es)) == Success(SentimentResult(Neutral, 0.6))
            && AllScores(es)[Neutral] == 0.1
  {
    var es := [ScoreEntry("neutral", 0.6), ScoreEntry("disgust", 0.1)];
    NeutralRawLabels();
    TwoEntryDominant(es[0], es[1]);
    LastRecordScores(es[0], es[1]);
  }

  /** Both `neutral` and `disgust` fall outside the mapping table. */
  lemma NeutralRawLabels()
    ensures "neutral" != "disgust"
    ensures MapRawLabel("neutral") == Neutral && MapRawLabel("disgust") == Neutral
  {
    assert "neutral"[0] != "disgust"[0];
  }

  /** The second of two records gives its label the score of that record. */
  lemma LastRecordScores(a: ScoreEntry, b: ScoreEntry)
    ensures AllScores([a, b])[MapRawLabel(b.name)] == b.score
  {
    assert IsLastFor([a, b], 1, MapRawLabel(b.name));
  }

  /** Of two records with different labels, the one with the higher score is dominant. */
  lemma TwoEntryDominant(a: ScoreEntry, b: ScoreEntry)
    requires a.name != b.name && a.score > b.score
    ensures DominantEmotion(Flat([a, b])) == Success(SentimentResult(MapRawLabel(a.name), a.score))
  {
    assert [a, b][1..] == [b];
    assert FirstMaxIndex([a, b]) == 0;
    assert DistinctLabels([a, b]);
    DominantIsFirstMaximum([a, b]);
  }

  /** The service object: its fields are the components of `SentimentState`. */
  class SentimentService {
    const modelName: string
    var device: string
    var tokenizer: Option<Tokenizer>
    var model: Option<ClassifierModel>
    var classifier: Option<Pipeline>
    var loadTime: Option<real>
    var modelLoaded: bool
    var labels: seq<string>

    function State(): SentimentState
      reads this
    {
      SentimentState(device, tokenizer, model, classifier, loadTime, modelLoaded, labels)
    }

    ghost predicate Valid()
      reads this
    {
      State().Valid()
    }

    constructor (modelName: string, configuredDevice: string)
      ensures Valid()
      ensures this.modelName == modelName && State() == Initial(configuredDevice)
    {
      this.modelName := modelName;
      device := configuredDevice;
      tokenizer := None;
      model := None;
      classifier := None;
      loadTime := None;
      modelLoaded := false;
      labels := [];
    }

    method LoadModel(b: SentimentBackend, force: bool, elapsed: real) returns (outcome: Outcome<ServiceError>)
      requires Valid()
      modifies this
      ensures Valid()
      ensures Step(State(), outcome) == Load(old(State()), modelName, b, force, elapsed)
    {
      LoadKeepsValid(State(), modelName, b, force, elapsed);
      if modelLoaded && !force {
        return Pass;
      }
      device := ResolveDevice(device, b.cudaAvailable);
      var tok := b.tokenizerFrom(modelName);
      if tok.None? {
        return Fail(ModelLoadFailed);
      }
      tokenizer := tok;
      var m := b.modelFrom(modelName);
      if m.None? {
        return Fail(ModelLoadFailed);
      }
      model := m;
      if !b.placeOn(m.value, device) {
        return Fail(ModelLoadFailed);
      }
      labels := m.value.labelNames;
      var p := b.pipelineFrom(m.value, tok.value, PipelineDeviceFor(device));
      if p.None? {
        return Fail(ModelLoadFailed);
      }
      classifier := p;
      loadTime := Some(elapsed);
      modelLoaded := true;
      outcome := Pass;
    }

    method UnloadModel()
      requires Valid()
      modifies this
      ensures Valid()
      ensures State() == Unload(old(State()))
    {
      if model.Some? {
        model := None;
        tokenizer := None;
        classifier := None;
        modelLoaded := false;
      }
    }

    function GetModelInfo(b: SentimentBackend): (i: ModelInfo)
      reads this
      ensures i == Info(State(), modelName, b)
    {
      Info(State(), modelName, b)
    }

    method AnalyzeText(b: SentimentBackend, text: string, elapsed: real)
      returns (r: Result<SentimentResult, ServiceError>)
      requires Valid()
      modifies this
      ensures Valid()
      ensures Step(State(), r) == Analyze(old(State()), modelName, b, text, elapsed)
    {
      if !modelLoaded {
        var loading := LoadModel(b, false, elapsed);
        if loading.Fail? {
          return Failure(loading.error);
        }
      }
      if PyBuiltins.IsBlank(text) {
        return Failure(EmptyText);
      }
      var out := Classify(State(), b, text);
      if out.None? {
        return Failure(AnalysisFailed);
      }
      var dominant := DominantEmotion(out.value);
      if dominant.Failure? {
        return Failure(AnalysisFailed);
      }
      r := Success(dominant.value);
    }

    method AnalyzeAllScores(b: SentimentBackend, text: string, elapsed: real)
      returns (r: Result<map<SentimentLabel, real>, ServiceError>)
      requires Valid()
      modifies this
      ensures Valid()
      ensures Step(State(), r) == AnalyzeWithAllScores(old(State()), modelName, b, text, elapsed)
    {
      if !modelLoaded {
        var loading := LoadModel(b, false, elapsed);
        if loading.Fail? {
          return Failure(loading.error);
        }
      }
      if PyBuiltins.IsBlank(text) {
        return Success(ZeroScores());
      }
      var out := Classify(State(), b, text);
      if out.None? {
        return Failure(AnalysisFailed);
      }
      var entries := EntriesForAllScores(out.value);
      if entries.Failure? {
        return Failure(AnalysisFailed);
      }
      var scores := FillAllScores(entries.value);
      r := Success(scores);
    }

    method AnalyzeTextComplete(b: SentimentBackend, text: string, elapsed: real)
      returns (r: Result<(SentimentResult, map<SentimentLabel, real>), ServiceError>)
      requires Valid()
      modifies this
      ensures Valid()
      ensures Step(State(), r) == AnalyzeComplete(old(State()), modelName, b, text, elapsed)
    {
      var dominant := AnalyzeText(b, text, elapsed);
      if dominant.Failure? {
        return Failure(dominant.error);
      }
      var all := AnalyzeAllScores(b, text, elapsed);
      if all.Failure? {
        return Failure(all.error);
      }
      r := Success((dominant.value, all.value));
    }
  }
}
