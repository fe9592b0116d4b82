/**
 * What the two model services share: device resolution, the errors they raise to their callers,
 * and the shape of a state transition that also returns a result.
 */
module ModelLifecycle {
  /** The error each service operation raises, by the exception the service code raises. */
  datatype ServiceError =
    | ModelLoadFailed        // RuntimeError from `load_model`
    | EmptyText              // ValueError for empty or whitespace-only input text
    | AnalysisFailed         // RuntimeError wrapping a classifier failure
    | FileNotFound(path: string)
    | TranscriptionFailed    // RuntimeError wrapping a transcription failure

  /** A service's new state together with what the operation returned. */
  datatype Step<S, R> = Step(state: S, result: R)

  /** The configured device, with "auto" resolved against CUDA availability. */
  function ResolveDevice(configured: string, cudaAvailable: bool): (d: string)
    ensures configured != "auto" ==> d == configured
    ensures configured == "auto" ==> (d == "cuda" <==> cudaAvailable) && (d == "cpu" <==> !cudaAvailable)
  {
    if configured == "auto" then (if cudaAvailable then "cuda" else "cpu") else configured
  }

  /** Resolution is a fixed point: a resolved device resolves to itself. */
  lemma ResolveDeviceIdempotent(configured: string, cudaAvailable: bool, later: bool)
    ensures ResolveDevice(ResolveDevice(configured, cudaAvailable), later) == ResolveDevice(configured, cudaAvailable)
  {
  }

  const BytesPerMib: real := 1048576.0

  /** `total_memory / (1024**2)`: a device's memory in MiB. */
  function MemoryMib(totalBytes: nat): (mb: real)
    ensures mb * BytesPerMib == totalBytes as real
    ensures 0.0 <= mb
  {
    totalBytes as real / BytesPerMib
  }
}
