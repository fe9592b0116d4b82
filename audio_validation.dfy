/**
 * The gate in front of the audio pipeline: an uploaded file is accepted only if it exists,
 * its lower-cased extension is allowed and it is no larger than the size limit.
 * The checks run in that order and the first failing one decides the answer.
 */
module AudioValidation {
  import PyBuiltins
  import opened Wrappers

  /** The keys of the table of supported formats, in declaration order. */
  const AudioFormats: seq<string> := [".wav", ".mp3", ".webm", ".ogg", ".flac", ".m4a"]

  const DefaultMaxSizeMb: int := 50
  const BytesPerMb: int := 1024 * 1024

  /** What the file system reports about the file being validated. */
  datatype FileFacts = FileFacts(path: string, name: string, present: bool, sizeBytes: nat)

  /** Why a file is rejected; each carries what the source's message reports. */
  datatype Rejection =
    | NotFound(path: string)
    | UnsupportedFormat(suffix: string, allowed: seq<string>)
    | TooLarge(sizeBytes: nat, maxSizeMb: int)

  /** The `(is_valid, error_message)` pair; `Accept` is `(True, "")`. */
  datatype Verdict = Accept | Reject(reason: Rejection)

  /** The allowed list actually used: the caller's, or all supported formats when none is given. */
  function AllowedOrDefault(allowed: Option<seq<string>>): (r: seq<string>)
    ensures allowed.None? ==> r == AudioFormats && |r| == 6
    ensures allowed.Some? ==> r == allowed.value
  {
    match allowed
    case None => AudioFormats
    case Some(list) => list
  }

  /** The megabyte comparison `size / 2^20 > max_mb`, stated on whole numbers. */
  predicate ExceedsLimit(sizeBytes: nat, maxSizeMb: int) {
    sizeBytes > maxSizeMb * BytesPerMb
  }

  function ValidateAudioFile(file: FileFacts, maxSizeMb: int, allowed: Option<seq<string>>): (v: Verdict)
    ensures !file.present <==> v == Reject(NotFound(file.path))
    ensures v.Reject? && v.reason.UnsupportedFormat? <==>
              file.present && PyBuiltins.Lower(PyBuiltins.Suffix(file.name)) !in AllowedOrDefault(allowed)
    ensures v.Reject? && v.reason.TooLarge? <==>
              file.present && PyBuiltins.Lower(PyBuiltins.Suffix(file.name)) in AllowedOrDefault(allowed)
              && ExceedsLimit(file.sizeBytes, maxSizeMb)
    ensures v == Accept <==>
              file.present && PyBuiltins.Lower(PyBuiltins.Suffix(file.name)) in AllowedOrDefault(allowed)
              && file.sizeBytes <= maxSizeMb * BytesPerMb
    ensures v.Reject? && v.reason.UnsupportedFormat? ==>
              v.reason == UnsupportedFormat(PyBuiltins.Lower(PyBuiltins.Suffix(file.name)), AllowedOrDefault(allowed))
    ensures v.Reject? && v.reason.TooLarge? ==> v.reason == TooLarge(file.sizeBytes, maxSizeMb)
  {
    var formats := AllowedOrDefault(allowed);
    if !file.present then Reject(NotFound(file.path))
    else
      var suffix := PyBuiltins.Lower(PyBuiltins.Suffix(file.name));
      if suffix !in formats then Reject(UnsupportedFormat(suffix, formats))
      else if ExceedsLimit(file.sizeBytes, maxSizeMb) then Reject(TooLarge(file.sizeBytes, maxSizeMb))
      else Accept
  }

  /** With the defaults, a file of exactly 50 MiB with an upper-case `.WAV` extension is accepted. */
  lemma SizeAtLimitAccepted(path: string)
    ensures ValidateAudioFile(FileFacts(path, "clip.WAV", true, 50 * 1048576), DefaultMaxSizeMb, None) == Accept
  {
    var name := "clip.WAV";
    assert PyBuiltins.RFind("clip.", '.') == 4;
    assert "clip.W"[..5] == "clip.";
    assert PyBuiltins.RFind("clip.W", '.') == 4;
    assert "clip.WA"[..6] == "clip.W";
    assert PyBuiltins.RFind("clip.WA", '.') == 4;
    assert name[..7] == "clip.WA";
    assert PyBuiltins.RFind(name, '.') == 4;
    assert PyBuiltins.Suffix(name) == ".WAV";
    assert PyBuiltins.Lower(".WAV") == ".wav";
  }

  /** A single byte above the limit is rejected, whatever else holds. */
  lemma OneByteOverLimitRejected(file: FileFacts, maxSizeMb: int)
    requires file.present && PyBuiltins.Lower(PyBuiltins.Suffix(file.name)) in AudioFormats
    requires file.sizeBytes == maxSizeMb * BytesPerMb + 1
    ensures ValidateAudioFile(file, maxSizeMb, None) == Reject(TooLarge(file.sizeBytes, maxSizeMb))
  {
  }
}
