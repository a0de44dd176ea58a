/** Server-side acceptance of an uploaded audio file: the extension after the last dot,
    case-insensitively, must be one of six; the declared size may not exceed 25 MB. */
module AudioService {
  import opened Wrappers
  import opened Text

  const AllowedExtensions: set<string> := {"mp3", "wav", "m4a", "flac", "ogg", "webm"}

  /** 25 MB, the limit of the transcription service. */
  const MaxFileSize: nat := 25 * 1024 * 1024

  /** The text after the last dot (Python's name.rsplit('.', 1)[1]). */
  function Extension(filename: string): (e: string)
    requires '.' in filename
    ensures '.' !in e && exists i :: 0 <= i < |filename| && filename[i] == '.' && e == filename[i + 1..]
  {
    var i := LastIndexOf(filename, '.');
    filename[i + 1..]
  }

  /** `is_allowed_file`: the name has a dot and its lowercased extension is allowed. */
  predicate IsAllowedFile(filename: string)
  {
    '.' in filename && Lower(Extension(filename)) in AllowedExtensions
  }

  /** Only the text after the last dot matters, whatever the stem holds (dots
      included), and the comparison ignores case. */
  lemma ExtensionAfterLastDot(stem: string, ext: string)
    requires '.' !in ext
    ensures IsAllowedFile(stem + "." + ext) <==> Lower(ext) in AllowedExtensions
  {
    var name := stem + "." + ext;
    assert name[|stem|] == '.';
    assert name[|stem| + 1..] == ext;
    var i := LastIndexOf(name, '.');
    assert forall j :: |stem| < j < |name| ==> name[j] == ext[j - |stem| - 1];
    assert i == |stem|;
  }

  /** A name ending in a dot has an empty extension and is refused. */
  lemma TrailingDotRefused(stem: string)
    ensures !IsAllowedFile(stem + ".")
  {
    ExtensionAfterLastDot(stem, "");
    assert Lower("") == "";
  }

  /** What the request carries: the file name and, when the client sent one, the
      content length. */
  datatype AudioUpload = AudioUpload(filename: string, contentLength: Option<nat>)

  /** The three refusals; each stands for its message. */
  datatype AudioRefusal = NoFileSelected | UnsupportedFormat | FileTooLarge

  /** `validate_audio_file`: None is (True, ""); otherwise the first refusal, checked
      in the order file, format, size. A missing or zero length skips the size check. */
  function ValidateAudioFile(file: Option<AudioUpload>): (r: Option<AudioRefusal>)
    ensures r.None? <==> file.Some? && file.value.filename != [] && IsAllowedFile(file.value.filename) &&
                         (file.value.contentLength.None? || file.value.contentLength.value <= MaxFileSize)
    ensures r == Some(NoFileSelected) <==> file.None? || file.value.filename == []
    ensures r == Some(UnsupportedFormat) <==> file.Some? && file.value.filename != [] && !IsAllowedFile(file.value.filename)
    ensures r == Some(FileTooLarge) ==> file.Some? && file.value.contentLength.Some? &&
                                        file.value.contentLength.value > MaxFileSize
  {
    if file.None? || file.value.filename == [] then Some(NoFileSelected)
    else if !IsAllowedFile(file.value.filename) then Some(UnsupportedFormat)
    else if file.value.contentLength.Some? && file.value.contentLength.value != 0 &&
            file.value.contentLength.value > MaxFileSize then Some(FileTooLarge)
    else None
  }

  /** Exactly 25 MB passes; one byte more is refused. */
  lemma SizeLimitInclusive(stem: string, ext: string)
    requires '.' !in ext && Lower(ext) in AllowedExtensions
    ensures ValidateAudioFile(Some(AudioUpload(stem + "." + ext, Some(MaxFileSize)))).None?
    ensures ValidateAudioFile(Some(AudioUpload(stem + "." + ext, Some(MaxFileSize + 1)))) == Some(FileTooLarge)
  {
    ExtensionAfterLastDot(stem, ext);
  }
}
