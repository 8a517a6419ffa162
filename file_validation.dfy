/** `FileValidationService`: the local checks on a selected audio file, the
    title derived from its name, and the size-based duration estimate. */
module FileValidation {
  import opened Common
  import Text

  /** The attributes of a browser `File` that the checks read. */
  datatype AudioFile = AudioFile(name: string, mimeType: string, size: nat)

  datatype ValidationResult = ValidationResult(isValid: bool, error: Option<string>)

  const ValidMimeTypes: seq<string> := [
    "audio/mpeg", "audio/wav", "audio/wave", "audio/x-wav", "audio/flac", "audio/x-flac",
    "audio/aac", "audio/mp4", "audio/ogg", "audio/vorbis", "audio/webm"
  ]

  const ValidExtensions: seq<string> := [".mp3", ".wav", ".flac", ".aac", ".m4a", ".ogg", ".webm"]

  /** 50 MiB. */
  const MaxFileSize: nat := 50 * 1024 * 1024

  const TypeError: string := "Please select a valid audio file (MP3, WAV, FLAC, AAC, OGG)"
  const SizeError: string := "File size must be less than 50MB"

  /** `name.toLowerCase().substring(name.lastIndexOf('.'))`; `substring(-1)`
      starts at 0, so a name without a dot yields the whole lowered name. */
  function Extension(name: string): (ext: string)
    ensures '.' !in name ==> ext == Text.ToLower(name)
    ensures '.' in name ==> |ext| >= 1 && ext[0] == '.' && '.' !in ext[1..]
  {
    var i := Text.LastIndexOf(name, '.');
    var lower := Text.ToLower(name);
    var ext := lower[if i < 0 then 0 else i..];
    assert i >= 0 ==> forall k :: i < k < |name| ==> lower[k] != '.' by {
      if i >= 0 {
        forall k | i < k < |name| ensures lower[k] != '.' {
          assert name[k] in name[i + 1..];
        }
      }
    }
    ext
  }

  /** `isValidAudioFile`: the MIME type OR the extension is on its allow-list. */
  predicate IsValidAudioFile(f: AudioFile) {
    f.mimeType in ValidMimeTypes || Extension(f.name) in ValidExtensions
  }

  /** `validateAudioFile`: the type check comes first, then the size ceiling. */
  function ValidateAudioFile(f: AudioFile): (r: ValidationResult)
    ensures r.isValid <==> IsValidAudioFile(f) && f.size <= MaxFileSize
    ensures r.isValid ==> r.error == None
    ensures !r.isValid ==> r.error.Some? && r.error.value != ""
  {
    if !IsValidAudioFile(f) then ValidationResult(false, Some(TypeError))
    else if f.size > MaxFileSize then ValidationResult(false, Some(SizeError))
    else ValidationResult(true, None)
  }

  /** A file of the wrong type gets the type message, whatever its size. */
  lemma TypeCheckFirst(f: AudioFile, size: nat)
    requires !IsValidAudioFile(f)
    ensures ValidateAudioFile(f.(size := size)) == ValidationResult(false, Some(TypeError))
  {
  }

  /** The size ceiling is inclusive: 52,428,800 bytes pass, one more byte fails. */
  lemma SizeBoundary(f: AudioFile)
    requires IsValidAudioFile(f)
    ensures ValidateAudioFile(f.(size := 52428800)).isValid
    ensures ValidateAudioFile(f.(size := 52428801)) == ValidationResult(false, Some(SizeError))
  {
  }

  /** A name without a dot has no allowed extension (each starts with a dot),
      so such a file passes only on its MIME type. */
  lemma NoDotNeedsMimeType(f: AudioFile)
    requires '.' !in f.name
    ensures IsValidAudioFile(f) <==> f.mimeType in ValidMimeTypes
  {
    var ext := Extension(f.name);
    assert '.' !in ext by {
      forall k | 0 <= k < |ext| ensures ext[k] != '.' {
        assert f.name[k] in f.name;
      }
    }
    forall e | e in ValidExtensions ensures ext != e {
      assert e[0] == '.';
    }
  }

  /** The extension check ignores letter case, and so passes a file whose
      browser reports no MIME type. */
  lemma ExtensionIgnoresCase()
    ensures IsValidAudioFile(AudioFile("Track.MP3", "", 0))
  {
    var name := "Track.MP3";
    assert name == "Track" + ['.'] + "MP3";
    LastDotBeforeRun("Track", "MP3");
    var lower := Text.ToLower(name);
    assert lower[5] == '.' && lower[6] == 'm' && lower[7] == 'p' && lower[8] == '3';
    assert Extension(name) == lower[5..] == ValidExtensions[0];
  }

  /** In `stem + "." + run` with no dot in `run`, the last dot is the one before `run`. */
  lemma LastDotBeforeRun(stem: string, run: string)
    requires '.' !in run
    ensures Text.LastIndexOf(stem + ['.'] + run, '.') == |stem|
  {
    var name := stem + ['.'] + run;
    var i := Text.LastIndexOf(name, '.');
    assert name[|stem|] == '.';
    assert name[|stem| + 1..] == run;
  }

  /** A run that the pattern `[^/.]+$` matches: non-empty, no `/`, no `.`. */
  predicate IsExtensionRun(t: string) {
    |t| > 0 && '/' !in t && '.' !in t
  }

  /** `extractFileNameWithoutExtension`: `name.replace(/\.[^/.]+$/, '')`.
      Only the last dot can start a match, so the match, if any, is the
      suffix from the last dot. */
  function StripExtension(name: string): (r: string)
    ensures r <= name
    ensures r == name || (|r| < |name| && name[|r|] == '.' && IsExtensionRun(name[|r| + 1..]))
  {
    var i := Text.LastIndexOf(name, '.');
    if 0 <= i && IsExtensionRun(name[i + 1..]) then name[..i] else name
  }

  /** Conversely, a name that ends in a dot and an extension run loses exactly
      that suffix; together with the contract above this pins the result down. */
  lemma StripExtensionRemovesRun(stem: string, run: string)
    requires IsExtensionRun(run)
    ensures StripExtension(stem + ['.'] + run) == stem
  {
    var name := stem + ['.'] + run;
    LastDotBeforeRun(stem, run);
    assert name[|stem| + 1..] == run;
    assert name[..|stem|] == stem;
  }

  lemma StripExtensionExample1()
    ensures StripExtension("a.tar.gz") == "a.tar"
  {
    assert "a.tar.gz" == "a.tar" + ['.'] + "gz";
    StripExtensionRemovesRun("a.tar", "gz");
  }

  lemma StripExtensionExample2()
    ensures StripExtension("file.") == "file."
  {
    assert "file." == "file" + ['.'] + "";
    LastDotBeforeRun("file", "");
  }

  lemma StripExtensionExample3()
    ensures StripExtension("a.b/c") == "a.b/c"
  {
    assert "a.b/c" == "a" + ['.'] + "b/c";
    LastDotBeforeRun("a", "b/c");
    assert "a.b/c"[2..] == "b/c" && "b/c"[1] == '/';
  }

  /** `getAudioDuration`: size / (1024 * 1024) minutes, in seconds. It never
      rejects and is never negative. */
  function EstimateDuration(size: nat): (seconds: real)
    ensures seconds >= 0.0
    ensures seconds * 1048576.0 == (size * 60) as real
  {
    (size as real / (1024 * 1024) as real) * 60.0
  }

  /** A 2 MiB file is estimated at two minutes. */
  lemma TwoMebibytesIsTwoMinutes()
    ensures EstimateDuration(2 * 1024 * 1024) == 120.0
  {
  }
}
