/**
 * The audio uploader (`components/Audio/AudioUploader.js`): its file check, the state
 * it keeps (the drag highlight, the chosen file, the error text and the audio
 * information) and the handlers that update it, and its duration label. Reading the
 * audio's metadata is asynchronous in the browser; here its outcome is a parameter of
 * the handler that awaits it. The `onFileSelect` and `onFileRemove` callbacks belong
 * to the parent and are not modelled.
 */
module AudioUploader {
  import opened Wrappers
  import opened Text
  import FrontHelpers
  import SoundForm

  /** The defaults of the `acceptedFormats` and `maxFileSize` props (`AUDIO_CONFIG`). */
  const DefaultFormats: seq<string> := ["mp3", "wav", "ogg", "m4a"]
  const DefaultMaxFileSize: int := 50 * 1024 * 1024

  const Megabyte: int := 1024 * 1024

  /** `Math.round(bytes / (1024 * 1024))`: halves round up. */
  function RoundMegabytes(bytes: int): (mb: int)
    ensures mb * Megabyte - Megabyte / 2 <= bytes < mb * Megabyte + Megabyte / 2
  {
    (bytes + Megabyte / 2) / Megabyte
  }

  /** The default limit reads as 50MB. */
  lemma DefaultLimitIs50()
    ensures RoundMegabytes(DefaultMaxFileSize) == 50
  {
  }

  /** `items.join(sep)`. */
  function Join(items: seq<string>, sep: string): string
    decreases |items|
  {
    if items == [] then ""
    else if |items| == 1 then items[0]
    else items[0] + sep + Join(items[1..], sep)
  }

  /** Why `validateFile` refuses a file: too large (with the limit in MB) or a format not accepted. */
  datatype UploadError = TooLarge(limitMb: int) | FormatNotAllowed(accepted: seq<string>)

  /** The text `validateFile` returns for a refusal. */
  function Message(e: UploadError): string {
    match e
    case TooLarge(limitMb) => "Archivo demasiado grande. Máximo " + IntToString(limitMb) + "MB"
    case FormatNotAllowed(accepted) => "Formato no permitido. Use: " + Join(accepted, ", ")
  }

  /**
   * `validateFile(file)`: the size is checked first, then the lower-cased text after
   * the last dot; `None` is the source's `null`, which accepts the file.
   */
  function ValidateFile(file: FrontHelpers.File, maxFileSize: int, accepted: seq<string>): Option<UploadError> {
    if file.size > maxFileSize then Some(TooLarge(RoundMegabytes(maxFileSize)))
    else
      var extension := FrontHelpers.Extension(file.name);
      if extension !in accepted then Some(FormatNotAllowed(accepted)) else None
  }

  /**
   * A file is accepted exactly when it is no larger than the limit and its extension
   * is accepted; a file over the limit is reported as too large whatever its name.
   */
  lemma ValidateFileSpec(file: FrontHelpers.File, maxFileSize: int, accepted: seq<string>)
    ensures ValidateFile(file, maxFileSize, accepted).None? <==>
      file.size <= maxFileSize && FrontHelpers.Extension(file.name) in accepted
    ensures file.size > maxFileSize ==>
      ValidateFile(file, maxFileSize, accepted) == Some(TooLarge(RoundMegabytes(maxFileSize)))
    ensures file.size <= maxFileSize && FrontHelpers.Extension(file.name) !in accepted ==>
      ValidateFile(file, maxFileSize, accepted) == Some(FormatNotAllowed(accepted))
  {
  }

  /**
   * With the default props the uploader accepts the same files as the sound form's own
   * file check, and as `validateAudioFile` of the helpers apart from its MIME-type test.
   */
  lemma ValidateFileAgrees(file: FrontHelpers.File)
    ensures ValidateFile(file, DefaultMaxFileSize, DefaultFormats).None? <==> SoundForm.FileVerdict(file).None?
    ensures var check := FrontHelpers.ValidateAudioFile(Some(file), FrontHelpers.DefaultMaxSize, FrontHelpers.DefaultFormats);
      ValidateFile(file, DefaultMaxFileSize, DefaultFormats).None? <==>
        FrontHelpers.TooBig !in check.errors && FrontHelpers.BadFormat !in check.errors
  {
    SoundForm.FileVerdictSpec(file);
  }

  // ---------------------------------------------------------------------------
  // Audio information and the duration label

  /** What `getAudioInfo` resolves with. */
  datatype AudioInfo = AudioInfo(duration: int, size: int, format: string, name: string)

  /**
   * `getAudioInfo(file)`: `duration` is the metadata's duration when it loads (`None`
   * when the audio element reports an error), floored to whole seconds, else 0.
   */
  function GetAudioInfo(file: FrontHelpers.File, duration: Option<real>): AudioInfo {
    var format := Lower(AfterLastDot(file.name));
    match duration
    case Some(d) => AudioInfo(d.Floor, file.size, format, file.name)
    case None => AudioInfo(0, file.size, format, file.name)
  }

  /**
   * The information keeps the file's size and name, its format is the file's
   * extension, and its duration is the whole seconds of the loaded duration, or 0
   * when none loads.
   */
  lemma GetAudioInfoSpec(file: FrontHelpers.File, duration: Option<real>)
    ensures var info := GetAudioInfo(file, duration);
      && info.size == file.size && info.name == file.name
      && info.format == FrontHelpers.Extension(file.name)
      && (duration.None? ==> info.duration == 0)
      && (duration.Some? ==> info.duration as real <= duration.value < info.duration as real + 1.0)
  {
  }

  /**
   * JavaScript's `a % b`: what is left of `a` after taking away a whole number of `b`s,
   * smaller than `b` in size and with the sign of `a`. For a negative `a` that is the
   * (never negative) Euclidean remainder moved down by `b`, or 0 where `b` divides `a`.
   */
  function JsRemainder(a: int, b: int): (r: int)
    requires b > 0
    ensures a >= 0 ==> 0 <= r < b && r == a % b
    ensures a < 0 ==> -b < r <= 0 && r == if a % b == 0 then 0 else a % b - b
  {
    if a >= 0 then a % b
    else
      var n := -a;
      NegatedRemainder(n, b);
      -(n % b)
  }

  /** The remainder of `-n` read off the remainder of `n`. */
  lemma NegatedRemainder(n: int, b: int)
    requires b > 0
    ensures -(n % b) == if (-n) % b == 0 then 0 else (-n) % b - b
  {
    var q, m := n / b, n % b;
    assert n == q * b + m;
    if m == 0 {
      assert -n == (-q) * b + 0;
      RemainderUnique(-n, b, -q, 0);
    } else {
      assert -n == (-q - 1) * b + (b - m);
      RemainderUnique(-n, b, -q - 1, b - m);
    }
  }

  /** The remainder differs from `a` by a whole number of `b`s. */
  lemma JsRemainderSpec(a: int, b: int)
    requires b > 0
    ensures (a - JsRemainder(a, b)) % b == 0
  {
    var n := if a >= 0 then a else -a;
    var q := n / b;
    assert n == q * b + n % b;
    if a >= 0 {
      assert a - JsRemainder(a, b) == q * b + 0;
      RemainderUnique(a - JsRemainder(a, b), b, q, 0);
    } else {
      assert a - JsRemainder(a, b) == (-q) * b + 0;
      RemainderUnique(a - JsRemainder(a, b), b, -q, 0);
    }
  }

  /** Euclidean division is unique: a remainder in `[0, b)` is the remainder. */
  lemma RemainderUnique(a: int, b: int, k: int, rem: int)
    requires b > 0 && 0 <= rem < b && a == k * b + rem
    ensures a % b == rem
  {
    var k', rem' := a / b, a % b;
    assert a == k' * b + rem';
    var c := k - k';
    assert c * b == rem' - rem;
    if c >= 1 {
      assert c * b == b + (c - 1) * b;
    } else if c <= -1 {
      assert c * b == -b - (-c - 1) * b;
    }
  }

  /**
   * `formatDuration(seconds)` for the whole seconds the uploader stores: "Desconocida"
   * for zero, else the floored minutes, a colon and the remainder padded to two places.
   */
  function FormatDuration(seconds: int): string {
    if seconds == 0 then "Desconocida"
    else IntToString(seconds / 60) + ":" + Pad2(IntToString(JsRemainder(seconds, 60)))
  }

  /**
   * A positive duration reads back as minutes and seconds under a minute that make up
   * the duration; zero is "Desconocida"; a negative one is not a clock text.
   */
  lemma FormatDurationSpec(seconds: int)
    ensures seconds == 0 ==> FormatDuration(seconds) == "Desconocida"
    ensures seconds > 0 ==>
      var clock := ParseClock(FormatDuration(seconds));
      && clock.Some? && clock.value.1 < 60
      && clock.value.0 * 60 + clock.value.1 == seconds
    ensures seconds < 0 ==> ParseClock(FormatDuration(seconds)).None?
  {
    if seconds > 0 {
      ClockRoundTrip(seconds / 60, seconds % 60);
    } else if seconds < 0 {
      var m := IntToString(seconds / 60);
      var t := FormatDuration(seconds);
      var r := Pad2(IntToString(JsRemainder(seconds, 60)));
      assert t == m + ":" + r;
      assert m[0] == '-';
      if |t| >= 4 && t[|t| - 3] == ':' && AllDigits(t[|t| - 2..]) {
        assert |r| == 2 by {
          if JsRemainder(seconds, 60) < 0 {
            assert |NatToString(-JsRemainder(seconds, 60))| == 1;
          }
        }
        assert t[..|t| - 3] == m;
        assert !AllDigits(m) by {
          assert !IsDigit(m[0]);
        }
      }
    }
  }

  /** On zero the two labels differ: "Desconocida" against "0:00". */
  lemma ZeroLabelsDiffer()
    ensures FormatDuration(0) == "Desconocida"
    ensures FrontHelpers.FormatDuration(Some(0.0)) == "0:00"
  {
  }

  // ---------------------------------------------------------------------------
  // The component's state

  /** The drag events `handleDrag` receives, by their `type`. */
  datatype DragEvent = DragEnter | DragOver | DragLeave | OtherDragEvent(name: string)

  class UploaderState {
    var dragActive: bool
    var selectedFile: Option<FrontHelpers.File>
    var error: Option<string>
    var audioInfo: Option<AudioInfo>
    const acceptedFormats: seq<string>
    const maxFileSize: int

    constructor (acceptedFormats: seq<string>, maxFileSize: int)
      ensures !dragActive && selectedFile == None && error == None && audioInfo == None
      ensures this.acceptedFormats == acceptedFormats && this.maxFileSize == maxFileSize
    {
      dragActive := false;
      selectedFile := None;
      error := None;
      audioInfo := None;
      this.acceptedFormats := acceptedFormats;
      this.maxFileSize := maxFileSize;
    }

    /**
     * `handleFile(file)`: a refused file sets the error text and changes nothing else;
     * an accepted one clears the error, becomes the selected file and, once its
     * metadata is read (`duration`), its audio information is stored.
     */
    method HandleFile(file: FrontHelpers.File, duration: Option<real>)
      modifies this
      ensures ValidateFile(file, maxFileSize, acceptedFormats).Some? ==>
        error == Some(Message(ValidateFile(file, maxFileSize, acceptedFormats).value))
      ensures ValidateFile(file, maxFileSize, acceptedFormats).Some? ==>
        selectedFile == old(selectedFile) && audioInfo == old(audioInfo)
      ensures ValidateFile(file, maxFileSize, acceptedFormats).None? ==>
        error == None && selectedFile == Some(file) && audioInfo == Some(GetAudioInfo(file, duration))
      ensures dragActive == old(dragActive)
    {
      var validationError := ValidateFile(file, maxFileSize, acceptedFormats);
      if validationError.Some? {
        error := Some(Message(validationError.value));
      } else {
        error := None;
        selectedFile := Some(file);
        audioInfo := Some(GetAudioInfo(file, duration));
      }
    }

    /** `handleDrag`: entering or moving over highlights, leaving clears, other events change nothing. */
    method HandleDrag(event: DragEvent)
      modifies this
      ensures event == DragEnter || event == DragOver ==> dragActive
      ensures event == DragLeave ==> !dragActive
      ensures event.OtherDragEvent? ==> dragActive == old(dragActive)
      ensures selectedFile == old(selectedFile) && error == old(error) && audioInfo == old(audioInfo)
    {
      if event == DragEnter || event == DragOver {
        dragActive := true;
      } else if event == DragLeave {
        dragActive := false;
      }
    }

    /** `handleDrop`: the highlight goes off, and the first dropped file, if any, is handled. */
    method HandleDrop(files: seq<FrontHelpers.File>, duration: Option<real>)
      modifies this
      ensures !dragActive
      ensures files == [] ==> selectedFile == old(selectedFile) && error == old(error) && audioInfo == old(audioInfo)
      ensures files != [] ==>
        var verdict := ValidateFile(files[0], maxFileSize, acceptedFormats);
        && (verdict.Some? ==>
              error == Some(Message(verdict.value)) && selectedFile == old(selectedFile) && audioInfo == old(audioInfo))
        && (verdict.None? ==>
              error == None && selectedFile == Some(files[0]) && audioInfo == Some(GetAudioInfo(files[0], duration)))
    {
      dragActive := false;
      if files != [] {
        HandleFile(files[0], duration);
      }
    }

    /** The file input's `onChange`: the first chosen file, if any, is handled. */
    method HandleInputChange(files: seq<FrontHelpers.File>, duration: Option<real>)
      modifies this
      ensures dragActive == old(dragActive)
      ensures files == [] ==> selectedFile == old(selectedFile) && error == old(error) && audioInfo == old(audioInfo)
      ensures files != [] ==>
        var verdict := ValidateFile(files[0], maxFileSize, acceptedFormats);
        && (verdict.Some? ==>
              error == Some(Message(verdict.value)) && selectedFile == old(selectedFile) && audioInfo == old(audioInfo))
        && (verdict.None? ==>
              error == None && selectedFile == Some(files[0]) && audioInfo == Some(GetAudioInfo(files[0], duration)))
    {
      if files != [] {
        HandleFile(files[0], duration);
      }
    }

    /** `handleRemoveFile`: the file, its information and the error are cleared. */
    method HandleRemoveFile()
      modifies this
      ensures selectedFile == None && audioInfo == None && error == None
      ensures dragActive == old(dragActive)
    {
      selectedFile := None;
      audioInfo := None;
      error := None;
    }
  }
}
