/**
 * The state of the sound form (`components/Forms/SoundForm.js`): the form fields, the
 * chosen audio file, the per-field error messages and whether the map picker is shown,
 * and the handlers that update them. React's state setters are modelled as direct
 * field updates applied in the order the handler issues them. The `errors` object is a
 * map from a field's key to its message; a key the source sets to `null` is modelled
 * as absent, since the form only ever reads an error's truthiness or text.
 */
module SoundForm {
  import opened Wrappers
  import opened Text
  import opened Collections
  import FrontHelpers

  /** `APP_CONFIG.DEFAULT_LAT` and `DEFAULT_LNG` when the environment does not set them. */
  const DefaultLat: real := 4.711
  const DefaultLng: real := -74.0721

  /** `AUDIO_CONFIG.maxFileSize` and `AUDIO_CONFIG.allowedFormats`. */
  const MaxFileSize: int := 50 * 1024 * 1024
  const AllowedFormats: seq<string> := ["mp3", "wav", "ogg", "m4a"]

  const FileTooBigMessage: string := "El archivo es demasiado grande. Máximo 50MB."
  const InvalidFormatMessage: string := "Formato no válido. Usa: mp3, wav, ogg, m4a"
  const LocationRequiredMessage: string := "Por favor, selecciona una ubicación en el mapa."
  const NameRequiredMessage: string := "El nombre es requerido"
  const AuthorRequiredMessage: string := "El autor es requerido"
  const AudioRequiredMessage: string := "El archivo de audio es requerido"
  const EmotionRequiredMessage: string := "Selecciona al menos una emoción"

  // ---------------------------------------------------------------------------
  // Form data

  /**
   * A coordinate field: a number when it comes from the initial data or the map picker,
   * the text of the number input once the user has typed in it.
   */
  datatype FieldValue = Number(x: real) | Text(s: string)

  /** JavaScript truthiness of a coordinate field: zero and the empty text are false. */
  predicate Truthy(v: FieldValue) {
    match v
    case Number(x) => x != 0.0
    case Text(s) => s != []
  }

  datatype FormData = FormData(
    nombre: string, descripcion: string, autor: string,
    latitud: FieldValue, longitud: FieldValue,
    sonidos: seq<string>, emociones: seq<string>, etiquetas: seq<string>,
    duracion: real, calidadAudio: string)

  /** The fields edited through `handleInputChange` (the `name` of each input). */
  datatype InputField = Nombre | Descripcion | Autor | Latitud | Longitud | CalidadAudio

  /** The fields edited through `handleMultiSelectChange`. */
  datatype ListField = Sonidos | Emociones | Etiquetas

  /** What an input field holds, as the input reads it back. */
  function InputValue(f: FormData, field: InputField): FieldValue {
    match field
    case Nombre => Text(f.nombre)
    case Descripcion => Text(f.descripcion)
    case Autor => Text(f.autor)
    case Latitud => f.latitud
    case Longitud => f.longitud
    case CalidadAudio => Text(f.calidadAudio)
  }

  function ListValue(f: FormData, field: ListField): seq<string> {
    match field
    case Sonidos => f.sonidos
    case Emociones => f.emociones
    case Etiquetas => f.etiquetas
  }

  /** `{ ...prev, [name]: value }` for an input: only the named field changes. */
  function WithInput(f: FormData, field: InputField, value: string): (r: FormData)
    ensures InputValue(r, field) == Text(value)
    ensures forall g :: g != field ==> InputValue(r, g) == InputValue(f, g)
    ensures forall l :: ListValue(r, l) == ListValue(f, l)
    ensures r.duracion == f.duracion
  {
    match field
    case Nombre => f.(nombre := value)
    case Descripcion => f.(descripcion := value)
    case Autor => f.(autor := value)
    case Latitud => f.(latitud := Text(value))
    case Longitud => f.(longitud := Text(value))
    case CalidadAudio => f.(calidadAudio := value)
  }

  /** `{ ...prev, [name]: items }` for a list: only the named list changes. */
  function WithList(f: FormData, field: ListField, items: seq<string>): (r: FormData)
    ensures ListValue(r, field) == items
    ensures forall l :: l != field ==> ListValue(r, l) == ListValue(f, l)
    ensures forall g :: InputValue(r, g) == InputValue(f, g)
    ensures r.duracion == f.duracion
  {
    match field
    case Sonidos => f.(sonidos := items)
    case Emociones => f.(emociones := items)
    case Etiquetas => f.(etiquetas := items)
  }

  // ---------------------------------------------------------------------------
  // Multi-select toggling

  /**
   * The list after clicking `value` in a multi-select: every occurrence is removed when
   * the list has it, otherwise it is appended at the end.
   */
  function Toggle(items: seq<string>, value: string): seq<string> {
    if value in items then Filter(items, (x: string) => x != value) else items + [value]
  }

  /**
   * Toggling flips membership of the clicked value and keeps every other value with its
   * multiplicity and in its order.
   */
  lemma ToggleSpec(items: seq<string>, value: string)
    ensures value in Toggle(items, value) <==> value !in items
    ensures value !in items ==> Toggle(items, value) == items + [value]
    ensures value in items ==> Subsequence(Toggle(items, value), items)
    ensures forall x :: x != value ==> multiset(Toggle(items, value))[x] == multiset(items)[x]
  {
    var p := (x: string) => x != value;
    if value in items {
      FilterMembers(items, p);
      FilterIsSubsequence(items, p);
      forall x | x != value
        ensures multiset(Toggle(items, value))[x] == multiset(items)[x]
      {
        FilterCount(items, p, x);
      }
    } else {
      forall x | x != value
        ensures multiset(Toggle(items, value))[x] == multiset(items)[x]
      {
        assert multiset(items + [value]) == multiset(items) + multiset{value};
      }
    }
  }

  /** Clicking a value that is not selected and then clicking it again restores the list. */
  lemma ToggleTwiceRestoresAbsent(items: seq<string>, value: string)
    requires value !in items
    ensures Toggle(Toggle(items, value), value) == items
  {
    var p := (x: string) => x != value;
    assert value in items + [value];
    FilterAppend(items, [value], p);
    assert Filter([value], p) == [] + Filter([value][1..], p);
    assert forall x :: x in items ==> p(x);
    FilterAll(items, p);
    assert items + [] == items;
  }

  /**
   * Clicking a selected value twice does not restore the list: the value comes back
   * once, at the end, and its other occurrences are gone.
   */
  lemma ToggleTwiceMovesToEnd(items: seq<string>, value: string)
    requires value in items
    ensures Toggle(Toggle(items, value), value) == Filter(items, (x: string) => x != value) + [value]
  {
    FilterMembers(items, (x: string) => x != value);
  }

  /** The order the user clicked in is what the list shows: ["a", "b"] becomes ["b", "a"]. */
  lemma ToggleTwiceReorders()
    ensures Toggle(Toggle(["a", "b"], "a"), "a") == ["b", "a"]
  {
    var p := (x: string) => x != "a";
    assert "a" in ["a", "b"];
    assert Filter(["b"], p) == ["b"] + Filter([], p);
    assert Filter(["a", "b"], p) == [] + Filter(["b"], p);
    ToggleTwiceMovesToEnd(["a", "b"], "a");
  }

  /** A list without repetitions stays without repetitions. */
  lemma ToggleKeepsDistinct(items: seq<string>, value: string)
    requires Distinct(items)
    ensures Distinct(Toggle(items, value))
  {
    if value in items {
      FilterKeepsDistinct(items, (x: string) => x != value);
    }
  }

  lemma {:induction false} FilterKeepsDistinct<T>(s: seq<T>, p: T -> bool)
    requires Distinct(s)
    ensures Distinct(Filter(s, p))
  {
    if s != [] {
      FilterKeepsDistinct(s[1..], p);
      FilterMembers(s[1..], p);
      var rest := Filter(s[1..], p);
      assert s[0] !in s[1..];
      assert s[0] !in rest;
      if p(s[0]) {
        var r := [s[0]] + rest;
        forall i, j | 0 <= i < j < |r|
          ensures r[i] != r[j]
        {
          if i == 0 {
            assert r[j] == rest[j - 1];
          } else {
            assert r[i] == rest[i - 1] && r[j] == rest[j - 1];
          }
        }
      } else {
        assert Filter(s, p) == [] + rest;
      }
    }
  }

  // ---------------------------------------------------------------------------
  // File checks and validation

  /** A text that is all white space: what `!text.trim()` tests. */
  predicate Blank(s: string) {
    forall i | 0 <= i < |s| :: IsSpace(s[i])
  }

  lemma BlankIffTrimsToEmpty(s: string)
    ensures Blank(s) <==> Trim(s) == []
  {
  }

  /**
   * The verdict of `handleFileChange` on a chosen file: the size is checked first, then
   * the lower-cased text after the last dot; `None` accepts the file.
   */
  function FileVerdict(file: FrontHelpers.File): Option<string> {
    if file.size > MaxFileSize then Some(FileTooBigMessage)
    else if FrontHelpers.Extension(file.name) !in AllowedFormats then Some(InvalidFormatMessage)
    else None
  }

  /**
   * A file is accepted exactly when it is small enough and its extension is allowed; a
   * file that is too big is reported as such whatever its name; and the verdict agrees
   * with `validateAudioFile` of the helpers, without its MIME-type test.
   */
  lemma FileVerdictSpec(file: FrontHelpers.File)
    ensures FileVerdict(file).None? <==>
      file.size <= MaxFileSize && FrontHelpers.Extension(file.name) in AllowedFormats
    ensures file.size > MaxFileSize ==> FileVerdict(file) == Some(FileTooBigMessage)
    ensures file.size <= MaxFileSize && FrontHelpers.Extension(file.name) !in AllowedFormats ==>
      FileVerdict(file) == Some(InvalidFormatMessage)
    ensures var check := FrontHelpers.ValidateAudioFile(Some(file), FrontHelpers.DefaultMaxSize, FrontHelpers.DefaultFormats);
      FileVerdict(file).None? <==>
        FrontHelpers.TooBig !in check.errors && FrontHelpers.BadFormat !in check.errors
  {
  }

  /**
   * A key of the `errors` object: an input's own key (which `handleInputChange`
   * clears), or one of the keys only `validateForm` and `handleFileChange` write.
   */
  datatype ErrorKey = InputError(field: InputField) | Ubicacion | Audio | EmocionesError

  /** The keys `validateForm` can record an error under, in the order it checks them. */
  const CheckOrder: seq<ErrorKey> := [InputError(Nombre), InputError(Autor), Ubicacion, Audio, EmocionesError]

  /** Whether the check behind an error key fails. */
  predicate Fails(f: FormData, hasFile: bool, editing: bool, key: ErrorKey) {
    match key
    case InputError(field) =>
      (field == Nombre && Blank(f.nombre)) || (field == Autor && Blank(f.autor))
    case Ubicacion => !Truthy(f.latitud) || !Truthy(f.longitud)
    case Audio => !hasFile && !editing
    case EmocionesError => f.emociones == []
  }

  function ErrorMessage(key: ErrorKey): string {
    match key
    case InputError(field) => if field == Nombre then NameRequiredMessage else AuthorRequiredMessage
    case Ubicacion => LocationRequiredMessage
    case Audio => AudioRequiredMessage
    case EmocionesError => EmotionRequiredMessage
  }

  /** The messages of the failing checks among `keys`, run in the order given. */
  function ErrorsOver(f: FormData, hasFile: bool, editing: bool, keys: seq<ErrorKey>): map<ErrorKey, string>
    decreases |keys|
  {
    if keys == [] then map[]
    else
      var m := ErrorsOver(f, hasFile, editing, keys[..|keys| - 1]);
      var key := keys[|keys| - 1];
      if Fails(f, hasFile, editing, key) then m[key := ErrorMessage(key)] else m
  }

  /** The errors `validateForm` records. */
  function FormErrors(f: FormData, hasFile: bool, editing: bool): map<ErrorKey, string> {
    ErrorsOver(f, hasFile, editing, CheckOrder)
  }

  /** Running one more check adds its message exactly when it fails. */
  lemma ErrorsOverSnoc(f: FormData, hasFile: bool, editing: bool, keys: seq<ErrorKey>, key: ErrorKey, failed: bool,
                       next: seq<ErrorKey>)
    requires failed == Fails(f, hasFile, editing, key) && next == keys + [key]
    ensures ErrorsOver(f, hasFile, editing, next) ==
      if failed then ErrorsOver(f, hasFile, editing, keys)[key := ErrorMessage(key)]
      else ErrorsOver(f, hasFile, editing, keys)
  {
    assert (keys + [key])[..|keys|] == keys;
  }

  /** The checks over `keys` record exactly the failing ones, each with its own message. */
  lemma {:induction false} ErrorsOverKeys(f: FormData, hasFile: bool, editing: bool, keys: seq<ErrorKey>)
    ensures forall key :: key in ErrorsOver(f, hasFile, editing, keys) <==> key in keys && Fails(f, hasFile, editing, key)
    ensures forall key :: key in ErrorsOver(f, hasFile, editing, keys) ==>
      ErrorsOver(f, hasFile, editing, keys)[key] == ErrorMessage(key)
  {
    if keys != [] {
      var init := keys[..|keys| - 1];
      ErrorsOverKeys(f, hasFile, editing, init);
      assert keys == init + [keys[|keys| - 1]];
    }
  }

  /**
   * `validateForm` records an error under a key exactly when that key's check fails,
   * with that check's message, and under no other key.
   */
  lemma FormErrorsKeys(f: FormData, hasFile: bool, editing: bool)
    ensures forall key :: key in FormErrors(f, hasFile, editing) <==> key in CheckOrder && Fails(f, hasFile, editing, key)
    ensures forall key :: key in FormErrors(f, hasFile, editing) ==> FormErrors(f, hasFile, editing)[key] == ErrorMessage(key)
  {
    ErrorsOverKeys(f, hasFile, editing, CheckOrder);
  }

  /**
   * The body of `validateForm`: `newErrors` starts empty and each failing check, in
   * the source's order, adds its message.
   */
  method CollectErrors(f: FormData, hasFile: bool, editing: bool) returns (newErrors: map<ErrorKey, string>)
    ensures newErrors == FormErrors(f, hasFile, editing)
  {
    newErrors := map[];
    ErrorsOverSnoc(f, hasFile, editing, [], InputError(Nombre), Blank(f.nombre),
                   [InputError(Nombre)]);
    if Blank(f.nombre) {
      newErrors := newErrors[InputError(Nombre) := NameRequiredMessage];
    }
    assert newErrors == ErrorsOver(f, hasFile, editing, [InputError(Nombre)]);
    ErrorsOverSnoc(f, hasFile, editing, [InputError(Nombre)], InputError(Autor), Blank(f.autor),
                   [InputError(Nombre), InputError(Autor)]);
    if Blank(f.autor) {
      newErrors := newErrors[InputError(Autor) := AuthorRequiredMessage];
    }
    assert newErrors == ErrorsOver(f, hasFile, editing, [InputError(Nombre), InputError(Autor)]);
    ErrorsOverSnoc(f, hasFile, editing, [InputError(Nombre), InputError(Autor)], Ubicacion,
                   !Truthy(f.latitud) || !Truthy(f.longitud), [InputError(Nombre), InputError(Autor), Ubicacion]);
    if !Truthy(f.latitud) || !Truthy(f.longitud) {
      newErrors := newErrors[Ubicacion := LocationRequiredMessage];
    }
    assert newErrors == ErrorsOver(f, hasFile, editing, [InputError(Nombre), InputError(Autor), Ubicacion]);
    ErrorsOverSnoc(f, hasFile, editing, [InputError(Nombre), InputError(Autor), Ubicacion], Audio,
                   !hasFile && !editing, CheckOrder[..4]);
    if !hasFile && !editing {
      newErrors := newErrors[Audio := AudioRequiredMessage];
    }
    assert newErrors == ErrorsOver(f, hasFile, editing, CheckOrder[..4]);
    ErrorsOverSnoc(f, hasFile, editing, CheckOrder[..4], EmocionesError, f.emociones == [], CheckOrder);
    if f.emociones == [] {
      newErrors := newErrors[EmocionesError := EmotionRequiredMessage];
    }
  }


  /**
   * The form is valid exactly when the name and the author are not blank, both
   * coordinates are truthy (so a zero coordinate counts as missing), there is a file
   * or a sound being edited, and at least one emotion is chosen.
   */
  lemma FormErrorsSpec(f: FormData, hasFile: bool, editing: bool)
    ensures FormErrors(f, hasFile, editing) == map[] <==>
      && !Blank(f.nombre) && !Blank(f.autor)
      && Truthy(f.latitud) && Truthy(f.longitud)
      && (hasFile || editing)
      && f.emociones != []
  {
    var e := FormErrors(f, hasFile, editing);
    FormErrorsKeys(f, hasFile, editing);
    if Blank(f.nombre) {
      assert InputError(Nombre) in e;
    } else if Blank(f.autor) {
      assert InputError(Autor) in e;
    } else if !Truthy(f.latitud) || !Truthy(f.longitud) {
      assert Ubicacion in e;
    } else if !hasFile && !editing {
      assert Audio in e;
    } else if f.emociones == [] {
      assert EmocionesError in e;
    } else {
      assert forall key :: key in CheckOrder ==> !Fails(f, hasFile, editing, key);
    }
  }

  /** `initialData` of a form that edits a sound, as the form reads it. */
  datatype InitialSound = InitialSound(
    nombre: string, descripcion: string, autor: string,
    coordinates: Option<seq<real>>,
    sonidos: seq<string>, emociones: seq<string>, etiquetas: seq<string>,
    duracion: real, calidadAudio: string, audioUrl: string)

  /** `coordinates[i] || fallback`: a missing or zero coordinate falls back. */
  function CoordinateOr(coordinates: Option<seq<real>>, i: nat, fallback: real): real {
    if coordinates.Some? && i < |coordinates.value| && coordinates.value[i] != 0.0
    then coordinates.value[i] else fallback
  }

  /** The initial `formData`, each field `initialData?.field || default`. */
  function InitialForm(initial: Option<InitialSound>): FormData {
    match initial
    case None =>
      FormData("", "", "", Number(DefaultLat), Number(DefaultLng), [], [], [], 0.0, "media")
    case Some(s) =>
      FormData(s.nombre, s.descripcion, s.autor,
               Number(CoordinateOr(s.coordinates, 1, DefaultLat)),
               Number(CoordinateOr(s.coordinates, 0, DefaultLng)),
               s.sonidos, s.emociones, s.etiquetas, s.duracion,
               if s.calidadAudio == [] then "media" else s.calidadAudio)
  }

  /**
   * A new form starts at the default location, which passes the location check, so
   * submitting it untouched reports exactly the name, the author, the file and the
   * emotions.
   */
  lemma NewFormErrors()
    ensures FormErrors(InitialForm(None), false, false).Keys == {InputError(Nombre), InputError(Autor), Audio, EmocionesError}
  {
    var f := InitialForm(None);
    var e := FormErrors(f, false, false);
    assert f.nombre == [] && f.autor == [] && f.emociones == [];
    assert !Fails(f, false, false, Ubicacion);
    forall k
      ensures k in e.Keys <==> k in {InputError(Nombre), InputError(Autor), Audio, EmocionesError}
    {
      FormErrorsKeys(f, false, false);
    }
  }

  /** A sound stored at latitude zero is edited as if it were at the default latitude. */
  lemma ZeroLatitudeEditedAsDefault(s: InitialSound, lng: real)
    requires s.coordinates == Some([lng, 0.0])
    ensures InitialForm(Some(s)).latitud == Number(DefaultLat)
  {
  }

  /** An edited sound with a name, an author and an emotion validates without a new file. */
  lemma EditingNeedsNoFile(s: InitialSound)
    requires !Blank(s.nombre) && !Blank(s.autor) && s.emociones != []
    ensures FormErrors(InitialForm(Some(s)), false, true) == map[]
  {
    FormErrorsSpec(InitialForm(Some(s)), false, true);
  }

  /** Picking a point on the equator on the map still fails the location check. */
  lemma EquatorPickFails(f: FormData, lng: real, hasFile: bool, editing: bool)
    ensures Ubicacion in FormErrors(f.(latitud := Number(0.0), longitud := Number(lng)), hasFile, editing)
  {
    FormErrorsKeys(f.(latitud := Number(0.0), longitud := Number(lng)), hasFile, editing);
  }

  // ---------------------------------------------------------------------------
  // The component's state

  class SoundFormState {
    var formData: FormData
    var audioFile: Option<FrontHelpers.File>
    var audioPreview: Option<string>
    var isSubmitting: bool
    var errors: map<ErrorKey, string>
    var showLocationSelector: bool
    /** Whether the form edits an existing sound (`initialData` is given). */
    const editing: bool

    /** The initial state for `initialData` (`None` for a new sound). */
    constructor (initial: Option<InitialSound>)
      ensures formData == InitialForm(initial)
      ensures audioFile == None
      ensures audioPreview == (if initial.Some? && initial.value.audioUrl != [] then Some(initial.value.audioUrl) else None)
      ensures !isSubmitting && errors == map[] && !showLocationSelector
      ensures editing == initial.Some?
    {
      formData := InitialForm(initial);
      audioFile := None;
      audioPreview := if initial.Some? && initial.value.audioUrl != [] then Some(initial.value.audioUrl) else None;
      isSubmitting := false;
      errors := map[];
      showLocationSelector := false;
      editing := initial.Some?;
    }

    /**
     * `handleInputChange`: the input's field takes the typed text and, when that field
     * has an error, the error is cleared; other errors stay (typing a coordinate does
     * not clear the `ubicacion` error, whose key is not an input's).
     */
    method HandleInputChange(field: InputField, value: string)
      modifies this
      ensures formData == WithInput(old(formData), field, value)
      ensures errors == old(errors) - {InputError(field)}
      ensures audioFile == old(audioFile) && audioPreview == old(audioPreview)
      ensures isSubmitting == old(isSubmitting) && showLocationSelector == old(showLocationSelector)
    {
      formData := WithInput(formData, field, value);
      var key := InputError(field);
      if key in errors {
        errors := errors - {key};
      }
    }

    /** `handleMultiSelectChange`: the named list is toggled at `value`; nothing else changes. */
    method HandleMultiSelectChange(field: ListField, value: string)
      modifies this
      ensures formData == WithList(old(formData), field, Toggle(ListValue(old(formData), field), value))
      ensures errors == old(errors) && audioFile == old(audioFile) && audioPreview == old(audioPreview)
      ensures isSubmitting == old(isSubmitting) && showLocationSelector == old(showLocationSelector)
    {
      var current := ListValue(formData, field);
      var next: seq<string>;
      if value in current {
        next := Filter(current, (x: string) => x != value);
      } else {
        next := current + [value];
      }
      formData := WithList(formData, field, next);
    }

    /**
     * `handleFileChange`: no file changes nothing; a rejected file records its message
     * under `audio` and is not kept; an accepted file becomes the audio file, its object
     * URL (`previewUrl`) the preview, and the `audio` error is cleared.
     */
    method HandleFileChange(file: Option<FrontHelpers.File>, previewUrl: string)
      modifies this
      ensures file.None? ==> audioFile == old(audioFile) && audioPreview == old(audioPreview) && errors == old(errors)
      ensures file.Some? && FileVerdict(file.value).Some? ==>
        && errors == old(errors)[Audio := FileVerdict(file.value).value]
        && audioFile == old(audioFile) && audioPreview == old(audioPreview)
      ensures file.Some? && FileVerdict(file.value).None? ==>
        && audioFile == file && audioPreview == Some(previewUrl)
        && errors == old(errors) - {Audio}
      ensures formData == old(formData)
      ensures isSubmitting == old(isSubmitting) && showLocationSelector == old(showLocationSelector)
    {
      if file.None? {
        return;
      }
      var f := file.value;
      if f.size > MaxFileSize {
        errors := errors[Audio := FileTooBigMessage];
        return;
      }
      var extension := Lower(AfterLastDot(f.name));
      if extension !in AllowedFormats {
        errors := errors[Audio := InvalidFormatMessage];
        return;
      }
      audioFile := Some(f);
      audioPreview := Some(previewUrl);
      errors := errors - {Audio};
    }

    /** The audio element's `loadedmetadata` callback: the duration in whole seconds. */
    method HandleLoadedMetadata(duration: real)
      modifies this
      ensures formData == old(formData).(duracion := duration.Floor as real)
      ensures formData.duracion <= duration < formData.duracion + 1.0
      ensures errors == old(errors) && audioFile == old(audioFile) && audioPreview == old(audioPreview)
      ensures isSubmitting == old(isSubmitting) && showLocationSelector == old(showLocationSelector)
    {
      formData := formData.(duracion := duration.Floor as real);
    }

    /** `handleLocationSelect`: the picked point becomes the location and the picker closes. */
    method HandleLocationSelect(lat: real, lng: real)
      modifies this
      ensures formData == old(formData).(latitud := Number(lat), longitud := Number(lng))
      ensures !showLocationSelector
      ensures errors == old(errors) && audioFile == old(audioFile) && audioPreview == old(audioPreview)
      ensures isSubmitting == old(isSubmitting)
    {
      formData := formData.(latitud := Number(lat), longitud := Number(lng));
      showLocationSelector := false;
    }

    /** The "Seleccionar en mapa" / "Ocultar" button: the picker opens or closes. */
    method ToggleLocationSelector()
      modifies this
      ensures showLocationSelector == !old(showLocationSelector)
      ensures formData == old(formData) && errors == old(errors)
      ensures audioFile == old(audioFile) && audioPreview == old(audioPreview)
      ensures isSubmitting == old(isSubmitting)
    {
      showLocationSelector := !showLocationSelector;
    }

    /**
     * `validateForm`: the recorded errors are replaced by the failing checks' messages,
     * and the form is valid exactly when there is none.
     */
    method ValidateForm() returns (ok: bool)
      modifies this
      ensures errors == FormErrors(formData, audioFile.Some?, editing)
      ensures ok <==> errors == map[]
      ensures formData == old(formData) && audioFile == old(audioFile) && audioPreview == old(audioPreview)
      ensures isSubmitting == old(isSubmitting) && showLocationSelector == old(showLocationSelector)
    {
      var newErrors := CollectErrors(formData, audioFile.Some?, editing);
      errors := newErrors;
      ok := |newErrors| == 0;
    }
  }
}
