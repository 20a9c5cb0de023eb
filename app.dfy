/**
 * The application shell (`App.js`): which records `loadSounds` keeps, the search and
 * emotion filters of the explore page, the sections of the home page, the number of
 * contributors, the adapter that turns records into what the analytics page reads,
 * and the state the shell keeps. The HTTP client, the clock and the rendering are not
 * modelled: what they produce is a parameter.
 */
module App {
  import opened Wrappers
  import opened Text
  import opened Collections
  import opened JsValues
  import Analytics

  /** `value.name` for a property read the code guards: only objects have named properties here. */
  function Field(v: Value, name: string): Value {
    if v.Obj? then Get(v.fields, name) else Undefined
  }

  // ---------------------------------------------------------------------------
  // loadSounds: the validity filter

  /**
   * The test `loadSounds` applies to each record: the record, its `_id`, its `nombre`,
   * its `ubicacion` and `ubicacion.coordinates` are truthy, and the coordinates are an
   * array of two. Exactly the objects with a truthy id and name and a location object
   * holding a pair of coordinates pass.
   */
  function IsValidSound(sound: Value): (ok: bool)
    ensures ok <==>
      && sound.Obj?
      && Truthy(Get(sound.fields, "_id"))
      && Truthy(Get(sound.fields, "nombre"))
      && Get(sound.fields, "ubicacion").Obj?
      && Get(Get(sound.fields, "ubicacion").fields, "coordinates").Arr?
      && |Get(Get(sound.fields, "ubicacion").fields, "coordinates").items| == 2
  {
    var ubicacion := Field(sound, "ubicacion");
    var coordinates := Field(ubicacion, "coordinates");
    && Truthy(sound)
    && Truthy(Field(sound, "_id"))
    && Truthy(Field(sound, "nombre"))
    && Truthy(ubicacion)
    && Truthy(coordinates)
    && coordinates.Arr?
    && |coordinates.items| == 2
  }

  /** `soundsData.filter(isValid)`. */
  function ValidSounds(soundsData: seq<Value>): seq<Value> {
    Filter(soundsData, IsValidSound)
  }

  /**
   * The records kept are the valid ones, in their order, each as often as the response
   * holds it: every kept record is valid, and no valid record is dropped.
   */
  lemma ValidSoundsSpec(soundsData: seq<Value>)
    ensures Subsequence(ValidSounds(soundsData), soundsData)
    ensures forall v :: v in ValidSounds(soundsData) ==> IsValidSound(v)
    ensures forall v :: multiset(ValidSounds(soundsData))[v] == if IsValidSound(v) then multiset(soundsData)[v] else 0
    ensures |ValidSounds(soundsData)| == |soundsData| <==> forall v :: v in soundsData ==> IsValidSound(v)
  {
    FilterIsSubsequence(soundsData, IsValidSound);
    FilterMembers(soundsData, IsValidSound);
    FilterKeepsAll(soundsData, IsValidSound);
    forall v ensures multiset(ValidSounds(soundsData))[v] == if IsValidSound(v) then multiset(soundsData)[v] else 0 {
      FilterCount(soundsData, IsValidSound, v);
    }
  }

  /** What the request for the sounds produced: it threw, or it answered with `response.data`. */
  datatype Fetch = Threw | Answered(data: Value)

  const LoadFailedMessage: string := "No se pudieron cargar los sonidos"
  const NetworkErrorMessage: string := "Error de conexión. Por favor, verifica tu conexión a internet."

  /** The sounds and the error message the shell holds. */
  datatype Loaded = Loaded(sounds: seq<Value>, error: Option<string>)

  /** `response.data && response.data.success`. */
  predicate Succeeded(data: Value) {
    Truthy(data) && Truthy(Field(data, "success"))
  }

  /** `response.data.data` when it is an array, and nothing otherwise. */
  function SoundsData(data: Value): seq<Value> {
    var soundsData := Field(data, "data");
    if soundsData.Arr? then soundsData.items else []
  }

  /**
   * What `loadSounds` leaves behind, from what it found. A successful answer replaces
   * the sounds by the valid records of its `data` (none when `data` is not an array),
   * and clears the error exactly when `data` is an array; an unsuccessful answer and a
   * request that threw keep the sounds and set their message.
   */
  function AfterLoad(fetch: Fetch, before: Loaded): (after: Loaded)
    ensures fetch.Threw? ==> after == before.(error := Some(NetworkErrorMessage))
    ensures fetch.Answered? && !Succeeded(fetch.data) ==> after == before.(error := Some(LoadFailedMessage))
    ensures fetch.Answered? && Succeeded(fetch.data) ==>
      && after.sounds == ValidSounds(SoundsData(fetch.data))
      && after.error == (if Field(fetch.data, "data").Arr? then None else before.error)
  {
    match fetch
    case Threw => before.(error := Some(NetworkErrorMessage))
    case Answered(data) =>
      if Truthy(data) && Truthy(Field(data, "success")) then
        var soundsData := Field(data, "data");
        if Truthy(soundsData) && soundsData.Arr? then Loaded(ValidSounds(soundsData.items), None)
        else before.(sounds := [])
      else before.(error := Some(LoadFailedMessage))
  }

  /** Holding only valid records is kept by every load, whatever the answer. */
  lemma {:induction false} LoadKeepsOnlyValid(fetch: Fetch, before: Loaded)
    requires forall v :: v in before.sounds ==> IsValidSound(v)
    ensures forall v :: v in AfterLoad(fetch, before).sounds ==> IsValidSound(v)
  {
    if fetch.Answered? && Succeeded(fetch.data) {
      ValidSoundsSpec(SoundsData(fetch.data));
    }
  }

  // ---------------------------------------------------------------------------
  // ExplorePage: search and emotion filters

  /** `v.toLowerCase()`: only a string has the method. */
  function LowerCaseOf(v: Value): Result<string, JsError> {
    if v.Str? then Success(Lower(v.s)) else Failure(TypeError)
  }

  /** `v?.toLowerCase()`: `undefined` on `null` or `undefined`. */
  function OptionalLowerCaseOf(v: Value): Result<Option<string>, JsError> {
    if Nullish(v) then Success(None)
    else if v.Str? then Success(Some(Lower(v.s)))
    else Failure(TypeError)
  }

  /**
   * The search test as written: `nombre.toLowerCase()`, then `descripcion?.toLowerCase()`,
   * then `autor.toLowerCase()` each contain the lower-cased term, evaluated left to right
   * and stopping at the first hit. A read that is not a string (a missing `autor`, say)
   * raises unless an earlier field already matched.
   */
  function SearchHitAsWritten(sound: Value, term: string): Result<bool, JsError> {
    var t := Lower(term);
    match LowerCaseOf(Field(sound, "nombre"))
    case Failure(e) => Failure(e)
    case Success(nombre) =>
      if Contains(nombre, t) then Success(true)
      else
        match OptionalLowerCaseOf(Field(sound, "descripcion"))
        case Failure(e) => Failure(e)
        case Success(descripcion) =>
          if descripcion.Some? && Contains(descripcion.value, t) then Success(true)
          else
            match LowerCaseOf(Field(sound, "autor"))
            case Failure(e) => Failure(e)
            case Success(autor) => Success(Contains(autor, t))
  }

  /**
   * `sound.emociones?.includes(emotion)`: membership in an array, a substring of a
   * string, no match when the field is missing, and a `TypeError` on any other value.
   */
  function EmotionHitAsWritten(sound: Value, emotion: string): Result<bool, JsError> {
    var emociones := Field(sound, "emociones");
    if Nullish(emociones) then Success(false)
    else if emociones.Arr? then Success(Str(emotion) in emociones.items)
    else if emociones.Str? then Success(Contains(emociones.s, emotion))
    else Failure(TypeError)
  }

  /** `s.filter(p)` for a test that may raise: the first raising element aborts the whole filter. */
  function FilterOrThrow(s: seq<Value>, p: Value -> Result<bool, JsError>): Result<seq<Value>, JsError> {
    if s == [] then Success([])
    else
      match p(s[0])
      case Failure(e) => Failure(e)
      case Success(keep) =>
        match FilterOrThrow(s[1..], p)
        case Failure(e) => Failure(e)
        case Success(rest) => Success(if keep then [s[0]] + rest else rest)
  }

  /** A test that never raises filters like the plain filter. */
  lemma {:induction false} FilterOrThrowAgrees(s: seq<Value>, p: Value -> Result<bool, JsError>, q: Value -> bool)
    requires forall v :: v in s ==> p(v) == Success(q(v))
    ensures FilterOrThrow(s, p) == Success(Filter(s, q))
  {
    if s != [] {
      assert s[0] in s;
      assert forall v :: v in s[1..] ==> v in s;
      FilterOrThrowAgrees(s[1..], p, q);
      var rest := Filter(s[1..], q);
      assert Filter(s, q) == (if q(s[0]) then [s[0]] else []) + rest;
      assert [] + rest == rest;
    }
  }

  /**
   * The explore page's effect as written: the search filter when the term is non-empty,
   * then the emotion filter when an emotion is selected; either may raise.
   */
  function ExploreFilterAsWritten(sounds: seq<Value>, searchTerm: string, emotion: string): Result<seq<Value>, JsError> {
    var bySearch := if searchTerm != [] then FilterOrThrow(sounds, s => SearchHitAsWritten(s, searchTerm)) else Success(sounds);
    match bySearch
    case Failure(e) => Failure(e)
    case Success(found) =>
      if emotion != [] then FilterOrThrow(found, s => EmotionHitAsWritten(s, emotion)) else Success(found)
  }

  /** A field that is a string containing the lower-cased term once lower-cased itself. */
  predicate FieldContains(sound: Value, name: string, term: string) {
    Field(sound, name).Str? && Contains(Lower(Field(sound, name).s), Lower(term))
  }

  /** The intended search test: the term occurs in the name, the description or the author, whichever are strings. */
  predicate SearchHit(sound: Value, term: string) {
    FieldContains(sound, "nombre", term) || FieldContains(sound, "descripcion", term) || FieldContains(sound, "autor", term)
  }

  /** The emotion test, with a value of any other kind simply not matching. */
  predicate EmotionHit(sound: Value, emotion: string) {
    var emociones := Field(sound, "emociones");
    (emociones.Arr? && Str(emotion) in emociones.items) || (emociones.Str? && Contains(emociones.s, emotion))
  }

  /** A sound the page shows: it passes each filter that is switched on. */
  predicate Shown(sound: Value, searchTerm: string, emotion: string) {
    (searchTerm == [] || SearchHit(sound, searchTerm)) && (emotion == [] || EmotionHit(sound, emotion))
  }

  /** The explore page's filters with the author read as `autor?.toLowerCase()`, so that a missing author does not match. */
  function ExploreFilter(sounds: seq<Value>, searchTerm: string, emotion: string): seq<Value> {
    var found := if searchTerm != [] then Filter(sounds, s => SearchHit(s, searchTerm)) else sounds;
    if emotion != [] then Filter(found, s => EmotionHit(s, emotion)) else found
  }

  /**
   * The page shows, in their order, exactly the sounds that pass the filters switched
   * on; with no term and no emotion it shows every sound.
   */
  lemma ExploreFilterSpec(sounds: seq<Value>, searchTerm: string, emotion: string)
    ensures ExploreFilter(sounds, searchTerm, emotion) == Filter(sounds, s => Shown(s, searchTerm, emotion))
    ensures Subsequence(ExploreFilter(sounds, searchTerm, emotion), sounds)
    ensures forall v :: v in ExploreFilter(sounds, searchTerm, emotion) <==> v in sounds && Shown(v, searchTerm, emotion)
    ensures searchTerm == [] && emotion == [] ==> ExploreFilter(sounds, searchTerm, emotion) == sounds
  {
    var shown := (s: Value) => Shown(s, searchTerm, emotion);
    var search := (s: Value) => SearchHit(s, searchTerm);
    var feels := (s: Value) => EmotionHit(s, emotion);
    if searchTerm != [] && emotion != [] {
      FilterFilter(sounds, search, feels, shown);
    } else if searchTerm != [] {
      FilterFilter(sounds, search, _ => true, shown);
      FilterAll(Filter(sounds, search), _ => true);
    } else if emotion != [] {
      FilterFilter(sounds, _ => true, feels, shown);
      FilterAll(sounds, _ => true);
    } else {
      FilterAll(sounds, shown);
    }
    FilterIsSubsequence(sounds, shown);
    FilterMembers(sounds, shown);
  }

  /** The fields the written filter reads have the kinds it expects. */
  predicate WellTyped(sound: Value) {
    var descripcion := Field(sound, "descripcion");
    var emociones := Field(sound, "emociones");
    && Field(sound, "nombre").Str?
    && (Nullish(descripcion) || descripcion.Str?)
    && Field(sound, "autor").Str?
    && (Nullish(emociones) || emociones.Arr? || emociones.Str?)
  }

  lemma SearchAgreesOnWellTyped(sound: Value, term: string)
    requires WellTyped(sound)
    ensures SearchHitAsWritten(sound, term) == Success(SearchHit(sound, term))
  {
  }

  lemma EmotionAgreesOnWellTyped(sound: Value, emotion: string)
    requires WellTyped(sound)
    ensures EmotionHitAsWritten(sound, emotion) == Success(EmotionHit(sound, emotion))
  {
  }

  /** On sounds whose fields have the expected kinds, the written filter raises nothing and agrees with the intended one. */
  lemma ExploreFilterAgreesOnWellTyped(sounds: seq<Value>, searchTerm: string, emotion: string)
    requires forall v :: v in sounds ==> WellTyped(v)
    ensures ExploreFilterAsWritten(sounds, searchTerm, emotion) == Success(ExploreFilter(sounds, searchTerm, emotion))
  {
    var search := (s: Value) => SearchHit(s, searchTerm);
    var found := if searchTerm != [] then Filter(sounds, search) else sounds;
    if searchTerm != [] {
      forall v | v in sounds ensures SearchHitAsWritten(v, searchTerm) == Success(search(v)) {
        SearchAgreesOnWellTyped(v, searchTerm);
      }
      FilterOrThrowAgrees(sounds, s => SearchHitAsWritten(s, searchTerm), search);
      FilterMembers(sounds, search);
    }
    if emotion != [] {
      forall v | v in found ensures EmotionHitAsWritten(v, emotion) == Success(EmotionHit(v, emotion)) {
        EmotionAgreesOnWellTyped(v, emotion);
      }
      FilterOrThrowAgrees(found, s => EmotionHitAsWritten(s, emotion), s => EmotionHit(s, emotion));
    }
  }

  /**
   * A sound whose name does not contain the term and which has neither a description
   * nor an author makes the written search raise, and is not shown by the intended one.
   */
  lemma NoAuthorNoMatchRaises(sound: Value, term: string)
    requires Field(sound, "nombre").Str? && !Contains(Lower(Field(sound, "nombre").s), Lower(term))
    requires Field(sound, "descripcion") == Undefined && Field(sound, "autor") == Undefined
    requires term != []
    ensures ExploreFilterAsWritten([sound], term, "") == Failure(TypeError)
    ensures ExploreFilter([sound], term, "") == []
  {
    assert [sound][1..] == [];
    assert Filter([sound], s => SearchHit(s, term)) == [] + Filter([sound][1..], s => SearchHit(s, term));
  }

  /** A record with a name, an id and a location, and no description or author. */
  const AuthorlessSound: Value :=
    Obj([("nombre", Str("Ola")), ("_id", Str("1")), ("ubicacion", Obj([("coordinates", Arr([Num(0.0), Num(0.0)]))]))])

  lemma AuthorlessSoundIsValid()
    ensures IsValidSound(AuthorlessSound)
  {
    var ubicacion := Obj([("coordinates", Arr([Num(0.0), Num(0.0)]))]);
    LookupFirst(AuthorlessSound.fields, 1, "_id");
    LookupFirst(AuthorlessSound.fields, 2, "ubicacion");
    assert Get(ubicacion.fields, "coordinates") == Arr([Num(0.0), Num(0.0)]);
  }

  lemma AuthorlessSoundRaises()
    ensures ExploreFilterAsWritten([AuthorlessSound], "bosque", "") == Failure(TypeError)
    ensures ExploreFilter([AuthorlessSound], "bosque", "") == []
  {
    NotContainedWhenLonger(Lower("Ola"), Lower("bosque"));
    assert Field(AuthorlessSound, "nombre") == Str("Ola");
    GetAbsent(AuthorlessSound.fields, "descripcion");
    GetAbsent(AuthorlessSound.fields, "autor");
    NoAuthorNoMatchRaises(AuthorlessSound, "bosque");
  }

  /**
   * A record `loadSounds` accepts may lack `autor` (the back end does not require one);
   * searching for a term its name does not contain then raises a `TypeError`, where the
   * intended filter simply does not show it.
   */
  lemma MissingAuthorBreaksSearch()
    ensures IsValidSound(AuthorlessSound)
    ensures ExploreFilterAsWritten([AuthorlessSound], "bosque", "") == Failure(TypeError)
    ensures ExploreFilter([AuthorlessSound], "bosque", "") == []
  {
    AuthorlessSoundIsValid();
    AuthorlessSoundRaises();
  }

  // ---------------------------------------------------------------------------
  // HomePage

  /** The two lists the home page shows. */
  datatype HomeSections = HomeSections(featured: seq<Value>, recent: seq<Value>)

  /**
   * The home page's effect: with sounds, `slice(0, 3)` is featured and `slice(0, 6)`
   * recent; without, both are empty. So the featured sounds are the first (up to three)
   * of the recent ones, which are the first (up to six) sounds.
   */
  function Home(sounds: seq<Value>): (h: HomeSections)
    ensures |h.featured| == (if |sounds| < 3 then |sounds| else 3)
    ensures |h.recent| == (if |sounds| < 6 then |sounds| else 6)
    ensures h.recent == sounds[..|h.recent|]
    ensures h.featured == h.recent[..|h.featured|]
    ensures h.featured == [] <==> sounds == []
  {
    if |sounds| > 0 then
      var recent := sounds[..if |sounds| < 6 then |sounds| else 6];
      var featured := sounds[..if |sounds| < 3 then |sounds| else 3];
      assert featured == recent[..|featured|];
      HomeSections(featured, recent)
    else HomeSections([], [])
  }

  /** `sounds.map(s => s.autor)`. */
  function AuthorValues(sounds: seq<Value>): seq<Value> {
    seq(|sounds|, i requires 0 <= i < |sounds| => Field(sounds[i], "autor"))
  }

  /**
   * `new Set(sounds.map(s => s.autor)).size`, the contributor count of the home page and
   * the footer: never more than the sounds, and none exactly when there is no sound (a
   * missing author counts once, as `undefined`).
   */
  function ContributorCount(sounds: seq<Value>): (n: nat)
    ensures n <= |sounds|
    ensures n == 0 <==> sounds == []
  {
    var authors := AuthorValues(sounds);
    ToSetBound(authors);
    assert sounds != [] ==> authors[0] in ToSet(authors);
    |ToSet(authors)|
  }

  // ---------------------------------------------------------------------------
  // AnalyticsPage: the record adapter

  /**
   * What the adapter takes from the JavaScript runtime: the current day (`new Date()`),
   * the property key a value becomes, the `toFixed(2)` rendering of a coordinate pair,
   * and the day `new Date(v)` reads from a date value (`None` for an invalid date).
   */
  datatype Runtime = Runtime(today: int, toKey: Value -> string, showCoordinates: Value -> string,
                             parseDate: Value -> Option<int>)

  /** A value as the analytics page uses it as a key: a string as itself. */
  function KeyText(v: Value, rt: Runtime): string {
    if v.Str? then v.s else rt.toKey(v)
  }

  const UnknownAuthor: string := "Autor desconocido"
  const UnknownLocation: string := "Ubicación desconocida"
  const DefaultDuration: real := 30.0

  /** The date the adapter stores: `fecha` when it is truthy, else the current instant. */
  function AdaptedDate(fecha: Value, rt: Runtime): Analytics.DateField {
    if Truthy(fecha) then
      match rt.parseDate(fecha)
      case Some(d) => Analytics.Day(d)
      case None => Analytics.InvalidDate
    else Analytics.Day(rt.today)
  }

  /**
   * One record as the analytics page receives it: the author or "Autor desconocido",
   * the emotions when they are an array, the formatted coordinates or "Ubicación
   * desconocida", the duration or 30, and the same date as `createdAt` and `fecha`.
   */
  function AdaptSound(sound: Value, rt: Runtime): Analytics.Sound {
    var autor := Field(sound, "autor");
    var emociones := Field(sound, "emociones");
    var coordinates := Field(Field(sound, "ubicacion"), "coordinates");
    var duracion := Field(sound, "duracion");
    var date := AdaptedDate(Field(sound, "fecha"), rt);
    Analytics.Sound(
      Some(if Truthy(autor) then KeyText(autor, rt) else UnknownAuthor),
      Some(if emociones.Arr? then seq(|emociones.items|, i requires 0 <= i < |emociones.items| => KeyText(emociones.items[i], rt)) else []),
      Some(if Truthy(coordinates) then rt.showCoordinates(coordinates) else UnknownLocation),
      if !Truthy(duracion) then Some(DefaultDuration) else if duracion.Num? then Some(duracion.n) else None,
      date,
      date)
  }

  /** `sounds.map(adapt)`. */
  function AdaptSounds(sounds: seq<Value>, rt: Runtime): seq<Analytics.Sound> {
    seq(|sounds|, i requires 0 <= i < |sounds| => AdaptSound(sounds[i], rt))
  }

  /**
   * Every adapted sound has an author, an emotion list and a location, and the same
   * known date twice; a falsy author or duration takes its default, a string author
   * and the strings of an emotion array are kept as they are.
   */
  lemma AdaptSoundSpec(sound: Value, rt: Runtime)
    ensures var a, autor, emociones := AdaptSound(sound, rt), Field(sound, "autor"), Field(sound, "emociones");
      && a.author.Some? && a.emotions.Some? && a.location.Some?
      && a.createdAt == a.fecha && !a.createdAt.NoDate?
      && (!Truthy(autor) ==> a.author == Some(UnknownAuthor))
      && (Truthy(autor) && autor.Str? ==> a.author == Some(autor.s))
      && (!emociones.Arr? ==> a.emotions == Some([]))
      && (emociones.Arr? ==>
            && |a.emotions.value| == |emociones.items|
            && forall i :: 0 <= i < |emociones.items| && emociones.items[i].Str? ==> a.emotions.value[i] == emociones.items[i].s)
      && (!Truthy(Field(sound, "duracion")) ==> a.duration == Some(DefaultDuration))
  {
  }

  /**
   * The analytics page counts an adapted sound on the day of its `fecha`, and on the
   * current day when the record has no date or an invalid one.
   */
  lemma AdaptedDayKey(sound: Value, rt: Runtime)
    ensures var fecha := Field(sound, "fecha");
      Analytics.DayKey(AdaptSound(sound, rt), rt.today)
        == if Truthy(fecha) && rt.parseDate(fecha).Some? then rt.parseDate(fecha).value else rt.today
  {
  }

  /** When no record carries a date, the 30-day timeline counts every sound, on the current day. */
  lemma UndatedSoundsAllOnTimeline(sounds: seq<Value>, rt: Runtime)
    requires forall i :: 0 <= i < |sounds| ==> !Truthy(Field(sounds[i], "fecha"))
    ensures var adapted := AdaptSounds(sounds, rt);
      Analytics.TimelineTotal(Analytics.Timeline(Tally(Analytics.DayKeys(adapted, rt.today)), rt.today)) == |sounds|
  {
    var adapted := AdaptSounds(sounds, rt);
    forall i | 0 <= i < |adapted| ensures Analytics.InLast30Days(adapted[i], rt.today) {
      AdaptedDayKey(sounds[i], rt);
    }
    Analytics.TimelineCountsRecentSounds(adapted, rt.today);
  }

  // ---------------------------------------------------------------------------
  // The shell's state

  datatype ConnectionStatus = Checking | Connected | Disconnected

  const NoServerMessage: string := "No se puede conectar al servidor"

  /** `sounds` with a newly created sound in front. */
  function WithNewSound(sounds: seq<Value>, newSound: Value): (r: seq<Value>)
    ensures |r| == |sounds| + 1 && r[0] == newSound && r[1..] == sounds
  {
    [newSound] + sounds
  }

  /**
   * After a sound is created and the list reloaded, the new sound stays in front only
   * when the reload did not succeed; a successful reload shows the server's valid records.
   */
  lemma CreatedSoundAfterReload(sounds: seq<Value>, error: Option<string>, newSound: Value, reload: Fetch)
    ensures var after := AfterLoad(reload, Loaded(WithNewSound(sounds, newSound), error));
      && (reload.Answered? && Succeeded(reload.data) ==> after.sounds == ValidSounds(SoundsData(reload.data)))
      && (!(reload.Answered? && Succeeded(reload.data)) ==> after.sounds[0] == newSound && after.sounds[1..] == sounds)
  {
  }

  /** The state `App` keeps with `useState`. */
  class AppState {
    var sounds: seq<Value>
    var selectedSound: Option<Value>
    var isLoading: bool
    var error: Option<string>
    var connectionStatus: ConnectionStatus

    constructor ()
      ensures sounds == [] && selectedSound == None && isLoading && error == None && connectionStatus == Checking
    {
      sounds := [];
      selectedSound := None;
      isLoading := true;
      error := None;
      connectionStatus := Checking;
    }

    /** `loadSounds()`, given what the request produced; the loading flag ends cleared. */
    method LoadSounds(fetch: Fetch)
      modifies this
      ensures Loaded(sounds, error) == AfterLoad(fetch, Loaded(old(sounds), old(error)))
      ensures !isLoading
      ensures selectedSound == old(selectedSound) && connectionStatus == old(connectionStatus)
    {
      isLoading := true;
      match fetch {
        case Threw =>
          error := Some(NetworkErrorMessage);
        case Answered(data) =>
          if Truthy(data) && Truthy(Field(data, "success")) {
            var soundsData := Field(data, "data");
            if Truthy(soundsData) && soundsData.Arr? {
              sounds := Filter(soundsData.items, IsValidSound);
              error := None;
            } else {
              sounds := [];
            }
          } else {
            error := Some(LoadFailedMessage);
          }
      }
      isLoading := false;
    }

    /** `checkConnection()`, given whether the health check answered. */
    method CheckConnection(healthy: bool)
      modifies this
      ensures connectionStatus == (if healthy then Connected else Disconnected)
      ensures error == (if healthy then old(error) else Some(NoServerMessage))
      ensures sounds == old(sounds) && selectedSound == old(selectedSound) && isLoading == old(isLoading)
    {
      if healthy {
        connectionStatus := Connected;
      } else {
        connectionStatus := Disconnected;
        error := Some(NoServerMessage);
      }
    }

    /** `handleSoundCreated(newSound)`: the sound goes in front, then the list is reloaded. */
    method HandleSoundCreated(newSound: Value, reload: Fetch)
      modifies this
      ensures Loaded(sounds, error) == AfterLoad(reload, Loaded(WithNewSound(old(sounds), newSound), old(error)))
      ensures !isLoading && selectedSound == old(selectedSound) && connectionStatus == old(connectionStatus)
    {
      sounds := [newSound] + sounds;
      LoadSounds(reload);
    }

    /** `handleSoundSelect(sound)`: the modal shows the sound. */
    method HandleSoundSelect(sound: Value)
      modifies this
      ensures selectedSound == Some(sound)
      ensures sounds == old(sounds) && isLoading == old(isLoading) && error == old(error) && connectionStatus == old(connectionStatus)
    {
      selectedSound := Some(sound);
    }

    /** `closeModal()`. */
    method CloseModal()
      modifies this
      ensures selectedSound == None
      ensures sounds == old(sounds) && isLoading == old(isLoading) && error == old(error) && connectionStatus == old(connectionStatus)
    {
      selectedSound := None;
    }
  }
}
