/**
 * The decisions of the sound routes (`routes/sounds.py`): the extension check, which
 * query `GET /sounds` runs, and the ordered chain of outcomes of creating, updating
 * and tagging a sound. The database, Python's `float` and Flask's request parsing are
 * not modelled: what they return, or whether they raise, is a parameter.
 */
module SoundRoutes {
  import opened Wrappers
  import opened Text
  import opened Collections
  import opened PyValues
  import FrontHelpers

  /** The default of `ALLOWED_AUDIO_EXTENSIONS`. */
  const AllowedExtensions: seq<string> := ["mp3", "wav", "ogg", "m4a"]

  /** `allowed_file(filename)`: the name has a dot and its lower-cased extension is allowed. */
  function AllowedFile(filename: string, allowed: seq<string>): (r: bool)
    ensures r <==> exists k :: 0 <= k < |filename| && filename[k] == '.' && '.' !in filename[k + 1..]
                              && Lower(filename[k + 1..]) in allowed
  {
    var ext := AfterLastDot(filename);
    assert '.' in filename ==> filename[|filename| - |ext| - 1] == '.';
    '.' in filename && Lower(ext) in allowed
  }

  /**
   * The browser and the server read the same extension from a name with a dot, so for
   * such a name the server accepts exactly the extensions the browser's check accepts.
   */
  lemma AllowedFileAgreesWithBrowser(filename: string, allowed: seq<string>)
    requires '.' in filename
    ensures AllowedFile(filename, allowed) <==> FrontHelpers.Extension(filename) in allowed
  {
  }

  /** A name with no dot that equals an allowed extension passes the browser's check... */
  lemma DotlessNameAcceptedByBrowser()
    ensures FrontHelpers.Extension("mp3") in FrontHelpers.DefaultFormats
  {
    DotlessLowerName("mp3");
  }

  /** ...but not the server's, which demands a dot. */
  lemma DotlessNameRejectedByServer()
    ensures !AllowedFile("mp3", AllowedExtensions)
  {
    DotlessLowerName("mp3");
  }

  lemma DotlessLowerName(name: string)
    requires name == "mp3"
    ensures '.' !in name && AfterLastDot(name) == name && Lower(name) == name
  {
    assert name[0] == 'm' && name[1] == 'p' && name[2] == '3';
    assert forall i :: 0 <= i < |name| ==> LowerChar(name[i]) == name[i];
  }

  // ---------------------------------------------------------------------------
  // GET /sounds

  /** The model query a listing runs. */
  datatype SoundQuery =
    | ByLocation(lat: real, lng: real, radiusKm: int)
    | ByEmotion(emotion: string)
    | AllSounds(limit: int)

  /**
   * Which query `get_sounds` runs, given the query-string arguments as Flask's
   * `request.args.get(..., type=...)` returns them (`None` when missing or not
   * convertible): the location query when both coordinates are truthy (so a zero
   * coordinate falls through), else the emotion query when an emotion is given,
   * else the full listing; radius and limit default to 10 and 100.
   */
  function GetSoundsQuery(lat: Option<real>, lng: Option<real>, radius: Option<int>,
                          emotion: Option<string>, limit: Option<int>): (q: SoundQuery)
    ensures q.ByLocation? <==> lat.Some? && lat.value != 0.0 && lng.Some? && lng.value != 0.0
    ensures q.ByLocation? ==> q == ByLocation(lat.value, lng.value, radius.GetOr(10))
    ensures q.ByEmotion? <==> !q.ByLocation? && emotion.Some? && emotion.value != []
    ensures q.ByEmotion? ==> q.emotion == emotion.value
    ensures q.AllSounds? ==> q.limit == limit.GetOr(100)
  {
    var latTruthy := lat.Some? && lat.value != 0.0;
    var lngTruthy := lng.Some? && lng.value != 0.0;
    if latTruthy && lngTruthy then ByLocation(lat.value, lng.value, radius.GetOr(10))
    else if emotion.Some? && emotion.value != [] then ByEmotion(emotion.value)
    else AllSounds(limit.GetOr(100))
  }

  /** A point on the equator or on the prime meridian is never searched by location. */
  lemma ZeroCoordinateNotLocated(lat: real, lng: real, emotion: Option<string>)
    requires lat == 0.0 || lng == 0.0
    ensures !GetSoundsQuery(Some(lat), Some(lng), None, emotion, None).ByLocation?
  {
  }

  // ---------------------------------------------------------------------------
  // POST /sounds

  datatype CreateError = NoAudioPart | NoFileSelected | MissingData | TypeNotAllowed | StoreFailed

  /** What `create_sound` answers, and the name it stored the upload under, if it did. */
  datatype CreateOutcome = CreateOutcome(status: int, error: Option<CreateError>, savedAs: Option<string>)

  /** A form field as `request.form.get` returns it is truthy: present and non-empty. */
  predicate Given(field: Option<string>) {
    field.Some? && field.value != []
  }

  /**
   * `create_sound()`: `hasAudioPart` says whether the request has an `audio` part and
   * `filename` is that part's name; `secure` is werkzeug's `secure_filename` and
   * `uuid` the text of the fresh `uuid4()`. The checks run in this order: missing part,
   * empty name, extension (each 400 before anything is written); then the upload is
   * saved as "<uuid>_<secure name>" and only afterwards are the required fields
   * `nombre`, `latitud` and `longitud` checked (400). The model's `create_sound` then
   * converts both coordinates with Python's `float` (`toFloat`, `None` where it
   * raises) and inserts the document (`inserted`, false where the database raises);
   * either failure reaches the handler's `except`, a 500 with the upload left on disk.
   */
  function CreateSound(hasAudioPart: bool, filename: string, allowed: seq<string>,
                       secure: string -> string, uuid: string,
                       nombre: Option<string>, latitud: Option<string>, longitud: Option<string>,
                       toFloat: string -> Option<real>, inserted: bool): (r: CreateOutcome)
    ensures r.status == 201 || r.status == 400 || r.status == 500
    ensures r.status == 201 <==> r.error.None?
    ensures r.status == 500 <==> r.error == Some(StoreFailed)
    ensures !hasAudioPart ==> r.error == Some(NoAudioPart)
    ensures hasAudioPart && filename == [] ==> r.error == Some(NoFileSelected)
    ensures hasAudioPart && filename != [] && !AllowedFile(filename, allowed) ==> r.error == Some(TypeNotAllowed)
    ensures r.savedAs.Some? <==> hasAudioPart && filename != [] && AllowedFile(filename, allowed)
    ensures r.savedAs.Some? ==> r.savedAs.value == uuid + "_" + secure(filename)
    ensures r.savedAs.Some? ==>
      (r.status == 400 <==> !(Given(nombre) && Given(latitud) && Given(longitud)))
    ensures r.savedAs.Some? && Given(nombre) && Given(latitud) && Given(longitud) ==>
      (r.status == 201 <==> toFloat(latitud.value).Some? && toFloat(longitud.value).Some? && inserted)
    ensures r.error == Some(MissingData) ==> r.savedAs.Some?
    ensures r.error == Some(StoreFailed) ==> r.savedAs.Some?
  {
    if !hasAudioPart then CreateOutcome(400, Some(NoAudioPart), None)
    else if filename == [] then CreateOutcome(400, Some(NoFileSelected), None)
    else if AllowedFile(filename, allowed) then
      var stored := uuid + "_" + secure(filename);
      if !(Given(nombre) && Given(latitud) && Given(longitud)) then
        CreateOutcome(400, Some(MissingData), Some(stored))
      else if toFloat(longitud.value).None? || toFloat(latitud.value).None? || !inserted then
        CreateOutcome(500, Some(StoreFailed), Some(stored))
      else CreateOutcome(201, None, Some(stored))
    else CreateOutcome(400, Some(TypeNotAllowed), None)
  }

  /** The URL stored with a created sound: "/uploads/" and the stored name. */
  function AudioUrl(storedName: string): (url: string)
    ensures |url| == 9 + |storedName| && url[..9] == "/uploads/" && url[9..] == storedName
  {
    "/uploads/" + storedName
  }

  /** A request with a valid upload but no name is rejected after its file has been written. */
  lemma MissingDataLeavesFile(filename: string, secure: string -> string, uuid: string,
                              latitud: Option<string>, longitud: Option<string>)
    requires filename != [] && AllowedFile(filename, AllowedExtensions)
    ensures forall toFloat: string -> Option<real>, inserted: bool ::
      var r := CreateSound(true, filename, AllowedExtensions, secure, uuid, None, latitud, longitud, toFloat, inserted);
      r.status == 400 && r.error == Some(MissingData) && r.savedAs.Some?
  {
  }

  /**
   * A latitude that Python's `float` refuses passes the route's presence check and
   * fails only in the database layer: a 500, with the upload already written.
   */
  lemma NonNumericCoordinateFails(filename: string, secure: string -> string, uuid: string,
                                  nombre: string, latitud: string, longitud: string,
                                  toFloat: string -> Option<real>, inserted: bool)
    requires filename != [] && AllowedFile(filename, AllowedExtensions)
    requires nombre != [] && latitud != [] && longitud != [] && toFloat(latitud).None?
    ensures var r := CreateSound(true, filename, AllowedExtensions, secure, uuid,
                                 Some(nombre), Some(latitud), Some(longitud), toFloat, inserted);
      r.status == 500 && r.error == Some(StoreFailed) && r.savedAs.Some?
  {
  }

  // ---------------------------------------------------------------------------
  // PUT /sounds/<id> and POST /sounds/<id>/tags

  /** The answer of a route: its HTTP status. */
  datatype RouteStatus = Ok | BadRequest | NotFound | ServerError

  /**
   * What the model's `update_one` call gave back: whether it modified a document, or
   * that it raised (a malformed id, an empty `$set`, a database failure).
   */
  datatype DbAnswer = Modified(changed: bool) | DbRaised

  /**
   * `update_sound(sound_id)`: a falsy body (missing, empty object, empty list...) is a
   * 400 before the database is touched. A truthy body that is not a JSON object has no
   * `pop(key, default)`, so the model layer raises and the handler answers 500, as it
   * does when the database raises; otherwise whether a document was modified decides
   * between 200 and 404.
   */
  function UpdateSound(body: PyValue, db: DbAnswer): (r: RouteStatus)
    ensures r == BadRequest <==> !Truthy(body)
    ensures r == ServerError <==> Truthy(body) && (!body.PyDict? || db.DbRaised?)
    ensures r == Ok <==> Truthy(body) && body.PyDict? && db == Modified(true)
    ensures r == NotFound <==> Truthy(body) && body.PyDict? && db == Modified(false)
  {
    if !Truthy(body) then BadRequest
    else if !body.PyDict? then ServerError
    else match db
      case DbRaised => ServerError
      case Modified(changed) => if changed then Ok else NotFound
  }

  /**
   * `add_tag(sound_id)`: `data.get('tag')` on a body that is not a JSON object raises,
   * which the handler answers with 500; a falsy tag is a 400; otherwise the database's
   * answer decides: 500 when it raised, 200 or 404 by whether a document was modified.
   */
  function AddTag(body: PyValue, db: DbAnswer): (r: RouteStatus)
    ensures !body.PyDict? ==> r == ServerError
    ensures body.PyDict? ==>
      var tag := Lookup(body.entries, "tag").GetOr(PyNone);
      && (r == BadRequest <==> !Truthy(tag))
      && (Truthy(tag) ==> (r == ServerError <==> db.DbRaised?) && (r == Ok <==> db == Modified(true)))
  {
    match body
    case PyDict(entries) =>
      var tag := Lookup(entries, "tag").GetOr(PyNone);
      if !Truthy(tag) then BadRequest
      else (match db
        case DbRaised => ServerError
        case Modified(changed) => if changed then Ok else NotFound)
    case _ => ServerError
  }

  /** A non-empty list body passes the emptiness check of both routes and still fails with 500. */
  lemma ListBodyIsServerError(db: DbAnswer)
    ensures UpdateSound(PyList([PyStr("x")]), db) == ServerError
    ensures AddTag(PyList([PyStr("x")]), db) == ServerError
  {
  }
}
