/**
 * The collection and validation helpers of the front end (`utils/helpers.js`):
 * duration and text formatting, coordinate and audio-file checks, search filtering,
 * multi-key sorting, grouping, occurrence counting and record sanitising.
 */
module FrontHelpers {
  import opened Wrappers
  import opened Text
  import opened Collections
  import opened Sorting
  import opened JsValues

  // ---------------------------------------------------------------------------
  // formatDuration

  /** `!seconds || seconds <= 0` for a number that may be missing. */
  predicate NoDuration(seconds: Option<real>) {
    seconds.None? || seconds.value <= 0.0
  }

  /**
   * `formatDuration(seconds)`: "M:SS", whole minutes then the whole seconds left over,
   * or "0:00" when there is no positive duration. The text reads back as minutes and
   * seconds that make up the whole seconds of the input.
   */
  function FormatDuration(seconds: Option<real>): (r: string)
    ensures ParseClock(r).Some?
    ensures ParseClock(r).value.1 < 60
    ensures NoDuration(seconds) ==> ParseClock(r).value == (0, 0)
    ensures !NoDuration(seconds) ==>
      ParseClock(r).value.0 * 60 + ParseClock(r).value.1 == seconds.value.Floor
  {
    if NoDuration(seconds) then
      ClockRoundTrip(0, 0);
      assert NatToString(0) + ":" + Pad2(NatToString(0)) == "0:00";
      "0:00"
    else
      var s := seconds.value;
      var minutes := (s / 60.0).Floor;
      assert 60.0 * minutes as real <= s < 60.0 * minutes as real + 60.0;
      var rest := (s - 60.0 * minutes as real).Floor;
      assert s.Floor == 60 * minutes + rest;
      ClockRoundTrip(minutes, rest);
      NatToString(minutes) + ":" + Pad2(NatToString(rest))
  }

  // ---------------------------------------------------------------------------
  // truncateText

  /**
   * `truncateText(text, maxLength)`: short text is returned as it is, missing text as
   * "", and longer text is cut to its first `maxLength` characters (none when
   * `maxLength` is negative), trimmed, and followed by "...".
   */
  function TruncateText(text: Option<string>, maxLength: int): (r: string)
    ensures text.None? || text.value == [] ==> r == ""
    ensures text.Some? && |text.value| <= maxLength ==> r == text.value
    ensures text.Some? && text.value != [] && |text.value| > maxLength ==>
      var cut := if maxLength < 0 then 0 else maxLength;
      |r| >= 3 && r[|r| - 3..] == "..." && |r| <= cut + 3 &&
      r[..|r| - 3] == Trim(text.value[..cut]) &&
      Contains(text.value[..cut], r[..|r| - 3]) &&
      (r[..|r| - 3] == [] || (!IsSpace(r[0]) && !IsSpace(r[|r| - 4])))
  {
    if text.None? || text.value == [] || |text.value| <= maxLength then
      if text.None? then "" else text.value
    else
      var cut := if maxLength < 0 then 0 else maxLength;
      var r := Trim(text.value[..cut]) + "...";
      assert r[..|r| - 3] == Trim(text.value[..cut]);
      r
  }

  // ---------------------------------------------------------------------------
  // isValidCoordinates

  /** `isValidCoordinates(lat, lng)`: two numbers within the latitude and longitude ranges. */
  predicate IsValidCoordinates(lat: Value, lng: Value) {
    lat.Num? && lng.Num? && -90.0 <= lat.n <= 90.0 && -180.0 <= lng.n <= 180.0
  }

  // ---------------------------------------------------------------------------
  // validateAudioFile

  /** The browser's `File`: its name, its size in bytes and its MIME type. */
  datatype File = File(name: string, size: int, mimeType: string)

  datatype AudioFileError = NoFile | TooBig | BadFormat | TypeMismatch

  /** The position of each check in `validateAudioFile`. */
  function CheckOrder(e: AudioFileError): nat {
    match e
    case NoFile => 0
    case TooBig => 1
    case BadFormat => 2
    case TypeMismatch => 3
  }

  datatype FileCheck = FileCheck(isValid: bool, errors: seq<AudioFileError>, extension: Option<string>)

  const DefaultMaxSize: int := 50 * 1024 * 1024
  const DefaultFormats: seq<string> := ["mp3", "wav", "ogg", "m4a"]

  /** The lower-cased text after the last dot (the whole name when it has no dot). */
  function Extension(name: string): string {
    Lower(AfterLastDot(name))
  }

  /** The subtype of the MIME type expected for an extension, when the table knows it. */
  function MimeSubtype(ext: string): Option<string> {
    if ext == "mp3" then Some("mpeg")
    else if ext == "wav" then Some("wav")
    else if ext == "ogg" then Some("ogg")
    else if ext == "m4a" then Some("mp4")
    else None
  }

  predicate TypeMatches(f: File) {
    var sub := MimeSubtype(Extension(f.name));
    sub.None? || Contains(f.mimeType, sub.value)
  }

  function ErrorIf(failed: bool, e: AudioFileError): seq<AudioFileError> {
    if failed then [e] else []
  }

  /** The errors of the three checks on a present file, in the order they run. */
  function CheckErrors(big: bool, bad: bool, mismatch: bool): (errors: seq<AudioFileError>)
    ensures errors == [] <==> !big && !bad && !mismatch
    ensures forall i, j :: 0 <= i < j < |errors| ==> CheckOrder(errors[i]) < CheckOrder(errors[j])
    ensures (TooBig in errors <==> big) && (BadFormat in errors <==> bad)
    ensures (TypeMismatch in errors <==> mismatch) && NoFile !in errors
  {
    var errors := ErrorIf(big, TooBig) + ErrorIf(bad, BadFormat) + ErrorIf(mismatch, TypeMismatch);
    assert forall e :: e in errors <==> (e == TooBig && big) || (e == BadFormat && bad) || (e == TypeMismatch && mismatch);
    errors
  }

  /**
   * `validateAudioFile(file, { maxSize, allowedFormats })`: a missing file fails with one
   * error; otherwise each failed check (size, extension, MIME type) adds its error, in
   * that order, and the file is valid exactly when none failed.
   */
  function ValidateAudioFile(file: Option<File>, maxSize: int, allowed: seq<string>): (r: FileCheck)
    ensures r.isValid <==> r.errors == []
    ensures forall i, j :: 0 <= i < j < |r.errors| ==> CheckOrder(r.errors[i]) < CheckOrder(r.errors[j])
    ensures file.None? ==> r.errors == [NoFile] && r.extension.None?
    ensures file.Some? ==>
      var f := file.value;
      && r.extension == Some(Extension(f.name))
      && (r.isValid <==> f.size <= maxSize && Extension(f.name) in allowed && TypeMatches(f))
      && (TooBig in r.errors <==> f.size > maxSize)
      && (BadFormat in r.errors <==> Extension(f.name) !in allowed)
      && (TypeMismatch in r.errors <==> !TypeMatches(f))
      && NoFile !in r.errors
  {
    match file
    case None => FileCheck(false, [NoFile], None)
    case Some(f) =>
      var ext := Extension(f.name);
      var errors := CheckErrors(f.size > maxSize, ext !in allowed, !TypeMatches(f));
      FileCheck(errors == [], errors, Some(ext))
  }

  /** With the default formats the MIME check always applies to an accepted extension. */
  lemma DefaultFormatsHaveSubtypes(ext: string)
    requires ext in DefaultFormats
    ensures MimeSubtype(ext).Some?
  {
  }

  // ---------------------------------------------------------------------------
  // filterBySearch

  /**
   * One search field of an item matches: its value is truthy and, rendered with
   * `toString` (`show`) and normalised, contains the normalised query.
   */
  predicate FieldMatches(item: Record, field: string, query: string,
                         normalize: string -> string, show: Value -> string) {
    var v := Get(item, field);
    Truthy(v) && Contains(normalize(show(v)), query)
  }

  predicate MatchesSearch(item: Record, fields: seq<string>, query: string,
                          normalize: string -> string, show: Value -> string) {
    exists i :: 0 <= i < |fields| && FieldMatches(item, fields[i], query, normalize, show)
  }

  function SearchHit(fields: seq<string>, query: string,
                     normalize: string -> string, show: Value -> string): Record -> bool {
    item => MatchesSearch(item, fields, query, normalize, show)
  }

  /**
   * `filterBySearch(items, searchText, searchFields)`, with the accent-stripping
   * normalisation as the parameter `normalize`: an empty search keeps every item;
   * otherwise the items, in order, with a field that matches the normalised search,
   * each kept as often as it occurs.
   */
  function FilterBySearch(items: seq<Record>, searchText: string, fields: seq<string>,
                          normalize: string -> string, show: Value -> string): (r: seq<Record>)
    ensures searchText == [] ==> r == items
    ensures Subsequence(r, items)
    ensures searchText != [] ==>
      forall x :: x in r ==> MatchesSearch(x, fields, normalize(searchText), normalize, show)
    ensures searchText != [] ==>
      forall x :: x in items ==>
        multiset(r)[x] == if MatchesSearch(x, fields, normalize(searchText), normalize, show)
                          then multiset(items)[x] else 0
  {
    if searchText == [] then
      SubsequenceSelf(items);
      items
    else
      var hit := SearchHit(fields, normalize(searchText), normalize, show);
      FilterIsSubsequence(items, hit);
      FilterMembers(items, hit);
      forall x | x in items
        ensures multiset(Filter(items, hit))[x] == if hit(x) then multiset(items)[x] else 0
      {
        FilterCount(items, hit, x);
      }
      Filter(items, hit)
  }

  // ---------------------------------------------------------------------------
  // multiSort

  datatype Direction = Asc | Desc

  datatype Criterion = Criterion(field: string, direction: Direction)

  /**
   * What JavaScript's `<` takes from the engine: `show` is the text an array or an
   * object turns into (its `toString()`), and `toNumber` reads a string as a number,
   * `None` standing for NaN.
   */
  datatype Coercions = Coercions(show: Value -> string, toNumber: string -> Option<real>)

  /** ToPrimitive: an array or an object becomes its text; other values stay. */
  function ToPrimitive(v: Value, js: Coercions): Value {
    if v.Arr? || v.Obj? then Str(js.show(v)) else v
  }

  /** ToNumber of a primitive: `undefined` is NaN (`None`), `null` is 0, `true` is 1. */
  function ToNumeric(v: Value, js: Coercions): Option<real> {
    match v
    case Null => Some(0.0)
    case Bool(b) => Some(if b then 1.0 else 0.0)
    case Num(n) => Some(n)
    case Str(s) => js.toNumber(s)
    case _ => None
  }

  /**
   * `a < b` and `a > b` on any two values, as -1, 1, or 0 when neither holds: two texts
   * compare by code units, anything else as numbers, and NaN is neither below nor above.
   */
  function LooseCompare(a: Value, b: Value, js: Coercions): int {
    var pa, pb := ToPrimitive(a, js), ToPrimitive(b, js);
    if pa.Str? && pb.Str? then LexCompare(pa.s, pb.s)
    else
      match (ToNumeric(pa, js), ToNumeric(pb, js))
      case (Some(x), Some(y)) => if x < y then -1 else if x > y then 1 else 0
      case _ => 0
  }

  /**
   * One criterion's comparison of `a[field]` with `b[field]`: when the first is a
   * string both are lower-cased, and `toLowerCase` on anything but a string throws a
   * `TypeError`; otherwise the values compare as they are.
   */
  function CompareValues(a: Value, b: Value, js: Coercions): Result<int, JsError> {
    if a.Str? then
      if b.Str? then Success(LexCompare(Lower(a.s), Lower(b.s))) else Failure(TypeError)
    else Success(LooseCompare(a, b, js))
  }

  /** A comparison's sign turned by the criterion's direction. */
  function Directed(d: Direction, k: int): int {
    if k < 0 then (if d == Asc then -1 else 1)
    else if k > 0 then (if d == Asc then 1 else -1)
    else 0
  }

  /** One criterion of the `multiSort` comparator, its direction applied. */
  function CompareField(c: Criterion, a: Record, b: Record, js: Coercions): Result<int, JsError> {
    match CompareValues(Get(a, c.field), Get(b, c.field), js)
    case Failure(e) => Failure(e)
    case Success(k) => Success(Directed(c.direction, k))
  }

  /**
   * The `multiSort` comparator: the criteria run in turn until one tells the records
   * apart or throws.
   */
  function CompareBy(criteria: seq<Criterion>, a: Record, b: Record, js: Coercions): Result<int, JsError> {
    if criteria == [] then Success(0)
    else
      match CompareField(criteria[0], a, b, js)
      case Failure(e) => Failure(e)
      case Success(k) => if k != 0 then Success(k) else CompareBy(criteria[1..], a, b, js)
  }

  /** The order the comparator gives where it does not throw (and level where it does). */
  function Comparator(criteria: seq<Criterion>, js: Coercions): (Record, Record) -> int {
    (a, b) => match CompareBy(criteria, a, b, js) case Success(k) => k case Failure(_) => 0
  }

  /** The comparator function `multiSort` hands to `sort`. */
  function SortComparator(criteria: seq<Criterion>, js: Coercions): (Record, Record) -> Result<int, JsError> {
    (a, b) => CompareBy(criteria, a, b, js)
  }

  /** `multiSort(items, sortCriteria)`: a sorted copy, or the exception a comparison throws. */
  function MultiSort(items: seq<Record>, criteria: seq<Criterion>, js: Coercions): Result<seq<Record>, JsError> {
    SortByOrThrow(items, SortComparator(criteria, js))
  }

  /**
   * The kinds of value JavaScript's `<` orders consistently among themselves: strings;
   * `null`, booleans and numbers, which all compare as numbers; `undefined`, level with
   * itself; and arrays and objects, which compare as their texts.
   */
  predicate SameKind(a: Value, b: Value) {
    (a.Str? && b.Str?) ||
    ((a.Null? || a.Bool? || a.Num?) && (b.Null? || b.Bool? || b.Num?)) ||
    (a.Undefined? && b.Undefined?) ||
    ((a.Arr? || a.Obj?) && (b.Arr? || b.Obj?))
  }

  /** Every criterion's field holds values of one orderable kind across the items. */
  ghost predicate Uniform(items: seq<Record>, criteria: seq<Criterion>) {
    forall c, a, b | c in criteria && a in items && b in items ::
      SameKind(Get(a, c.field), Get(b, c.field))
  }

  /**
   * On values of one kind the comparison never throws, flips its sign when the values
   * are swapped, and "not after" is transitive.
   */
  lemma CompareValuesConsistent(x: Value, y: Value, z: Value, js: Coercions)
    requires SameKind(x, y) && SameKind(y, z)
    ensures CompareValues(x, y, js).Success? && CompareValues(y, x, js).Success?
    ensures CompareValues(x, z, js).Success?
    ensures CompareValues(y, x, js).value == -CompareValues(x, y, js).value
    ensures CompareValues(x, y, js).value <= 0 && CompareValues(y, z, js).value <= 0 ==>
            CompareValues(x, z, js).value <= 0
  {
    if x.Str? {
      LexCompareAntisymmetric(Lower(x.s), Lower(y.s));
      if CompareValues(x, y, js).value <= 0 && CompareValues(y, z, js).value <= 0 {
        LexCompareTransitive(Lower(x.s), Lower(y.s), Lower(z.s));
      }
    } else if x.Arr? || x.Obj? {
      LexCompareAntisymmetric(js.show(x), js.show(y));
      if CompareValues(x, y, js).value <= 0 && CompareValues(y, z, js).value <= 0 {
        LexCompareTransitive(js.show(x), js.show(y), js.show(z));
      }
    }
  }

  lemma CompareFieldConsistent(c: Criterion, a: Record, b: Record, d: Record, js: Coercions)
    requires SameKind(Get(a, c.field), Get(b, c.field)) && SameKind(Get(b, c.field), Get(d, c.field))
    ensures CompareField(c, a, b, js).Success? && CompareField(c, b, a, js).Success?
    ensures CompareField(c, a, d, js).Success?
    ensures CompareField(c, b, a, js).value == -CompareField(c, a, b, js).value
    ensures CompareField(c, a, b, js).value <= 0 && CompareField(c, b, d, js).value <= 0 ==>
            CompareField(c, a, d, js).value <= 0
  {
    var x, y, z := Get(a, c.field), Get(b, c.field), Get(d, c.field);
    CompareValuesConsistent(x, y, z, js);
    CompareValuesConsistent(z, y, x, js);
    CompareValuesConsistent(x, z, y, js);
  }

  lemma {:induction false} CompareByConsistent(criteria: seq<Criterion>, items: seq<Record>,
                                               a: Record, b: Record, d: Record, js: Coercions)
    requires Uniform(items, criteria)
    requires a in items && b in items && d in items
    ensures CompareBy(criteria, a, b, js).Success? && CompareBy(criteria, b, a, js).Success?
    ensures CompareBy(criteria, a, d, js).Success? && CompareBy(criteria, b, d, js).Success?
    ensures CompareBy(criteria, b, a, js).value == -CompareBy(criteria, a, b, js).value
    ensures CompareBy(criteria, a, b, js).value <= 0 && CompareBy(criteria, b, d, js).value <= 0 ==>
            CompareBy(criteria, a, d, js).value <= 0
  {
    if criteria != [] {
      var c := criteria[0];
      assert Uniform(items, criteria[1..]);
      CompareByConsistent(criteria[1..], items, a, b, d, js);
      CompareByConsistent(criteria[1..], items, b, d, a, js);
      CompareFieldConsistent(c, a, b, d, js);
      CompareFieldConsistent(c, b, d, a, js);
      CompareFieldConsistent(c, d, a, b, js);
      CompareFieldConsistent(c, a, d, b, js);
    }
  }

  /** On items of uniform kinds the comparator never throws, and it is consistent. */
  lemma ComparatorConsistent(items: seq<Record>, criteria: seq<Criterion>, js: Coercions)
    requires Uniform(items, criteria)
    ensures forall a, b :: a in items && b in items ==>
      CompareBy(criteria, a, b, js) == Success(Comparator(criteria, js)(a, b))
    ensures ConsistentOn(items, Comparator(criteria, js))
  {
    var cmp := Comparator(criteria, js);
    forall a, b | a in items && b in items
      ensures CompareBy(criteria, a, b, js) == Success(cmp(a, b))
      ensures cmp(a, b) < 0 <==> cmp(b, a) > 0
    {
      CompareByConsistent(criteria, items, a, b, b, js);
    }
    forall a, b, d | a in items && b in items && d in items
      ensures cmp(a, b) <= 0 && cmp(b, d) <= 0 ==> cmp(a, d) <= 0
    {
      CompareByConsistent(criteria, items, a, b, d, js);
    }
  }

  /**
   * When each criterion's field holds one kind of value, `multiSort` throws nothing and
   * returns a permutation of the items in which every record comes no later, by the
   * criteria taken in turn with their directions, than every record after it; records
   * the criteria cannot tell apart keep their input order.
   */
  lemma MultiSortSpec(items: seq<Record>, criteria: seq<Criterion>, js: Coercions)
    requires Uniform(items, criteria)
    ensures MultiSort(items, criteria, js).Success?
    ensures var r, cmp := MultiSort(items, criteria, js).value, Comparator(criteria, js);
      && multiset(r) == multiset(items)
      && |r| == |items|
      && (forall i, j :: 0 <= i < j < |r| ==> cmp(r[i], r[j]) <= 0)
      && (forall e :: e in items ==> Filter(r, Level(cmp, e)) == Filter(items, Level(cmp, e)))
  {
    var cmp := Comparator(criteria, js);
    ComparatorConsistent(items, criteria, js);
    SortByOrThrowAgrees(items, SortComparator(criteria, js), cmp);
    SortBySpec(items, cmp);
    var r := SortBy(items, cmp);
    assert |r| == |items| by { assert |multiset(r)| == |multiset(items)|; }
  }

  /** `null` compares as 0, so it sorts before 3 in ascending order. */
  lemma NullSortsAsZero(js: Coercions)
    ensures MultiSort([[("v", Num(3.0))], [("v", Null)]], [Criterion("v", Asc)], js)
         == Success([[("v", Null)], [("v", Num(3.0))]])
  {
    var x0, x1: Record := [("v", Num(3.0))], [("v", Null)];
    var criteria := [Criterion("v", Asc)];
    var cmp := SortComparator(criteria, js);
    assert Get(x0, "v") == Num(3.0) && Get(x1, "v") == Null;
    assert CompareBy(criteria, x0, x1, js) == Success(1);
    assert SortByOrThrow([x1], cmp) == Success([x1]) by { assert [x1][1..] == []; }
    assert [x0, x1][1..] == [x1];
    assert InsertOrThrow(x0, [x1], cmp) == Success([x1] + [x0]) by { assert [x1][1..] == []; }
    assert [x1] + [x0] == [x1, x0];
    assert SortByOrThrow([x0, x1], cmp) == InsertOrThrow(x0, [x1], cmp);
  }

  /** A string field that meets `null` throws when the string is lower-cased with its partner. */
  lemma StringAgainstNullThrows(js: Coercions)
    ensures MultiSort([[("v", Str("a"))], [("v", Null)]], [Criterion("v", Asc)], js) == Failure(TypeError)
  {
    var x0, x1: Record := [("v", Str("a"))], [("v", Null)];
    assert Get(x0, "v") == Str("a") && Get(x1, "v") == Null;
  }

  /** Arrays compare as their texts: `[10]` comes before `[9]`, since "10" < "9". */
  lemma ArraysCompareAsText(js: Coercions)
    requires js.show(Arr([Num(9.0)])) == "9" && js.show(Arr([Num(10.0)])) == "10"
    ensures MultiSort([[("v", Arr([Num(9.0)]))], [("v", Arr([Num(10.0)]))]], [Criterion("v", Asc)], js)
         == Success([[("v", Arr([Num(10.0)]))], [("v", Arr([Num(9.0)]))]])
  {
    var x0, x1: Record := [("v", Arr([Num(9.0)]))], [("v", Arr([Num(10.0)]))];
    var criteria := [Criterion("v", Asc)];
    var cmp := SortComparator(criteria, js);
    assert Get(x0, "v") == Arr([Num(9.0)]) && Get(x1, "v") == Arr([Num(10.0)]);
    assert LexCompare("9", "10") == 1;
    assert CompareBy(criteria, x0, x1, js) == Success(1);
    assert SortByOrThrow([x1], cmp) == Success([x1]) by { assert [x1][1..] == []; }
    assert [x0, x1][1..] == [x1];
    assert InsertOrThrow(x0, [x1], cmp) == Success([x1] + [x0]) by { assert [x1][1..] == []; }
    assert [x1] + [x0] == [x1, x0];
    assert SortByOrThrow([x0, x1], cmp) == InsertOrThrow(x0, [x1], cmp);
  }

  // ---------------------------------------------------------------------------
  // groupBy

  /** The property key of `item[field]`: `toKey` is JavaScript's conversion of a value to a key. */
  function KeyOf(item: Record, field: string, toKey: Value -> string): string {
    toKey(Get(item, field))
  }

  function HasKey(field: string, toKey: Value -> string, k: string): Record -> bool {
    item => KeyOf(item, field, toKey) == k
  }

  /** Adds `item` at the end of the group of `k`, starting the group when there is none. */
  function AddToGroup(groups: Entries<string, seq<Record>>, k: string, item: Record): Entries<string, seq<Record>> {
    Put(groups, k, Lookup(groups, k).GetOr([]) + [item])
  }

  /** The groups `groupBy` builds from `items`, one item at a time. */
  function Groups(items: seq<Record>, field: string, toKey: Value -> string): Entries<string, seq<Record>> {
    if items == [] then []
    else
      var last := items[|items| - 1];
      AddToGroup(Groups(items[..|items| - 1], field, toKey), KeyOf(last, field, toKey), last)
  }

  lemma GroupsStep(items: seq<Record>, i: nat, field: string, toKey: Value -> string)
    requires i < |items|
    ensures Groups(items[..i + 1], field, toKey)
         == AddToGroup(Groups(items[..i], field, toKey), KeyOf(items[i], field, toKey), items[i])
  {
    assert items[..i + 1][..i] == items[..i];
  }

  /** Starting a missing group with `[]` and then pushing onto it is `AddToGroup`. */
  lemma PushStep(d: Entries<string, seq<Record>>, k: string, item: Record)
    ensures var d1 := if Lookup(d, k).None? then Put(d, k, []) else d;
            Lookup(d1, k).Some? && Put(d1, k, Lookup(d1, k).value + [item]) == AddToGroup(d, k, item)
  {
    if Lookup(d, k).None? {
      PutPut(d, k, [], [item]);
      assert [] + [item] == [item];
    }
  }

  /** `groupBy(items, field)`: the `reduce` that pushes every item onto the group of its key. */
  method GroupBy(items: seq<Record>, field: string, toKey: Value -> string)
    returns (groups: Entries<string, seq<Record>>)
    ensures groups == Groups(items, field, toKey)
  {
    groups := [];
    var i := 0;
    while i < |items|
      invariant 0 <= i <= |items|
      invariant groups == Groups(items[..i], field, toKey)
    {
      var item := items[i];
      var key := toKey(Get(item, field));
      ghost var before := groups;
      PushStep(groups, key, item);
      if Lookup(groups, key).None? {
        groups := Put(groups, key, []);
      }
      groups := Put(groups, key, Lookup(groups, key).value + [item]);
      GroupsStep(items, i, field, toKey);
      i := i + 1;
    }
    assert items[..i] == items;
  }

  /** Each group holds exactly the items with its key, in their input order. */
  lemma {:induction false} GroupsContents(items: seq<Record>, field: string, toKey: Value -> string, k: string)
    ensures Lookup(Groups(items, field, toKey), k).GetOr([]) == Filter(items, HasKey(field, toKey, k))
  {
    if items != [] {
      var init, last := items[..|items| - 1], items[|items| - 1];
      var g := Groups(init, field, toKey);
      var kl := KeyOf(last, field, toKey);
      var p := HasKey(field, toKey, k);
      FilterSnoc(items, p);
      GroupsContents(init, field, toKey, k);
      assert Groups(items, field, toKey) == Put(g, kl, Lookup(g, kl).GetOr([]) + [last]);
      if k != kl {
        PutOther(g, kl, Lookup(g, kl).GetOr([]) + [last], k);
      }
    }
  }

  function SumSizes<K, V>(d: Entries<K, seq<V>>): nat {
    if d == [] then 0 else |d[0].1| + SumSizes(d[1..])
  }

  lemma {:induction false} SumSizesPut<K, V>(d: Entries<K, seq<V>>, k: K, v: seq<V>)
    ensures SumSizes(Put(d, k, v)) == SumSizes(d) - |Lookup(d, k).GetOr([])| + |v|
  {
    if d != [] && d[0].0 != k {
      SumSizesPut(d[1..], k, v);
    }
  }

  /** The group sizes add up to the number of items. */
  lemma {:induction false} GroupsSizes(items: seq<Record>, field: string, toKey: Value -> string)
    ensures SumSizes(Groups(items, field, toKey)) == |items|
  {
    if items != [] {
      var init, last := items[..|items| - 1], items[|items| - 1];
      var g := Groups(init, field, toKey);
      var kl := KeyOf(last, field, toKey);
      GroupsSizes(init, field, toKey);
      GroupsContents(init, field, toKey, kl);
      assert |Filter(init, HasKey(field, toKey, kl))| <= |init|;
      SumSizesPut(g, kl, Lookup(g, kl).GetOr([]) + [last]);
    }
  }

  // ---------------------------------------------------------------------------
  // countOccurrences

  /** The keys one item contributes: each element of an array value, or the value itself. */
  function ItemTokens(item: Record, field: string, toKey: Value -> string): (ks: seq<string>)
    ensures |ks| == if Get(item, field).Arr? then |Get(item, field).items| else 1
  {
    var v := Get(item, field);
    if v.Arr? then Keyed(v.items, toKey) else [toKey(v)]
  }

  function Tokens(items: seq<Record>, field: string, toKey: Value -> string): seq<string> {
    if items == [] then []
    else Tokens(items[..|items| - 1], field, toKey) + ItemTokens(items[|items| - 1], field, toKey)
  }

  /** The number of values counted: one per scalar item, the length of each array. */
  function Weight(items: seq<Record>, field: string): nat {
    if items == [] then 0
    else
      var v := Get(items[0], field);
      (if v.Arr? then |v.items| else 1) + Weight(items[1..], field)
  }

  lemma TokensStep(items: seq<Record>, i: nat, field: string, toKey: Value -> string)
    requires i < |items|
    ensures Tokens(items[..i + 1], field, toKey) == Tokens(items[..i], field, toKey) + ItemTokens(items[i], field, toKey)
  {
    assert items[..i + 1][..i] == items[..i];
  }

  function Keyed(values: seq<Value>, toKey: Value -> string): (ks: seq<string>)
    ensures |ks| == |values|
    ensures forall j :: 0 <= j < |values| ==> ks[j] == toKey(values[j])
  {
    seq(|values|, j requires 0 <= j < |values| => toKey(values[j]))
  }

  /** The inner `value.forEach(v => counts[v] = (counts[v] || 0) + 1)` over an array value. */
  method CountEach(counts: Entries<string, nat>, values: seq<Value>, toKey: Value -> string,
                   ghost seen: seq<string>)
    returns (r: Entries<string, nat>)
    requires counts == Tally(seen)
    ensures r == Tally(seen + Keyed(values, toKey))
  {
    ghost var ks := Keyed(values, toKey);
    r := counts;
    assert seen + ks[..0] == seen;
    for j := 0 to |values|
      invariant r == Tally(seen + ks[..j])
    {
      TallyStep(seen, ks, j);
      r := Bump(r, toKey(values[j]));
    }
    assert ks[..|values|] == ks;
  }

  /** `countOccurrences(items, field)`: the `reduce`/`forEach` that bumps a count per value. */
  method CountOccurrences(items: seq<Record>, field: string, toKey: Value -> string)
    returns (counts: Entries<string, nat>)
    ensures counts == Tally(Tokens(items, field, toKey))
  {
    counts := [];
    for i := 0 to |items|
      invariant counts == Tally(Tokens(items[..i], field, toKey))
    {
      var value := Get(items[i], field);
      ghost var before := Tokens(items[..i], field, toKey);
      if value.Arr? {
        counts := CountEach(counts, value.items, toKey, before);
      } else {
        TallySnoc(before, toKey(value));
        counts := Bump(counts, toKey(value));
      }
      TokensStep(items, i, field, toKey);
    }
    assert items[..|items|] == items;
  }

  lemma {:induction false} TokensWeight(items: seq<Record>, field: string, toKey: Value -> string)
    ensures |Tokens(items, field, toKey)| == Weight(items, field)
  {
    if items != [] {
      var init := items[..|items| - 1];
      TokensWeight(init, field, toKey);
      WeightSnoc(init, items[|items| - 1], field);
      assert init + [items[|items| - 1]] == items;
    }
  }

  lemma {:induction false} WeightSnoc(items: seq<Record>, item: Record, field: string)
    ensures Weight(items + [item], field)
         == Weight(items, field) + (if Get(item, field).Arr? then |Get(item, field).items| else 1)
  {
    if items == [] {
      assert items + [item] == [item];
    } else {
      WeightSnoc(items[1..], item, field);
      assert (items + [item])[1..] == items[1..] + [item];
    }
  }

  /**
   * Each key's count is the number of times it was met, the keys are distinct, and the
   * counts add up to the number of scalar items plus the lengths of the array values.
   */
  lemma CountOccurrencesSpec(items: seq<Record>, field: string, toKey: Value -> string, k: string)
    ensures Count(Tally(Tokens(items, field, toKey)), k) == multiset(Tokens(items, field, toKey))[k]
    ensures DistinctKeys(Tally(Tokens(items, field, toKey)))
    ensures SumValues(Tally(Tokens(items, field, toKey))) == Weight(items, field)
  {
    var ts := Tokens(items, field, toKey);
    TallyCount(ts, k);
    TallyKeys(ts);
    TallySum(ts);
    TokensWeight(items, field, toKey);
  }

  // ---------------------------------------------------------------------------
  // sanitizeData

  /** The cleaned form of a value that is neither `null` nor `undefined`. */
  function Cleaned(v: Value): Value {
    match v
    case Str(s) => Str(Trim(s))
    case Arr(xs) => Arr(Filter(xs, x => !Nullish(x)))
    case _ => v
  }

  /** `sanitizeData` keeps the values that are neither `null` nor `undefined`. */
  function NotNullish(): Value -> bool {
    v => !Nullish(v)
  }

  /**
   * `sanitizeData(data)`: the loop over `Object.entries(data)` that fills `cleaned`.
   * On an object (distinct keys) the result keeps, in order, exactly the entries whose value is neither `null` nor
   * `undefined`, with strings trimmed and `null`/`undefined` removed from arrays;
   * every other value is kept as it is.
   */
  method SanitizeData(data: Record) returns (cleaned: Record)
    ensures cleaned == Cleanup(data, NotNullish(), Cleaned)
    ensures DistinctKeys(data) ==> cleaned == MapValues(Filter(data, ValueKept(NotNullish())), Cleaned)
  {
    cleaned := [];
    for i := 0 to |data|
      invariant cleaned == Cleanup(data[..i], NotNullish(), Cleaned)
    {
      var (key, value) := data[i];
      assert data[..i + 1][..i] == data[..i];
      if !Nullish(value) {
        cleaned := Put(cleaned, key, Cleaned(value));
      }
    }
    assert data[..|data|] == data;
    if DistinctKeys(data) {
      CleanupSpec(data, NotNullish(), Cleaned);
    }
  }
}
