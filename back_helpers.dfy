/**
 * The back end's helper functions (`utils/helpers.py`): pagination with its metadata,
 * the coordinate range check, the cleaning of query parameters, the standard response
 * dictionary and the unit choice of the file-size formatter.
 */
module BackHelpers {
  import opened Wrappers
  import opened Text
  import opened Collections
  import opened PyValues
  import JsValues
  import FrontHelpers

  // ---------------------------------------------------------------------------
  // Python integer semantics

  /** Python's `a // b`: division rounded toward negative infinity. */
  function FloorDiv(a: int, b: int): (q: int)
    requires b != 0
    ensures b > 0 ==> q * b <= a < q * b + b
    ensures b < 0 ==> q * b + b < a <= q * b
  {
    if b > 0 then a / b else (-a) / (-b)
  }

  function Min(a: int, b: int): (m: int)
    ensures m <= a && m <= b && (m == a || m == b)
  {
    if a <= b then a else b
  }

  /** Where a Python slice bound lands in a sequence of length `n`. */
  function SliceBound(i: int, n: nat): (j: nat)
    ensures j <= n
    ensures i >= 0 ==> j == Min(i, n)
  {
    if i < 0 then (if i + n < 0 then 0 else i + n) else if i > n then n else i
  }

  /** Python's `s[start:end]` with a step of one. */
  function PySlice<T>(s: seq<T>, start: int, end: int): (r: seq<T>)
    ensures |r| <= |s|
    ensures 0 <= start <= end ==> r == s[Min(start, |s|)..Min(end, |s|)] && |r| <= end - start
  {
    var a, b := SliceBound(start, |s|), SliceBound(end, |s|);
    if a < b then s[a..b] else []
  }

  /** `(total + size - 1) // size` is the number of pages of `size` items that hold `total` items. */
  lemma CeilingDiv(total: nat, size: int)
    requires size > 0
    ensures var q := FloorDiv(total + size - 1, size); (q - 1) * size < total <= q * size
  {
    var q := FloorDiv(total + size - 1, size);
    assert (q - 1) * size == q * size - size;
  }

  lemma PageStart(page: int, size: int)
    requires page >= 1 && size > 0
    ensures 0 <= (page - 1) * size && (page - 1) * size + size == page * size
  {
  }

  // ---------------------------------------------------------------------------
  // paginate_results

  datatype Pagination = Pagination(currentPage: int, pageSize: int, totalItems: nat,
                                   totalPages: int, hasNext: bool, hasPrevious: bool)

  datatype Paginated<T> = Paginated(data: seq<T>, pagination: Pagination)

  /** The exception a helper raises. */
  datatype PyError = ZeroDivisionError

  /**
   * `paginate_results(results, page, page_size)`: the slice of the requested page and
   * its metadata. A page size of zero raises when the page count is computed.
   */
  function PaginateResults<T>(results: seq<T>, page: int, pageSize: int): (r: Result<Paginated<T>, PyError>)
    ensures r.Failure? <==> pageSize == 0
  {
    var total := |results|;
    var start := (page - 1) * pageSize;
    var end := start + pageSize;
    var data := PySlice(results, start, end);
    if pageSize == 0 then Failure(ZeroDivisionError)
    else
      var totalPages := FloorDiv(total + pageSize - 1, pageSize);
      Success(Paginated(data, Pagination(page, pageSize, total, totalPages, end < total, page > 1)))
  }

  lemma PageEnd(page: int, size: int)
    ensures (page - 1) * size + size == page * size
  {
  }

  /**
   * The metadata echoes the request and the total, there is a next page exactly when
   * the requested page ends before the last result, a previous one exactly after the
   * first page, and the page count is the least number of pages that hold every result.
   */
  lemma PaginationSpec<T>(results: seq<T>, page: int, pageSize: int)
    requires pageSize != 0
    ensures var p := PaginateResults(results, page, pageSize).value.pagination;
      && p.currentPage == page && p.pageSize == pageSize && p.totalItems == |results|
      && (p.hasNext <==> page * pageSize < |results|)
      && (p.hasPrevious <==> page > 1)
      && (pageSize > 0 ==> (p.totalPages - 1) * pageSize < |results| <= p.totalPages * pageSize)
  {
    PageEnd(page, pageSize);
    if pageSize > 0 {
      CeilingDiv(|results|, pageSize);
    }
  }

  /** A page from the first on is the slice of its results, clipped to the end, and holds at most a page size. */
  lemma PageData<T>(results: seq<T>, page: int, pageSize: int)
    requires page >= 1 && pageSize > 0
    ensures var lo, hi := Min((page - 1) * pageSize, |results|), Min(page * pageSize, |results|);
      && 0 <= lo <= hi
      && PaginateResults(results, page, pageSize).value.data == results[lo..hi]
      && |PaginateResults(results, page, pageSize).value.data| <= pageSize
  {
    PageEnd(page, pageSize);
    PageStart(page, pageSize);
  }

  /** The pages `1` to `k`, one after the other. */
  function PagesUpTo<T>(results: seq<T>, pageSize: int, k: nat): seq<T>
    requires pageSize > 0
  {
    if k == 0 then [] else PagesUpTo(results, pageSize, k - 1) + PaginateResults(results, k, pageSize).value.data
  }

  lemma {:induction false} PagesUpToPrefix<T>(results: seq<T>, pageSize: int, k: nat)
    requires pageSize > 0
    ensures PagesUpTo(results, pageSize, k) == results[..Min(k * pageSize, |results|)]
  {
    if k > 0 {
      var n := |results|;
      var a, b := Min((k - 1) * pageSize, n), Min(k * pageSize, n);
      assert 0 <= a <= b <= n by {
        PageStart(k, pageSize);
      }
      assert PagesUpTo(results, pageSize, k - 1) == results[..a] by {
        PagesUpToPrefix(results, pageSize, k - 1);
      }
      PageData(results, k, pageSize);
      PrefixSplit(results, a, b);
    }
  }

  /** With a positive page size, the pages from the first to the last hold every result, in order. */
  lemma PagesCoverResults<T>(results: seq<T>, pageSize: int)
    requires pageSize > 0
    ensures var last := PaginateResults(results, 1, pageSize).value.pagination.totalPages;
      last >= 0 && PagesUpTo(results, pageSize, last) == results
  {
    var last := PaginateResults(results, 1, pageSize).value.pagination.totalPages;
    PagesUpToPrefix(results, pageSize, last);
  }

  // ---------------------------------------------------------------------------
  // validate_coordinates

  /** A Python float: a real number, or one of IEEE 754's non-finite values. */
  datatype Float = Finite(x: real) | NaN | PosInf | NegInf

  /** Python's `a <= b` on floats: false whenever either side is NaN. */
  predicate FloatLe(a: Float, b: Float) {
    match (a, b)
    case (NaN, _) => false
    case (_, NaN) => false
    case (NegInf, _) => true
    case (_, PosInf) => true
    case (Finite(x), Finite(y)) => x <= y
    case (_, _) => false
  }

  /**
   * `validate_coordinates(lat, lng)`, given what `float()` makes of each argument
   * (`None` when it raises `ValueError` or `TypeError`): true exactly for two finite
   * numbers within the latitude and longitude ranges.
   */
  function ValidateCoordinates(lat: Option<Float>, lng: Option<Float>): (r: bool)
    ensures r <==> lat.Some? && lat.value.Finite? && lng.Some? && lng.value.Finite?
                   && -90.0 <= lat.value.x <= 90.0 && -180.0 <= lng.value.x <= 180.0
  {
    match (lat, lng)
    case (Some(a), Some(b)) =>
      FloatLe(Finite(-90.0), a) && FloatLe(a, Finite(90.0))
      && FloatLe(Finite(-180.0), b) && FloatLe(b, Finite(180.0))
    case (_, _) => false
  }

  /**
   * The browser's `isValidCoordinates` and the server's `validate_coordinates` accept
   * the same pairs of numbers.
   */
  lemma CoordinateChecksAgree(lat: real, lng: real)
    ensures FrontHelpers.IsValidCoordinates(JsValues.Num(lat), JsValues.Num(lng))
        <==> ValidateCoordinates(Some(Finite(lat)), Some(Finite(lng)))
  {
  }

  // ---------------------------------------------------------------------------
  // sanitize_mongo_query

  /** `v is not None and v != ''`. */
  predicate Present(v: PyValue) {
    v != PyNone && v != PyStr("")
  }

  /**
   * The values `sanitize_mongo_query` copies: present, and a string, a number (a
   * boolean is an `int` to `isinstance`) or a list.
   */
  function QueryKept(): PyValue -> bool {
    v => Present(v) && (v.PyStr? || v.PyBool? || v.PyInt? || v.PyFloat? || v.PyList?)
  }

  /** Strings are stripped, lists lose their `None` and `''` elements, numbers stay. */
  function QueryCleaned(v: PyValue): PyValue {
    match v
    case PyStr(s) => PyStr(Trim(s))
    case PyList(items) => PyList(Filter(items, Present))
    case _ => v
  }

  /**
   * `sanitize_mongo_query(query_dict)`: the loop that fills `sanitized`. On a dictionary
   * the result keeps, in order, exactly the entries with a kept value, cleaned.
   */
  method SanitizeMongoQuery(query: PyDictionary) returns (sanitized: PyDictionary)
    ensures sanitized == Cleanup(query, QueryKept(), QueryCleaned)
    ensures DistinctKeys(query) ==> sanitized == MapValues(Filter(query, ValueKept(QueryKept())), QueryCleaned)
  {
    sanitized := [];
    for i := 0 to |query|
      invariant sanitized == Cleanup(query[..i], QueryKept(), QueryCleaned)
    {
      var (key, value) := query[i];
      CleanupStep(query, i, QueryKept(), QueryCleaned);
      if value != PyNone && value != PyStr("") {
        if value.PyStr? {
          sanitized := Put(sanitized, key, PyStr(Trim(value.s)));
        } else if value.PyBool? || value.PyInt? || value.PyFloat? {
          sanitized := Put(sanitized, key, value);
        } else if value.PyList? {
          sanitized := Put(sanitized, key, PyList(Filter(value.items, Present)));
        }
      }
    }
    assert query[..|query|] == query;
    if DistinctKeys(query) {
      CleanupSpec(query, QueryKept(), QueryCleaned);
    }
  }

  /** A blank string passes the emptiness test before it is stripped, and is stored empty. */
  lemma BlankValueStoredEmpty()
    ensures Cleanup([("q", PyStr("  "))], QueryKept(), QueryCleaned) == [("q", PyStr(""))]
  {
    var blank := PyStr("  ");
    assert QueryKept()(blank);
    assert Trim("  ") == "";
    assert [("q", blank)][..0] == [];
  }

  /** The intended test: a string counts as present only when something is left after stripping. */
  function StrippedKept(): PyValue -> bool {
    v => QueryKept()(v) && (v.PyStr? ==> Trim(v.s) != [])
  }

  /** Query cleaning that tests strings after stripping them. */
  function SanitizeMongoQueryStripped(query: PyDictionary): PyDictionary {
    Cleanup(query, StrippedKept(), QueryCleaned)
  }

  /**
   * On a dictionary the corrected cleaning keeps, in order, exactly the entries whose
   * value is present and non-blank, cleaned, and so stores no empty string.
   */
  lemma StrippedStoresNoEmptyString(query: PyDictionary)
    requires DistinctKeys(query)
    ensures SanitizeMongoQueryStripped(query) == MapValues(Filter(query, ValueKept(StrippedKept())), QueryCleaned)
    ensures forall i :: 0 <= i < |SanitizeMongoQueryStripped(query)| ==> SanitizeMongoQueryStripped(query)[i].1 != PyStr("")
  {
    CleanupSpec(query, StrippedKept(), QueryCleaned);
    var nonEmpty := (v: PyValue) => v != PyStr("");
    forall v | StrippedKept()(v) ensures nonEmpty(QueryCleaned(v)) {
    }
    CleanedKeptSatisfy(query, StrippedKept(), QueryCleaned, nonEmpty);
  }

  // ---------------------------------------------------------------------------
  // create_response

  /** The keys a response dictionary can hold. */
  datatype ResponseKey = SuccessKey | DataKey | ErrorKey | MessageKey | TimestampKey {
    function Name(): string {
      match this
      case SuccessKey => "success"
      case DataKey => "data"
      case ErrorKey => "error"
      case MessageKey => "message"
      case TimestampKey => "timestamp"
    }
  }

  type Response = Entries<ResponseKey, PyValue>

  /** `if cond: response[k] = v` for a key the response does not hold yet: it goes last. */
  function EntryIf(cond: bool, k: ResponseKey, v: PyValue): (r: Response)
    ensures |r| <= 1 && (r != [] <==> cond)
    ensures forall i :: 0 <= i < |r| ==> r[i] == (k, v)
  {
    if cond then [(k, v)] else []
  }

  /**
   * `create_response(success, data, error, message)`, with the `isoformat()` clock reading
   * as the parameter `timestamp`: "success" first, then "data" when it is not `None`,
   * "error" and "message" when they are truthy, and "timestamp" last. Each of the three
   * optional keys appears only with the value given for it.
   */
  function CreateResponse(success: PyValue, data: PyValue, error: PyValue, message: PyValue,
                          timestamp: string): (r: Response)
    ensures 2 <= |r| <= 5
    ensures r[0] == (SuccessKey, success) && r[|r| - 1] == (TimestampKey, PyStr(timestamp))
    ensures (DataKey, data) in r <==> data != PyNone
    ensures (ErrorKey, error) in r <==> Truthy(error)
    ensures (MessageKey, message) in r <==> Truthy(message)
    ensures forall v :: (DataKey, v) in r ==> v == data
    ensures forall v :: (ErrorKey, v) in r ==> v == error
    ensures forall v :: (MessageKey, v) in r ==> v == message
  {
    var withData := [(SuccessKey, success)] + EntryIf(data != PyNone, DataKey, data);
    var withError := withData + EntryIf(Truthy(error), ErrorKey, error);
    var withMessage := withError + EntryIf(Truthy(message), MessageKey, message);
    withMessage + [(TimestampKey, PyStr(timestamp))]
  }

  // ---------------------------------------------------------------------------
  // format_file_size

  const SizeNames: seq<string> := ["B", "KB", "MB", "GB"]

  function Pow1024(k: nat): real {
    if k == 0 then 1.0 else 1024.0 * Pow1024(k - 1)
  }

  /** What `format_file_size` prints: "0 B", or a value with the unit at an index of `SizeNames`. */
  datatype FileSize = ZeroBytes | Scaled(value: real, unit: nat)

  /**
   * `format_file_size(bytes_size)` up to the `.1f` rendering: zero is "0 B"; otherwise
   * the size is divided by 1024 while it is at least 1024 and a larger unit remains,
   * so the unit never passes "GB", the value times 1024 to the unit's power is the
   * size, the value is below 1024 unless the unit is "GB", and at least 1 unless it is "B".
   */
  method FormatFileSize(bytes: int) returns (r: FileSize)
    ensures bytes == 0 <==> r == ZeroBytes
    ensures r.Scaled? ==>
      && r.unit < |SizeNames|
      && r.value * Pow1024(r.unit) == bytes as real
      && (r.unit < |SizeNames| - 1 ==> r.value < 1024.0)
      && (r.unit > 0 ==> r.value >= 1.0)
  {
    if bytes == 0 {
      return ZeroBytes;
    }
    var sizeIndex: nat := 0;
    var size := bytes as real;
    while size >= 1024.0 && sizeIndex < |SizeNames| - 1
      invariant sizeIndex < |SizeNames|
      invariant size * Pow1024(sizeIndex) == bytes as real
      invariant sizeIndex > 0 ==> size >= 1.0
      decreases |SizeNames| - sizeIndex
    {
      size := size / 1024.0;
      sizeIndex := sizeIndex + 1;
    }
    r := Scaled(size, sizeIndex);
  }
}
