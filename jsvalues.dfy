/**
 * JavaScript values as the front end handles them: records read by field name,
 * truthiness, `null`/`undefined`, and the `<` ordering of strings.
 */
module JsValues {
  import opened Wrappers
  import opened Collections

  /** A JSON-like JavaScript value. Numbers are exact reals: NaN and infinities are not modelled. */
  datatype Value =
    | Undefined
    | Null
    | Bool(b: bool)
    | Num(n: real)
    | Str(s: string)
    | Arr(items: seq<Value>)
    | Obj(fields: Entries<string, Value>)

  /** The exception a property read or a method call on the wrong kind of value raises. */
  datatype JsError = TypeError

  /** A plain object, its own enumerable properties in order. */
  type Record = Entries<string, Value>

  /** `record[field]`: a missing property reads as `undefined`. */
  function Get(r: Record, field: string): Value {
    Lookup(r, field).GetOr(Undefined)
  }

  /** A property no pair of the record names reads as `undefined`. */
  lemma GetAbsent(r: Record, field: string)
    requires forall i :: 0 <= i < |r| ==> r[i].0 != field
    ensures Get(r, field) == Undefined
  {
    assert field !in Keys(r);
  }

  /** `!!v`. */
  predicate Truthy(v: Value) {
    match v
    case Undefined => false
    case Null => false
    case Bool(b) => b
    case Num(n) => n != 0.0
    case Str(s) => s != []
    case Arr(_) => true
    case Obj(_) => true
  }

  /** `v === null || v === undefined`. */
  predicate Nullish(v: Value) {
    v.Undefined? || v.Null?
  }

  /**
   * Lexicographic order of strings by code point, standing for JavaScript's `<` and `>`
   * on two strings (which compare UTF-16 code units): negative, zero or positive.
   */
  function LexCompare(a: string, b: string): (c: int)
    ensures -1 <= c <= 1
  {
    if a == [] && b == [] then 0
    else if a == [] then -1
    else if b == [] then 1
    else if a[0] < b[0] then -1
    else if a[0] > b[0] then 1
    else LexCompare(a[1..], b[1..])
  }

  /** Swapping the strings flips the sign, and only equal strings compare level. */
  lemma {:induction false} LexCompareAntisymmetric(a: string, b: string)
    ensures LexCompare(b, a) == -LexCompare(a, b)
    ensures LexCompare(a, b) == 0 <==> a == b
  {
    if a != [] && b != [] && a[0] == b[0] {
      LexCompareAntisymmetric(a[1..], b[1..]);
      assert a == [a[0]] + a[1..] && b == [b[0]] + b[1..];
    }
  }

  /** String order is transitive. */
  lemma {:induction false} LexCompareTransitive(a: string, b: string, c: string)
    requires LexCompare(a, b) <= 0 && LexCompare(b, c) <= 0
    ensures LexCompare(a, c) <= 0
  {
    if a != [] && b != [] && c != [] && a[0] == b[0] && b[0] == c[0] {
      LexCompareTransitive(a[1..], b[1..], c[1..]);
    }
  }
}
