/**
 * The Python values the back end handles: `None`, booleans, integers, floats, strings,
 * lists and dictionaries (insertion-ordered, as Python keeps them).
 */
module PyValues {
  import opened Collections

  datatype PyValue =
    | PyNone
    | PyBool(b: bool)
    | PyInt(i: int)
    | PyFloat(x: real)
    | PyStr(s: string)
    | PyList(items: seq<PyValue>)
    | PyDict(entries: Entries<string, PyValue>)

  type PyDictionary = Entries<string, PyValue>

  /** Python truthiness: `None`, `False`, zero and empty containers are false. */
  predicate Truthy(v: PyValue) {
    match v
    case PyNone => false
    case PyBool(b) => b
    case PyInt(i) => i != 0
    case PyFloat(x) => x != 0.0
    case PyStr(s) => s != []
    case PyList(items) => items != []
    case PyDict(entries) => entries != []
  }
}
