/**
 * Python values as the configuration code sees them, Python truthiness,
 * and the exceptions the core can raise.
 */
module PyValues {

  /** A Python value as it can appear in a `RunnableConfig` or a dataclass field. */
  datatype PyValue =
    | PyNone
    | PyBool(b: bool)
    | PyInt(i: int)
    | PyStr(s: string)
    | PyList(items: seq<PyValue>)
    | PyDict(entries: map<string, PyValue>)

  /** Python's `bool(v)`: None, False, 0 and empty containers are falsy. */
  predicate Truthy(v: PyValue) {
    match v
    case PyNone => false
    case PyBool(b) => b
    case PyInt(i) => i != 0
    case PyStr(s) => s != ""
    case PyList(items) => items != []
    case PyDict(entries) => entries != map[]
  }

  /** Whether `hash(v)` succeeds: lists and dicts are unhashable. */
  predicate Hashable(v: PyValue) {
    !v.PyList? && !v.PyDict?
  }

  /** The exceptions raised by the modelled code. */
  datatype Error =
    | TypeError       // a bad call such as `MemoryConfig(**v)`, or hashing a list or dict
    | AttributeError  // `.get` on a `configurable` that is not a mapping
    | StopIteration   // `next` on an iterator with no matching element
    | ValueError      // an explicit `raise ValueError(...)`

  datatype Option<+T> = None | Some(value: T)

  datatype Result<+R> = Ok(value: R) | Err(error: Error) {
    predicate IsFailure() { Err? }
    function PropagateFailure<U>(): Result<U> requires Err? { Err(error) }
    function Extract(): R requires Ok? { value }
  }
}
