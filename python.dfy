/**
 * The dynamically typed values that the evaluation code reads out of dictionaries
 * (span attributes, trace rows, OTLP metric points), with Python's truthiness and
 * the conversions `int(x)`, `float(x)`, `bool(x)` and `str(x)`.
 */
module Python {
  import opened Wrappers
  import opened Text
  import OrderedDict

  datatype PyValue =
    | PyNone
    | PyBool(b: bool)
    | PyInt(i: int)
    | PyFloat(r: real)
    | PyStr(s: string)
    | PyList(items: seq<PyValue>)
    | PyDict(entries: OrderedDict.Dict<PyValue, PyValue>)

  /** `bool(v)`: `None`, `False`, zero and empty containers are falsy. */
  predicate Truthy(v: PyValue)
  {
    match v
    case PyNone => false
    case PyBool(b) => b
    case PyInt(i) => i != 0
    case PyFloat(r) => r != 0.0
    case PyStr(s) => s != []
    case PyList(items) => items != []
    case PyDict(entries) => entries != []
  }

  /** Lists and dicts cannot be dictionary keys (`TypeError: unhashable type`). */
  predicate Hashable(v: PyValue)
  {
    !v.PyList? && !v.PyDict?
  }

  /** `int(v)`; `None` stands for the `ValueError` or `TypeError` it raises. */
  function ToInt(v: PyValue): Option<int>
  {
    match v
    case PyInt(i) => Some(i)
    case PyBool(b) => Some(if b then 1 else 0)
    case PyFloat(x) => Some(Trunc(x))
    case PyStr(s) => ParseInt(s)
    case _ => None
  }

  /** `float(v)`; `None` stands for the `ValueError` or `TypeError` it raises. */
  function ToFloat(v: PyValue): Option<real>
  {
    match v
    case PyInt(i) => Some(i as real)
    case PyBool(b) => Some(if b then 1.0 else 0.0)
    case PyFloat(x) => Some(x)
    case PyStr(s) => ParseFloat(s)
    case _ => None
  }

  /** A converted integer keeps its value through `float` of its text. */
  lemma ToFloatOfIntText(i: int)
    ensures ToFloat(PyStr(IntToString(i))) == Some(i as real)
    ensures ToInt(PyStr(IntToString(i))) == Some(i)
  {
    ParseFloatOfIntToString(i);
    ParseIntOfIntToString(i);
  }

  /**
   * `str(v)`. Strings, integers, booleans and `None` are rendered as Python does;
   * the rendering of floats, lists and dicts (Python's shortest round-trip `repr`)
   * is supplied by the caller as `repr`.
   */
  function Str(v: PyValue, repr: PyValue -> string): (r: string)
    ensures v.PyStr? ==> r == v.s
    ensures v.PyInt? ==> ParseInt(r) == Some(v.i)
  {
    match v
    case PyStr(s) => s
    case PyInt(i) => ParseIntOfIntToString(i); IntToString(i)
    case PyBool(b) => if b then "True" else "False"
    case PyNone => "None"
    case _ => repr(v)
  }

  /** `d.get(k)` on a Python dict value. */
  function DictGet(entries: OrderedDict.Dict<PyValue, PyValue>, k: PyValue): Option<PyValue>
  {
    OrderedDict.Get(entries, k)
  }
}
