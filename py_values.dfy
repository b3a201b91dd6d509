/** Python values as the analyser and the tool catalogues handle them (what `json.loads`
    produces and what the tools return), with the built-in conversions `bool()`, `int()`,
    `float()` and `str()` the analyser applies. Non-finite floats are not represented. */
module PyValues {
  import opened Wrappers
  import Text

  datatype PyValue =
    | PyNone
    | PyBool(b: bool)
    | PyInt(i: int)
    | PyFloat(r: real)
    | PyStr(s: string)
    | PyList(items: seq<PyValue>)
    | PyDict(entries: map<string, PyValue>)

  /** `bool(v)`: `None`, `False`, zero and empty containers are false. */
  predicate PyTruthy(v: PyValue)
  {
    match v
    case PyNone => false
    case PyBool(b) => b
    case PyInt(i) => i != 0
    case PyFloat(r) => r != 0.0
    case PyStr(s) => s != ""
    case PyList(items) => items != []
    case PyDict(entries) => entries != map[]
  }

  /** `d.get(k, default)`. */
  function Get(d: map<string, PyValue>, k: string, default: PyValue): (r: PyValue)
    ensures k in d ==> r == d[k]
    ensures k !in d ==> r == default
  {
    if k in d then d[k] else default
  }

  /** Truncation toward zero, as `int()` applies it to a float. */
  function Truncate(r: real): (i: int)
    ensures 0.0 <= r ==> i as real <= r < i as real + 1.0
    ensures r < 0.0 ==> i as real - 1.0 < r <= i as real
  {
    if r >= 0.0 then r.Floor else -((-r).Floor)
  }

  /** `int(v)`; `None` stands for the `TypeError` or `ValueError` raised. A string is
      parsed after `strip()`, as an optional sign and ASCII digits. */
  function ToInt(v: PyValue): (r: Option<int>)
    ensures v.PyInt? ==> r == Some(v.i)
    ensures v.PyBool? ==> r == Some(if v.b then 1 else 0)
    ensures v.PyFloat? ==> r == Some(Truncate(v.r))
    ensures v.PyStr? ==> r == Text.ParseSignedInt(Text.Strip(v.s))
    ensures (v.PyNone? || v.PyList? || v.PyDict?) ==> r.None?
  {
    match v
    case PyInt(i) => Some(i)
    case PyBool(b) => Some(if b then 1 else 0)
    case PyFloat(x) => Some(Truncate(x))
    case PyStr(s) => Text.ParseSignedInt(Text.Strip(s))
    case _ => None
  }

  /** `float(v)`; the parse of a string is a parameter; `None` stands for the error raised. */
  function ToFloat(v: PyValue, parseFloat: string -> Option<real>): (r: Option<real>)
    ensures v.PyFloat? ==> r == Some(v.r)
    ensures v.PyInt? ==> r == Some(v.i as real)
    ensures v.PyBool? ==> r == Some(if v.b then 1.0 else 0.0)
    ensures (v.PyNone? || v.PyList? || v.PyDict?) ==> r.None?
  {
    match v
    case PyFloat(x) => Some(x)
    case PyInt(i) => Some(i as real)
    case PyBool(b) => Some(if b then 1.0 else 0.0)
    case PyStr(s) => parseFloat(s)
    case _ => None
  }

  /** `str(v)`: a string is itself, an integer its decimal digits, a boolean `True` or
      `False`; what `repr` gives for floats, lists, dicts and `None` is a parameter. */
  function ToStr(v: PyValue, repr: PyValue -> string): (r: string)
    ensures v.PyStr? ==> r == v.s
    ensures v.PyInt? ==> Text.ParseSignedInt(r) == Some(v.i)
  {
    match v
    case PyStr(s) => s
    case PyInt(i) => (Text.ParseIntToDecimal(i); Text.IntToDecimal(i))
    case PyBool(b) => if b then "True" else "False"
    case _ => repr(v)
  }
}
