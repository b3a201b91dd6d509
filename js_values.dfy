/** JavaScript values as the Node.js side of the system handles them: request
    bodies, agent replies, the `updates` objects handed to the repositories.
    `undefined` and `null` are both `Null`. */
module JsValues {

  datatype Value =
    | Null
    | Bool(b: bool)
    | Num(n: real)
    | Str(s: string)
    | Date(t: nat)
    | Arr(items: seq<Value>)
    | Obj(fields: map<string, Value>)

  /** JavaScript truthiness: `null`, `false`, `0`, `""` are falsy, every object is truthy. */
  predicate Truthy(v: Value)
  {
    match v
    case Null => false
    case Bool(b) => b
    case Num(n) => n != 0.0
    case Str(s) => s != ""
    case _ => true
  }

  /** Property access `v.k`: a missing property, or any property of a non-object, is `undefined`. */
  function Field(v: Value, k: string): (r: Value)
    ensures r != Null ==> v.Obj? && k in v.fields && r == v.fields[k]
    ensures v.Obj? && k in v.fields ==> r == v.fields[k]
  {
    if v.Obj? && k in v.fields then v.fields[k] else Null
  }

  /** An integral number, as node-postgres can bind it to an integer column. */
  predicate IsIntegral(v: Value)
  {
    v.Num? && v.n == v.n.Floor as real
  }

  /** `{...older, ...newer}`: every key of both, and `newer` wins on a shared key. */
  function Spread(older: map<string, Value>, newer: map<string, Value>): (r: map<string, Value>)
    ensures r.Keys == older.Keys + newer.Keys
    ensures forall k :: k in newer ==> r[k] == newer[k]
    ensures forall k :: k in older && k !in newer ==> r[k] == older[k]
  {
    older + newer
  }
}
