/** JavaScript values as they reach the validators and the row projections. */
module Json {

  /** `Undefined` is what destructuring produces for a property the object lacks. */
  datatype Value =
    | Undefined
    | Null
    | Bool(b: bool)
    | Number(n: real)
    | Str(s: string)
    | Array(items: seq<Value>)
    | Object(fields: map<string, Value>)

  /** A plain object: property name to value. */
  type Record = map<string, Value>

  /** Property access `o[k]`: a missing property reads as `undefined`. */
  function Field(o: Record, k: string): (v: Value)
    ensures k !in o ==> v == Undefined
    ensures k in o ==> v == o[k]
  {
    if k in o then o[k] else Undefined
  }
}
