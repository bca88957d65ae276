/** The Python values that flow through the service: decoded JSON, plus the
    `Decimal` that the DynamoDB client uses for every stored number. */
module Json {

  datatype Option<+T> = None | Some(value: T)

  datatype Result<+T, +E> = Ok(value: T) | Err(error: E)

  /** `Null` is Python's None. `Int` and `Float` are kept apart because the
      store conversion treats them differently; a float is taken as the exact
      real number it denotes. */
  datatype Value =
    | Null
    | Bool(b: bool)
    | Int(n: int)
    | Float(x: real)
    | Dec(d: real)
    | Str(s: string)
    | List(items: seq<Value>)
    | Dict(entries: map<string, Value>)

  predicate IsNumber(v: Value) {
    v.Int? || v.Float? || v.Dec?
  }

  function AsReal(v: Value): real
    requires IsNumber(v)
  {
    match v
    case Int(n) => n as real
    case Float(x) => x
    case Dec(d) => d
  }

  /** Equality up to the representation of numbers, at every depth. */
  ghost predicate SameUpToNumbers(a: Value, b: Value) {
    if IsNumber(a) || IsNumber(b) then
      IsNumber(a) && IsNumber(b) && AsReal(a) == AsReal(b)
    else match a
      case List(items) =>
        && b.List?
        && |items| == |b.items|
        && forall i | 0 <= i < |items| :: SameUpToNumbers(items[i], b.items[i])
      case Dict(entries) =>
        && b.Dict?
        && entries.Keys == b.entries.Keys
        && forall k | k in entries :: SameUpToNumbers(entries[k], b.entries[k])
      case _ => a == b
  }
}
