/** Python values as the ORM layer handles them: attribute values of a model
    instance, query arguments and the columns of result rows. */
module Values {

  datatype Option<+T> = None | Some(value: T)

  datatype Result<+T, +E> = Ok(value: T) | Err(error: E)

  /** A Python value. Floats are carried as opaque data (no arithmetic is
      done on them); a zero-argument callable, such as a default factory,
      is represented by the value it returns. */
  datatype Value =
    | NoneV
    | BoolV(b: bool)
    | IntV(i: int)
    | FloatV(f: real)
    | StrV(s: string)
    | TupleV(items: seq<Value>)
    | ListV(items: seq<Value>)
    | FactoryV(produces: Value)

  /** Python truthiness: None, False, zero and empty containers are falsy. */
  predicate Truthy(v: Value) {
    match v
    case NoneV => false
    case BoolV(b) => b
    case IntV(i) => i != 0
    case FloatV(f) => f != 0.0
    case StrV(s) => s != ""
    case TupleV(xs) => xs != []
    case ListV(xs) => xs != []
    case FactoryV(_) => true
  }

  /** An optional string argument such as `where` or `orderBy` counts only
      when it is given and non-empty. */
  predicate Given(s: Option<string>) {
    s.Some? && s.value != ""
  }

  /** A result row of the dictionary cursor: column name to value. */
  type Row = map<string, Value>
}
