/** Values shared by the message builder and the API client: optional
    fields, the loosely typed values PHP keeps in arrays and decodes from
    JSON, and PHP's truthiness of strings. */
module Values {

  /** A field or argument that PHP may leave `null`. */
  datatype Option<+T> = None | Some(value: T) {

    /** The wrapped value, or `default` when there is none. */
    function GetOr(default: T): T {
      match this
      case Some(v) => v
      case None => default
    }
  }

  /** A PHP value as it appears in a serialised payload or a decoded
      response: `null`, a scalar, a list or a string-keyed array. */
  datatype Value =
    | Null
    | Bool(b: bool)
    | Int(i: int)
    | Str(s: string)
    | List(items: seq<Value>)
    | Dict(entries: map<string, Value>)

  /** PHP's truthiness of a string: only "" and "0" convert to false. */
  predicate Truthy(s: string) {
    s != "" && s != "0"
  }

  /** Truthiness of a nullable string: `null` is false. */
  predicate TruthyOpt(o: Option<string>) {
    o.Some? && Truthy(o.value)
  }
}
