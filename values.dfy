/**
 * The dictionary-shaped values the intelligence engine produces and caches.
 * Python's nested dicts, lists, strings and numbers become one recursive
 * datatype; numbers are exact reals (ints such as 78 are written 78.0).
 */
module Values {

  datatype Option<T> = None | Some(value: T)

  datatype Value =
    | Num(n: real)
    | Text(s: string)
    | Obj(fields: map<string, Value>)
    | List(items: seq<Value>)

  /** A dict with string keys whose values are Values. */
  type Record = map<string, Value>
}
