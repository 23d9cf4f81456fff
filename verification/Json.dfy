/** JSON values as the transformations see them. */
module Json {
  import opened Common

  datatype Value =
    | Null
    | Bool(b: bool)
    | Number(x: real)
    | Str(s: string)
    | Arr(items: seq<Value>)
    | Obj(fields: map<string, Value>)

  /** What indexing by a string sees: null becomes an object, anything else throws. */
  function Fields(j: Value): Option<map<string, Value>> {
    match j
    case Obj(m) => Some(m)
    case Null => Some(map[])
    case _ => None
  }

  /** contains(): false of anything but an object. */
  predicate Has(j: Value, field: string) {
    j.Obj? && field in j.fields
  }

  function Child(m: map<string, Value>, field: string): Value {
    if field in m then m[field] else Null
  }
}
