// JSON values; numbers are reals and objects are unordered.
module JsonValues {
  import opened Wrappers

  datatype Json =
    | Null
    | Bool(b: bool)
    | Num(r: real)
    | Str(s: string)
    | Arr(items: seq<Json>)
    | Obj(fields: map<string, Json>)
  {
    // mapping.get(key); None for anything that is not a mapping with that key.
    function Get(key: string): Option<Json> {
      if Obj? && key in fields then Some(fields[key]) else None
    }

    // Python truth value.
    predicate Truthy() {
      match this
      case Null => false
      case Bool(b) => b
      case Num(r) => r != 0.0
      case Str(s) => s != ""
      case Arr(items) => items != []
      case Obj(fields) => fields != map[]
    }
  }
}
