/** JSON documents as json.loads returns them (numbers are integers here). */
module Json {
  import opened Strings

  datatype Json =
    | Null
    | Bool(b: bool)
    | Num(n: int)
    | Str(s: string)
    | Arr(items: seq<Json>)
    | Obj(fields: map<string, Json>)

  /** Python accepts the value as a dict key: lists and dicts are unhashable. */
  predicate Hashable(j: Json) {
    !j.Arr? && !j.Obj?
  }

  /** str(j) for a hashable value, which is what "{}".format(j) inserts. */
  function PyStr(j: Json): string
    requires Hashable(j)
  {
    match j
    case Null => "None"
    case Bool(b) => if b then "True" else "False"
    case Num(n) => DecimalString(n)
    case Str(s) => s
  }
}
