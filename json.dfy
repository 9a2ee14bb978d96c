/**
 * The values json.load produces and json.dumps consumes: the configuration
 * document is read into one, and every toDict result is one.
 * Floating-point numbers are not modelled.
 */
module JsonValues {

  datatype Json =
    | Null
    | Bool(b: bool)
    | Int(i: int)
    | Str(s: string)
    | List(items: seq<Json>)
    | Object(fields: map<string, Json>)

  /** Python's bool(x) on a value json.load can produce. */
  predicate Truthy(v: Json) {
    match v
    case Null => false
    case Bool(b) => b
    case Int(i) => i != 0
    case Str(s) => s != []
    case List(xs) => xs != []
    case Object(m) => m != map[]
  }
}
