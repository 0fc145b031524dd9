/** The JSON-like values that node configurations hold, with JavaScript's truthiness. */
module Json {

  /** A configuration value. Numbers are kept as reals; `NaN` is not modelled. */
  datatype Value =
    | Null
    | Bool(b: bool)
    | Num(r: real)
    | Str(s: string)
    | Arr(items: seq<Value>)
    | Obj(fields: map<string, Value>)

  /** An open configuration object: option name to value. */
  type Config = map<string, Value>

  /** JavaScript truthiness: `null`, `false`, `0` and `""` are falsy, everything else truthy. */
  predicate Truthy(v: Value) {
    match v
    case Null => false
    case Bool(b) => b
    case Num(r) => r != 0.0
    case Str(s) => s != ""
    case Arr(_) => true
    case Obj(_) => true
  }

  /** `config[key] || fallback`: an absent key reads as `undefined`, which is falsy. */
  function FieldOr(config: Config, key: string, fallback: Value): (r: Value)
    ensures key in config && Truthy(config[key]) ==> r == config[key]
    ensures !(key in config && Truthy(config[key])) ==> r == fallback
  {
    if key in config && Truthy(config[key]) then config[key] else fallback
  }
}
