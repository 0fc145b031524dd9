/** The per-type configuration editor: a record update by spread, and the
    values it displays, which fall back to defaults when a field is falsy. */
module NodeSettings {
  import opened Json

  /** `handleChange(key, value)`: `{ ...config, [key]: value }`, a new object. */
  function HandleChange(config: Config, key: string, value: Value): (r: Config)
    ensures key in r && r[key] == value
    ensures r.Keys == config.Keys + {key}
    ensures forall k :: k in config && k != key ==> r[k] == config[k]
  {
    config[key := value]
  }

  /** The fields offered for a type, each with the value shown when the
      stored one is missing or falsy. Other types offer nothing. */
  function Fields(t: string): map<string, Value> {
    match t
    case "user_query" => map["queryType" := Str("freeform"), "placeholder" := Str("Ask a question...")]
    case "knowledge_base" => map["kbType" := Str("document"), "dataSource" := Str("")]
    case "llm_engine" => map["model" := Str("gpt-4"), "temperature" := Num(0.7), "maxTokens" := Num(2048.0)]
    case "output" => map["format" := Str("text"), "showTimestamp" := Bool(false)]
    case _ => map[]
  }

  /** No field is offered for two types, and unknown types offer none. */
  lemma FieldsBelongToOneType(a: string, b: string, k: string)
    requires k in Fields(a) && k in Fields(b)
    ensures a == b
    ensures a in {"user_query", "knowledge_base", "llm_engine", "output"}
  {
  }

  /** The value shown for field `k` of a node of type `t`: `config[k] || default`. */
  function Displayed(t: string, config: Config, k: string): (v: Value)
    requires k in Fields(t)
    ensures k in config && Truthy(config[k]) ==> v == config[k]
    ensures !(k in config && Truthy(config[k])) ==> v == Fields(t)[k]
  {
    FieldOr(config, k, Fields(t)[k])
  }

  /** The node ID line: `config.nodeId || 'Not set'`. */
  function NodeIdLine(config: Config): (v: Value)
    ensures "nodeId" in config && Truthy(config["nodeId"]) ==> v == config["nodeId"]
    ensures !("nodeId" in config && Truthy(config["nodeId"])) ==> v == Str("Not set")
  {
    FieldOr(config, "nodeId", Str("Not set"))
  }

  /** After editing a field to a truthy value, that value is what is shown;
      the other fields show what they showed before. */
  lemma ChangeIsDisplayed(t: string, config: Config, k: string, v: Value, other: string)
    requires k in Fields(t) && other in Fields(t) && other != k
    requires Truthy(v)
    ensures Displayed(t, HandleChange(config, k, v), k) == v
    ensures Displayed(t, HandleChange(config, k, v), other) == Displayed(t, config, other)
  {
  }

  /** As written, a falsy edit is not shown: setting the temperature to 0
      displays 0.7 while the stored value is 0. */
  lemma ZeroTemperatureShownAsDefault(config: Config)
    ensures HandleChange(config, "temperature", Num(0.0))["temperature"] == Num(0.0)
    ensures Displayed("llm_engine", HandleChange(config, "temperature", Num(0.0)), "temperature") == Num(0.7)
  {
  }

  /** The display with `??` instead of `||`: only a missing or `null` field falls back. */
  function DisplayedNullish(t: string, config: Config, k: string): (v: Value)
    requires k in Fields(t)
    ensures k in config && config[k] != Null ==> v == config[k]
    ensures !(k in config && config[k] != Null) ==> v == Fields(t)[k]
  {
    if k in config && config[k] != Null then config[k] else Fields(t)[k]
  }

  /** With `??`, every edit except to `null` is displayed as stored. */
  lemma NullishShowsEveryEdit(t: string, config: Config, k: string, v: Value)
    requires k in Fields(t) && v != Null
    ensures DisplayedNullish(t, HandleChange(config, k, v), k) == v
  {
  }
}
