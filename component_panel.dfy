/** The node catalog and the drag source: per-type counters that only grow,
    node IDs `<type>-<n>`, and the default configuration of each type. */
module ComponentPanel {
  import opened Json
  import opened Graph
  import opened DragAndDrop
  import opened Text

  /** The four entries of the panel. */
  datatype Component = UserQuery | KnowledgeBase | LlmEngine | Output {
    /** The catalog `type`, also the node's `data.type` and the ID prefix. */
    function TypeName(): (t: string)
      ensures '-' !in t
    {
      match this
      case UserQuery => "user_query"
      case KnowledgeBase => "knowledge_base"
      case LlmEngine => "llm_engine"
      case Output => "output"
    }

    function Label(): string {
      match this
      case UserQuery => "User Query"
      case KnowledgeBase => "Knowledge Base"
      case LlmEngine => "LLM Engine"
      case Output => "Output"
    }
  }

  lemma TypeNamesDistinct(a: Component, b: Component)
    requires a.TypeName() == b.TypeName()
    ensures a == b
  {
  }

  predicate IsCatalogType(t: string) {
    t in {"user_query", "knowledge_base", "llm_engine", "output"}
  }

  /** `getDefaultConfig(type)`: a new object on every call (a value here, so it
      cannot be shared); `{}` for a type outside the catalog. */
  function GetDefaultConfig(t: string): (c: Config)
    ensures !IsCatalogType(t) ==> c == map[]
    ensures t == "user_query" ==> c.Keys == {"placeholder"}
    ensures t == "knowledge_base" ==> c.Keys == {"embedding_model", "api_key"}
    ensures t == "llm_engine" ==>
      c.Keys == {"model", "api_key", "prompt", "temperature", "enable_web_search", "serf_api"}
    ensures t == "output" ==> c.Keys == {"format", "description"}
  {
    match t
    case "user_query" => map["placeholder" := Str("Enter your question here")]
    case "knowledge_base" => map["embedding_model" := Str("text-embedding-3-large"), "api_key" := Str("")]
    case "llm_engine" =>
      map["model" := Str("GPT 4o- Mini"), "api_key" := Str(""), "prompt" := Str("You are a helpful assistant"),
          "temperature" := Num(0.7), "enable_web_search" := Bool(false), "serf_api" := Str("")]
    case "output" => map["format" := Str("text"), "description" := Str("Output of the result nodes as text")]
    case _ => map[]
  }

  /** The defaults a freshly created node of each type starts with. */
  lemma DefaultValues()
    ensures GetDefaultConfig("user_query")["placeholder"] == Str("Enter your question here")
    ensures GetDefaultConfig("knowledge_base")["embedding_model"] == Str("text-embedding-3-large")
    ensures GetDefaultConfig("llm_engine")["model"] == Str("GPT 4o- Mini")
    ensures GetDefaultConfig("llm_engine")["temperature"] == Num(0.7)
    ensures GetDefaultConfig("llm_engine")["enable_web_search"] == Bool(false)
    ensures GetDefaultConfig("output")["format"] == Str("text")
  {
  }

  /** The ID `<type>-<n>`. */
  function NodeId(c: Component, n: nat): string {
    c.TypeName() + "-" + NatToString(n)
  }

  /** IDs are never shared: a different type or a different ordinal gives a different ID. */
  lemma NodeIdInjective(a: Component, m: nat, b: Component, n: nat)
    requires NodeId(a, m) == NodeId(b, n)
    ensures a == b && m == n
  {
    DashedNameInjective(a.TypeName(), m, b.TypeName(), n);
    TypeNamesDistinct(a, b);
  }

  /** The payload `handleDragStart` builds for ordinal `n`. */
  function TemplateNode(c: Component, n: nat): (node: Node)
    ensures node.id == NodeId(c, n)
    ensures node.data.labelText == c.Label() + " " + NatToString(n)
    ensures node.data.nodeType == c.TypeName()
    ensures node.data.config == GetDefaultConfig(c.TypeName())
    ensures node.position == Position(0, 0) && node.kind == "workflow"
  {
    Node(NodeId(c, n),
         NodeData(c.Label() + " " + NatToString(n), c.TypeName(), GetDefaultConfig(c.TypeName())),
         Position(0, 0), "workflow")
  }

  class Panel {
    /** `nodeCount`: how many nodes of each type this panel has issued. */
    var nodeCount: map<Component, nat>
    /** Every ID handed out so far. */
    ghost var issued: set<string>

    ghost predicate Valid()
      reads this
    {
      && (forall c: Component :: c in nodeCount)
      && (forall id :: id in issued ==>
            exists c: Component, n: nat :: 1 <= n <= nodeCount[c] && id == NodeId(c, n))
    }

    /** All four counters start at zero. */
    constructor ()
      ensures Valid()
      ensures forall c: Component :: c in nodeCount && nodeCount[c] == 0
      ensures issued == {}
    {
      nodeCount := map[UserQuery := 0, KnowledgeBase := 0, LlmEngine := 0, Output := 0];
      issued := {};
      new;
      forall c: Component ensures c in nodeCount {
        match c
        case UserQuery =>
        case KnowledgeBase =>
        case LlmEngine =>
        case Output =>
      }
    }

    /** `handleDragStart`: build the next node of this type, put it on the drag
        channel under `DragFormat`, and advance that type's counter alone. */
    method HandleDragStart(c: Component, codec: Codec) returns (node: Node, transfer: DataTransfer)
      requires Valid()
      modifies this
      ensures Valid()
      ensures node == TemplateNode(c, old(nodeCount[c]) + 1)
      ensures transfer == map[DragFormat := codec.stringify(node)]
      ensures nodeCount == old(nodeCount)[c := old(nodeCount[c]) + 1]
      ensures node.id !in old(issued) && issued == old(issued) + {node.id}
    {
      var newCount := nodeCount[c] + 1;
      node := TemplateNode(c, newCount);
      transfer := map[DragFormat := codec.stringify(node)];
      ghost var before := nodeCount;
      if node.id in issued {
        var c', n' :| 1 <= n' <= before[c'] && node.id == NodeId(c', n');
        NodeIdInjective(c, newCount, c', n');
        assert false;
      }
      nodeCount := nodeCount[c := newCount];
      issued := issued + {node.id};
      forall id | id in issued
        ensures exists c'': Component, n'': nat :: 1 <= n'' <= nodeCount[c''] && id == NodeId(c'', n'')
      {
        if id == node.id {
          assert 1 <= newCount <= nodeCount[c] && id == NodeId(c, newCount);
        } else {
          var c', n' :| 1 <= n' <= before[c'] && id == NodeId(c', n');
          assert 1 <= n' <= nodeCount[c'];
        }
      }
    }
  }
}
