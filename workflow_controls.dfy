/** The validator and the save serialiser behind the Save and Execute buttons. */
module WorkflowControls {
  import opened Wrappers
  import opened Json
  import opened Graph
  import WorkflowContext

  const EmptyMessage: string := "Add at least one component"
  const RolesMessage: string := "Workflow must have User Query and Output components"
  const SaveErrorMessage: string := "Error saving workflow"

  datatype Validation = Valid | Invalid(message: string)

  /** `nodes.some(n => n.data.type === t)`. */
  predicate HasType(nodes: seq<Node>, t: string) {
    exists i :: 0 <= i < |nodes| && nodes[i].data.nodeType == t
  }

  /** The checks of `validateWorkflow`; edges are not an argument, so they are never consulted. */
  function Validate(nodes: seq<Node>): (v: Validation)
    ensures nodes == [] ==> v == Invalid(EmptyMessage)
    ensures nodes != [] && !(HasType(nodes, "user_query") && HasType(nodes, "output")) ==>
      v == Invalid(RolesMessage)
    ensures v == Valid <==> HasType(nodes, "user_query") && HasType(nodes, "output")
  {
    if |nodes| == 0 then Invalid(EmptyMessage)
    else if !HasType(nodes, "user_query") || !HasType(nodes, "output") then Invalid(RolesMessage)
    else Valid
  }

  /** A graph with one query intake, one output sink and no edges at all is
      valid: no connection is required. */
  lemma ValidWithoutEdges(q: Node, o: Node)
    requires q.data.nodeType == "user_query" && o.data.nodeType == "output"
    ensures Validate([q, o]) == Valid
  {
    assert [q, o][0] == q && [q, o][1] == o;
  }

  /** Adding nodes never turns a valid graph invalid. */
  lemma ValidStaysValidOnAdd(nodes: seq<Node>, n: Node)
    requires Validate(nodes) == Valid
    ensures Validate(nodes + [n]) == Valid
  {
    var i :| 0 <= i < |nodes| && nodes[i].data.nodeType == "user_query";
    var j :| 0 <= j < |nodes| && nodes[j].data.nodeType == "output";
    assert (nodes + [n])[i] == nodes[i] && (nodes + [n])[j] == nodes[j];
  }

  /** One entry of the saved configuration: `{ id, type: data.type, position, config: data.config }`. */
  datatype SavedNode = SavedNode(id: string, nodeType: string, position: Position, config: Config)

  datatype SavedConfiguration = SavedConfiguration(nodes: seq<SavedNode>, edges: seq<Edge>)

  function SaveNode(n: Node): (s: SavedNode)
    ensures s.id == n.id && s.nodeType == n.data.nodeType
    ensures s.position == n.position && s.config == n.data.config
  {
    SavedNode(n.id, n.data.nodeType, n.position, n.data.config)
  }

  /** The `configuration` that `handleSave` sends: one entry per node, in
      order, and the edges as they are. */
  function SaveConfiguration(nodes: seq<Node>, edges: seq<Edge>): (c: SavedConfiguration)
    ensures |c.nodes| == |nodes| && c.edges == edges
    ensures forall i :: 0 <= i < |nodes| ==> c.nodes[i] == SaveNode(nodes[i])
  {
    SavedConfiguration(seq(|nodes|, i requires 0 <= i < |nodes| => SaveNode(nodes[i])), edges)
  }

  /** The saved entries determine the node's ID, type, position and config: the
      projection forgets only the label and the renderer kind. */
  lemma SaveNodeForgetsOnlyLabelAndKind(a: Node, b: Node)
    requires SaveNode(a) == SaveNode(b)
    requires a.data.labelText == b.data.labelText && a.kind == b.kind
    ensures a == b
  {
  }

  /** The remote update carries the workflow ID and the configuration. */
  datatype UpdateRequest = UpdateRequest(workflowId: string, configuration: SavedConfiguration)

  /** A JavaScript-truthy workflow ID: present and not empty. */
  predicate TruthyId(workflowId: Option<string>) {
    workflowId.Some? && workflowId.value != ""
  }

  class Controls {
    const store: WorkflowContext.WorkflowStore
    var isLoading: bool
    var error: Option<string>

    constructor (s: WorkflowContext.WorkflowStore)
      ensures store == s && !isLoading && error == None
    {
      store := s;
      isLoading := false;
      error := None;
    }

    /** `validateWorkflow`: the verdict of `Validate` on the store's nodes,
        with its message shown, or the message cleared. The graph is only read. */
    method ValidateWorkflow() returns (ok: bool)
      modifies this`error
      ensures ok <==> Validate(store.nodes) == Valid
      ensures error == if ok then None else Some(Validate(store.nodes).message)
    {
      var v := Validate(store.nodes);
      if v.Invalid? {
        error := Some(v.message);
        ok := false;
      } else {
        error := None;
        ok := true;
      }
    }

    /** `handleSave`: stop unless valid; otherwise build the configuration and
        send it when the workflow ID is truthy. `updateFails` is the outcome of
        that remote call. The loading flag is down again afterwards. */
    method HandleSave(workflowId: Option<string>, updateFails: bool)
      returns (request: Option<UpdateRequest>, onSaveCalled: bool)
      modifies this
      ensures var valid := Validate(store.nodes) == Valid;
        && (request.Some? <==> valid && TruthyId(workflowId))
        && (request.Some? ==>
              request.value == UpdateRequest(workflowId.value, SaveConfiguration(store.nodes, store.edges)))
        && (onSaveCalled <==> valid && !(TruthyId(workflowId) && updateFails))
        && (valid ==> !isLoading)
        && (!valid ==> isLoading == old(isLoading) && error == Some(Validate(store.nodes).message))
        && (valid && TruthyId(workflowId) && updateFails ==> error == Some(SaveErrorMessage))
        && (valid && !(TruthyId(workflowId) && updateFails) ==> error == None)
    {
      request := None;
      onSaveCalled := false;
      var ok := ValidateWorkflow();
      if !ok {
        return;
      }
      isLoading := true;
      var config := SaveConfiguration(store.nodes, store.edges);
      var failed := false;
      if workflowId.Some? && workflowId.value != "" {
        request := Some(UpdateRequest(workflowId.value, config));
        failed := updateFails;
      }
      if failed {
        error := Some(SaveErrorMessage);
      } else {
        onSaveCalled := true;
      }
      isLoading := false;
    }

    /** `handleExecute`: `onExecute` runs exactly when validation passes. */
    method HandleExecute() returns (executed: bool)
      modifies this`error
      ensures executed <==> Validate(store.nodes) == Valid
      ensures error == if executed then None else Some(Validate(store.nodes).message)
    {
      executed := ValidateWorkflow();
    }
  }
}
