/** The node renderer: which handles a node shows, decided by `data.type`,
    and its delete button, which goes through the store's cascade. */
module WorkflowNode {
  import opened Graph
  import WorkflowContext

  /** An input (target) handle is drawn unless the node is the query intake. */
  predicate HasTargetHandle(nodeType: string) {
    nodeType != "user_query"
  }

  /** An output (source) handle is drawn unless the node is the output sink. */
  predicate HasSourceHandle(nodeType: string) {
    nodeType != "output"
  }

  /** The port rule of the four catalog types, and of any other type. */
  lemma PortRule(t: string)
    ensures HasTargetHandle(t) || HasSourceHandle(t)
    ensures t == "user_query" ==> !HasTargetHandle(t) && HasSourceHandle(t)
    ensures t == "output" ==> HasTargetHandle(t) && !HasSourceHandle(t)
    ensures t == "knowledge_base" || t == "llm_engine" ==> HasTargetHandle(t) && HasSourceHandle(t)
  {
  }

  /** The delete button: `removeNode(id)` of the store, cascade included. */
  method OnDeleteClick(store: WorkflowContext.WorkflowStore, id: string)
    modifies store
    ensures store.nodes == WithoutNode(old(store.nodes), id)
    ensures store.edges == DetachEdges(old(store.edges), id)
    ensures !HasNode(store.nodes, id)
    ensures forall e :: e in store.edges ==> e.source != id && e.target != id
    ensures store.currentWorkflow == old(store.currentWorkflow)
  {
    store.RemoveNode(id);
  }
}
