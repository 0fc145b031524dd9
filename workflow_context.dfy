/** The graph store: the single source of truth for the graph being edited.
    Each operation replaces `nodes` and/or `edges` by an append, map or
    filter of the previous value. */
module WorkflowContext {
  import opened Wrappers
  import opened Json
  import opened Graph

  class WorkflowStore {
    var nodes: seq<Node>
    var edges: seq<Edge>
    /** The workflow record last loaded or selected; `None` stands for `null`. */
    var currentWorkflow: Option<Value>

    /** A fresh provider: empty graph, no current workflow. */
    constructor ()
      ensures nodes == [] && edges == [] && currentWorkflow == None
    {
      nodes := [];
      edges := [];
      currentWorkflow := None;
    }

    /** `addNode`: the node becomes the last one; nothing else changes. */
    method AddNode(node: Node)
      modifies this
      ensures nodes == old(nodes) + [node]
      ensures edges == old(edges) && currentWorkflow == old(currentWorkflow)
    {
      nodes := nodes + [node];
    }

    /** `updateNode`: shallow-merge the patch into every node with that ID. */
    method UpdateNode(id: string, updates: NodePatch)
      modifies this
      ensures nodes == UpdateNodes(old(nodes), id, updates)
      ensures |nodes| == |old(nodes)|
      ensures forall i :: 0 <= i < |nodes| && old(nodes)[i].id != id ==> nodes[i] == old(nodes)[i]
      ensures forall i :: 0 <= i < |nodes| && old(nodes)[i].id == id ==> nodes[i] == Merge(old(nodes)[i], updates)
      ensures !HasNode(old(nodes), id) ==> nodes == old(nodes)
      ensures edges == old(edges) && currentWorkflow == old(currentWorkflow)
    {
      ghost var before := nodes;
      nodes := UpdateNodes(nodes, id, updates);
      forall i | 0 <= i < |nodes|
        ensures nodes[i] == if before[i].id == id then Merge(before[i], updates) else before[i]
      {
        UpdateNodesAt(before, id, updates, i);
      }
      if !HasNode(before, id) {
        UpdateNodesAbsent(before, id, updates);
      }
    }

    /** `removeNode`: the node and, in the same step, every edge touching it. */
    method RemoveNode(id: string)
      modifies this
      ensures nodes == WithoutNode(old(nodes), id)
      ensures edges == DetachEdges(old(edges), id)
      ensures !HasNode(nodes, id)
      ensures forall e :: e in edges ==> e.source != id && e.target != id
      ensures forall n :: n in nodes <==> n in old(nodes) && n.id != id
      ensures forall e :: e in edges <==> e in old(edges) && e.source != id && e.target != id
      ensures NoDangling(old(nodes), old(edges)) ==> NoDangling(nodes, edges)
      ensures currentWorkflow == old(currentWorkflow)
    {
      RemoveNodeCascade(nodes, edges, id);
      if NoDangling(nodes, edges) {
        RemoveNodeKeepsNoDangling(nodes, edges, id);
      }
      nodes := WithoutNode(nodes, id);
      edges := DetachEdges(edges, id);
    }

    /** `addEdge`: the edge becomes the last one; nodes are untouched. */
    method AddEdge(edge: Edge)
      modifies this
      ensures edges == old(edges) + [edge]
      ensures nodes == old(nodes) && currentWorkflow == old(currentWorkflow)
    {
      edges := edges + [edge];
    }

    /** `removeEdge`: exactly the edges with that ID go; nodes are untouched. */
    method RemoveEdge(id: string)
      modifies this
      ensures edges == WithoutEdge(old(edges), id)
      ensures forall e :: e in edges <==> e in old(edges) && e.id != id
      ensures nodes == old(nodes) && currentWorkflow == old(currentWorkflow)
    {
      RemoveEdgeExact(edges, id);
      edges := WithoutEdge(edges, id);
    }

    /** `clearWorkflow`: empty graph and no current workflow. */
    method ClearWorkflow()
      modifies this
      ensures nodes == [] && edges == [] && currentWorkflow == None
    {
      nodes := [];
      edges := [];
      currentWorkflow := None;
    }

    /** The raw setters the provider also exposes. */
    method SetNodes(ns: seq<Node>)
      modifies this
      ensures nodes == ns && edges == old(edges) && currentWorkflow == old(currentWorkflow)
    {
      nodes := ns;
    }

    method SetEdges(es: seq<Edge>)
      modifies this
      ensures edges == es && nodes == old(nodes) && currentWorkflow == old(currentWorkflow)
    {
      edges := es;
    }

    method SetCurrentWorkflow(w: Option<Value>)
      modifies this
      ensures currentWorkflow == w && nodes == old(nodes) && edges == old(edges)
    {
      currentWorkflow := w;
    }
  }
}
