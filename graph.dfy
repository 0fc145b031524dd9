/** The workflow graph: nodes and edges as the frontend holds them, and the
    pure transformations that the store applies to its two sequences. */
module Graph {
  import opened Wrappers
  import opened Json
  import Seqs

  datatype Position = Position(x: int, y: int)

  /** The `data` record of a node: display label, catalog type and configuration. */
  datatype NodeData = NodeData(labelText: string, nodeType: string, config: Config)

  /** A canvas node; `kind` is the renderer type (always "workflow" for created nodes). */
  datatype Node = Node(id: string, data: NodeData, position: Position, kind: string)

  /** A directed connection from `source`'s output handle to `target`'s input handle. */
  datatype Edge = Edge(
    id: string,
    source: string,
    target: string,
    sourceHandle: Option<string>,
    targetHandle: Option<string>,
    animated: bool,
    kind: string)

  /** The top-level fields an `updateNode` patch may carry; `None` means "not in the patch". */
  datatype NodePatch = NodePatch(
    id: Option<string>,
    data: Option<NodeData>,
    position: Option<Position>,
    kind: Option<string>)

  /** `{ ...node, ...updates }`: each field present in the patch replaces the node's. */
  function Merge(n: Node, p: NodePatch): (r: Node)
    ensures r.id == p.id.GetOr(n.id)
    ensures r.data == p.data.GetOr(n.data)
    ensures r.position == p.position.GetOr(n.position)
    ensures r.kind == p.kind.GetOr(n.kind)
  {
    Node(p.id.GetOr(n.id), p.data.GetOr(n.data), p.position.GetOr(n.position), p.kind.GetOr(n.kind))
  }

  /** `nodes.map(node => node.id === id ? { ...node, ...updates } : node)`. */
  function UpdateNodes(nodes: seq<Node>, id: string, p: NodePatch): (r: seq<Node>)
    ensures |r| == |nodes|
  {
    if nodes == [] then []
    else [if nodes[0].id == id then Merge(nodes[0], p) else nodes[0]] + UpdateNodes(nodes[1..], id, p)
  }

  /** The filter tests of the store: keep a node with another ID, keep an edge
      not touching `id`, keep an edge with another ID. */
  function OtherNode(id: string): Node -> bool {
    (n: Node) => n.id != id
  }

  function Untouched(id: string): Edge -> bool {
    (e: Edge) => e.source != id && e.target != id
  }

  function OtherEdge(id: string): Edge -> bool {
    (e: Edge) => e.id != id
  }

  /** `nodes.filter(node => node.id !== id)`. */
  function WithoutNode(nodes: seq<Node>, id: string): seq<Node> {
    Seqs.Filter(nodes, OtherNode(id))
  }

  /** `edges.filter(edge => edge.source !== id && edge.target !== id)`. */
  function DetachEdges(edges: seq<Edge>, id: string): seq<Edge> {
    Seqs.Filter(edges, Untouched(id))
  }

  /** `edges.filter(edge => edge.id !== id)`. */
  function WithoutEdge(edges: seq<Edge>, id: string): seq<Edge> {
    Seqs.Filter(edges, OtherEdge(id))
  }

  /** Every edge's endpoints name nodes of the graph. */
  ghost predicate NoDangling(nodes: seq<Node>, edges: seq<Edge>) {
    forall e :: e in edges ==> HasNode(nodes, e.source) && HasNode(nodes, e.target)
  }

  predicate HasNode(nodes: seq<Node>, id: string) {
    exists i :: 0 <= i < |nodes| && nodes[i].id == id
  }

  // ---- updateNode -------------------------------------------------------

  /** Position by position: matching nodes are merged with the patch, the rest are kept. */
  lemma {:induction false} UpdateNodesAt(nodes: seq<Node>, id: string, p: NodePatch, i: nat)
    requires i < |nodes|
    ensures UpdateNodes(nodes, id, p)[i] == if nodes[i].id == id then Merge(nodes[i], p) else nodes[i]
  {
    if i > 0 {
      UpdateNodesAt(nodes[1..], id, p, i - 1);
    }
  }

  /** A field the patch does not mention keeps its old value in every updated node. */
  lemma UpdateNodesKeepsUnpatched(nodes: seq<Node>, id: string, p: NodePatch, i: nat)
    requires i < |nodes|
    ensures p.data.None? ==> UpdateNodes(nodes, id, p)[i].data == nodes[i].data
    ensures p.position.None? ==> UpdateNodes(nodes, id, p)[i].position == nodes[i].position
    ensures p.id.None? ==> UpdateNodes(nodes, id, p)[i].id == nodes[i].id
    ensures p.kind.None? ==> UpdateNodes(nodes, id, p)[i].kind == nodes[i].kind
  {
    UpdateNodesAt(nodes, id, p, i);
  }

  /** Updating an ID that no node has changes nothing. */
  lemma {:induction false} UpdateNodesAbsent(nodes: seq<Node>, id: string, p: NodePatch)
    requires !HasNode(nodes, id)
    ensures UpdateNodes(nodes, id, p) == nodes
  {
    if nodes != [] {
      assert !HasNode(nodes[1..], id) by {
        forall i | 0 <= i < |nodes[1..]| ensures nodes[1..][i].id != id {
          assert nodes[1..][i] == nodes[i + 1];
        }
      }
      UpdateNodesAbsent(nodes[1..], id, p);
    }
  }

  // ---- removeNode -------------------------------------------------------

  /** After the cascade, no node has the ID and no edge touches it; every other
      node and every edge not touching it survives, in the original order, and
      each list is shorter by exactly the number of elements removed (so a
      duplicated edge survives as often as it occurred). */
  lemma RemoveNodeCascade(nodes: seq<Node>, edges: seq<Edge>, id: string)
    ensures !HasNode(WithoutNode(nodes, id), id)
    ensures forall e :: e in DetachEdges(edges, id) ==> e.source != id && e.target != id
    ensures forall n :: n in WithoutNode(nodes, id) <==> n in nodes && n.id != id
    ensures forall e :: e in DetachEdges(edges, id) <==> e in edges && e.source != id && e.target != id
    ensures Seqs.IsSubsequence(WithoutNode(nodes, id), nodes)
    ensures Seqs.IsSubsequence(DetachEdges(edges, id), edges)
    ensures |WithoutNode(nodes, id)| + Seqs.CountRejected(nodes, OtherNode(id)) == |nodes|
    ensures |DetachEdges(edges, id)| + Seqs.CountRejected(edges, Untouched(id)) == |edges|
  {
    var r := WithoutNode(nodes, id);
    assert forall i :: 0 <= i < |r| ==> r[i] in r;
    forall n ensures n in r <==> n in nodes && n.id != id {
      Seqs.FilterMembership(nodes, OtherNode(id), n);
    }
    forall e ensures e in DetachEdges(edges, id) <==> e in edges && e.source != id && e.target != id {
      Seqs.FilterMembership(edges, Untouched(id), e);
    }
    Seqs.FilterIsSubsequence(nodes, OtherNode(id));
    Seqs.FilterIsSubsequence(edges, Untouched(id));
    Seqs.FilterCount(nodes, OtherNode(id));
    Seqs.FilterCount(edges, Untouched(id));
  }

  /** Removing a node keeps a graph without dangling edges free of them. */
  lemma RemoveNodeKeepsNoDangling(nodes: seq<Node>, edges: seq<Edge>, id: string)
    requires NoDangling(nodes, edges)
    ensures NoDangling(WithoutNode(nodes, id), DetachEdges(edges, id))
  {
    var ns := WithoutNode(nodes, id);
    forall e | e in DetachEdges(edges, id)
      ensures HasNode(ns, e.source) && HasNode(ns, e.target)
    {
      RemoveNodeCascade(nodes, edges, id);
      HasNodeSurvives(nodes, id, e.source);
      HasNodeSurvives(nodes, id, e.target);
    }
  }

  lemma HasNodeSurvives(nodes: seq<Node>, id: string, other: string)
    requires HasNode(nodes, other) && other != id
    ensures HasNode(WithoutNode(nodes, id), other)
  {
    var i :| 0 <= i < |nodes| && nodes[i].id == other;
    RemoveNodeCascade(nodes, [], id);
    assert nodes[i] in WithoutNode(nodes, id);
    var r := WithoutNode(nodes, id);
    var j :| 0 <= j < |r| && r[j] == nodes[i];
  }

  // ---- addEdge / removeEdge ---------------------------------------------

  /** `removeEdge(id)` removes exactly the edges with that ID, keeping the rest in order. */
  lemma RemoveEdgeExact(edges: seq<Edge>, id: string)
    ensures forall e :: e in WithoutEdge(edges, id) <==> e in edges && e.id != id
    ensures |WithoutEdge(edges, id)| + Seqs.CountRejected(edges, OtherEdge(id)) == |edges|
    ensures Seqs.IsSubsequence(WithoutEdge(edges, id), edges)
  {
    forall e ensures e in WithoutEdge(edges, id) <==> e in edges && e.id != id {
      Seqs.FilterMembership(edges, OtherEdge(id), e);
    }
    Seqs.FilterCount(edges, OtherEdge(id));
    Seqs.FilterIsSubsequence(edges, OtherEdge(id));
  }
}
