/** The canvas adapter: a second, derived copy of the graph that the renderer
    draws, the change handlers that write back to the store, and the effects
    that overwrite the copy whenever the store changes. */
module WorkflowCanvas {
  import opened Wrappers
  import opened Graph
  import opened DragAndDrop
  import opened Text
  import Seqs
  import WorkflowContext

  /** The canvas element's bounding box origin. */
  datatype Bounds = Bounds(left: int, top: int)

  /** A renderer node change: its `type` ("position", "select", "remove", ...)
      and the position it carries, if any. */
  datatype NodeChange = NodeChange(id: string, changeType: string, position: Option<Position>)

  datatype EdgeChange = EdgeChange(id: string, changeType: string)

  /** A finished drag-to-connect gesture. */
  datatype Connection = Connection(
    source: string,
    target: string,
    sourceHandle: Option<string>,
    targetHandle: Option<string>)

  /** The drop point: the pointer relative to the canvas bounds, minus a
      fixed (128, 60). */
  function DropPosition(clientX: int, clientY: int, b: Bounds): (p: Position)
    ensures p.x + 128 + b.left == clientX
    ensures p.y + 60 + b.top == clientY
  {
    Position(clientX - b.left - 128, clientY - b.top - 60)
  }

  /** `{ ...node, position, type: 'workflow' }`. */
  function Placed(n: Node, p: Position): (r: Node)
    ensures r.id == n.id && r.data == n.data
    ensures r.position == p && r.kind == "workflow"
  {
    n.(position := p, kind := "workflow")
  }

  /** `changes.find(c => c.id === id)`. */
  function FirstChange(changes: seq<NodeChange>, id: string): (r: Option<NodeChange>)
    ensures r.Some? ==> r.value in changes && r.value.id == id
    ensures r.None? <==> forall c :: c in changes ==> c.id != id
    ensures r.Some? ==> exists i :: 0 <= i < |changes| && changes[i] == r.value
                                    && forall j :: 0 <= j < i ==> changes[j].id != id
  {
    if changes == [] then None
    else if changes[0].id == id then Some(changes[0])
    else FirstChange(changes[1..], id)
  }

  /** What happens to one node: moved by a change with a position, dropped by
      a "remove" change without one, otherwise kept. */
  function ReduceNode(n: Node, changes: seq<NodeChange>): Option<Node> {
    match FirstChange(changes, n.id)
    case Some(c) =>
      if c.position.Some? then Some(n.(position := c.position.value))
      else if c.changeType == "remove" then None
      else Some(n)
    case None => Some(n)
  }

  /** What `onNodesChange` keeps of one node: zero or one node. */
  function Piece(n: Node, changes: seq<NodeChange>): seq<Node> {
    match ReduceNode(n, changes)
    case Some(m) => [m]
    case None => []
  }

  /** `prev.map(...).filter(Boolean)` in `onNodesChange`. */
  function ApplyNodeChanges(nodes: seq<Node>, changes: seq<NodeChange>): (r: seq<Node>)
    ensures |r| <= |nodes|
  {
    if nodes == [] then [] else Piece(nodes[0], changes) + ApplyNodeChanges(nodes[1..], changes)
  }

  /** Every surviving node comes from an input node with the same ID, data and kind. */
  lemma {:induction false} ApplyNodeChangesOrigin(nodes: seq<Node>, changes: seq<NodeChange>)
    ensures forall m :: m in ApplyNodeChanges(nodes, changes) ==>
      exists n :: n in nodes && n.id == m.id && n.data == m.data && n.kind == m.kind
  {
    if nodes != [] {
      ApplyNodeChangesOrigin(nodes[1..], changes);
      forall m | m in ApplyNodeChanges(nodes, changes)
        ensures exists n :: n in nodes && n.id == m.id && n.data == m.data && n.kind == m.kind
      {
        if m in Piece(nodes[0], changes) {
          assert nodes[0] in nodes;
        } else {
          var n :| n in nodes[1..] && n.id == m.id && n.data == m.data && n.kind == m.kind;
          assert n in nodes;
        }
      }
    }
  }

  /** A node that no change names, or whose first change neither moves nor
      removes it (a "select", say), is kept as it is. */
  lemma {:induction false} ApplyNodeChangesKeeps(nodes: seq<Node>, changes: seq<NodeChange>, n: Node)
    requires n in nodes && !MovedBy(changes, n.id) && !RemovedBy(changes, n.id)
    ensures n in ApplyNodeChanges(nodes, changes)
  {
    if n != nodes[0] {
      assert n in nodes[1..];
      ApplyNodeChangesKeeps(nodes[1..], changes, n);
    }
  }

  /** A node whose first change carries a position is kept, at that position. */
  lemma {:induction false} ApplyNodeChangesMoves(nodes: seq<Node>, changes: seq<NodeChange>, n: Node)
    requires n in nodes && MovedBy(changes, n.id)
    ensures n.(position := FirstChange(changes, n.id).value.position.value) in ApplyNodeChanges(nodes, changes)
  {
    if n != nodes[0] {
      assert n in nodes[1..];
      ApplyNodeChangesMoves(nodes[1..], changes, n);
    }
  }

  /** No surviving node has a first change that removes it. */
  lemma {:induction false} ApplyNodeChangesRemoves(nodes: seq<Node>, changes: seq<NodeChange>)
    ensures forall m :: m in ApplyNodeChanges(nodes, changes) ==> !RemovedBy(changes, m.id)
  {
    if nodes != [] {
      ApplyNodeChangesRemoves(nodes[1..], changes);
    }
  }

  /** The first change for `id` carries a position. */
  predicate MovedBy(changes: seq<NodeChange>, id: string) {
    var c := FirstChange(changes, id);
    c.Some? && c.value.position.Some?
  }

  /** The first change for `id` removes it. */
  predicate RemovedBy(changes: seq<NodeChange>, id: string) {
    var c := FirstChange(changes, id);
    c.Some? && c.value.position.None? && c.value.changeType == "remove"
  }

  /** The `map` half of `onNodesChange` for one node: moved when its first
      change carries a position, otherwise as it was. */
  function Moved(n: Node, changes: seq<NodeChange>): (m: Node)
    ensures m.id == n.id && m.data == n.data && m.kind == n.kind
    ensures MovedBy(changes, n.id) ==> m.position == FirstChange(changes, n.id).value.position.value
    ensures !MovedBy(changes, n.id) ==> m == n
  {
    if MovedBy(changes, n.id) then n.(position := FirstChange(changes, n.id).value.position.value) else n
  }

  /** The `filter(Boolean)` half: a node survives unless its first change removes it. */
  function Survives(changes: seq<NodeChange>): Node -> bool {
    (m: Node) => !RemovedBy(changes, m.id)
  }

  /** Every node mapped, index by index. */
  function MovedAll(nodes: seq<Node>, changes: seq<NodeChange>): (ms: seq<Node>)
    ensures |ms| == |nodes|
    ensures forall i :: 0 <= i < |nodes| ==> ms[i] == Moved(nodes[i], changes)
  {
    seq(|nodes|, i requires 0 <= i < |nodes| => Moved(nodes[i], changes))
  }

  /** `onNodesChange` is exactly "map every node, then drop the removed ones":
      the survivors keep the input order, and the result is shorter by the
      number of removed nodes. */
  lemma {:induction false} ApplyNodeChangesExact(nodes: seq<Node>, changes: seq<NodeChange>)
    ensures ApplyNodeChanges(nodes, changes) == Seqs.Filter(MovedAll(nodes, changes), Survives(changes))
    ensures Seqs.IsSubsequence(ApplyNodeChanges(nodes, changes), MovedAll(nodes, changes))
    ensures |ApplyNodeChanges(nodes, changes)| + Seqs.CountRejected(MovedAll(nodes, changes), Survives(changes)) == |nodes|
  {
    var ms := MovedAll(nodes, changes);
    if nodes != [] {
      ApplyNodeChangesExact(nodes[1..], changes);
      assert ms[1..] == MovedAll(nodes[1..], changes);
      assert ms[0] == Moved(nodes[0], changes);
      assert Piece(nodes[0], changes) == if Survives(changes)(ms[0]) then [ms[0]] else [];
    }
    Seqs.FilterIsSubsequence(ms, Survives(changes));
    Seqs.FilterCount(ms, Survives(changes));
  }

  /** With no change for any node, the node list comes back unchanged (order included). */
  lemma {:induction false} ApplyNoChanges(nodes: seq<Node>)
    ensures ApplyNodeChanges(nodes, []) == nodes
  {
    if nodes != [] {
      ApplyNoChanges(nodes[1..]);
    }
  }

  /** The filter test of `onEdgesChange`: no "remove" change names this edge. */
  function KeepEdge(changes: seq<EdgeChange>): Edge -> bool {
    (e: Edge) => !exists c :: c in changes && c.id == e.id && c.changeType == "remove"
  }

  /** `prev.filter(edge => !changes.find(c => c.id === edge.id && c.type === 'remove'))`. */
  function ApplyEdgeChanges(edges: seq<Edge>, changes: seq<EdgeChange>): seq<Edge> {
    Seqs.Filter(edges, KeepEdge(changes))
  }

  /** Exactly the edges named by a "remove" change are dropped; the rest keep their order. */
  lemma ApplyEdgeChangesSpec(edges: seq<Edge>, changes: seq<EdgeChange>)
    ensures forall e :: e in ApplyEdgeChanges(edges, changes) <==>
      e in edges && !exists c :: c in changes && c.id == e.id && c.changeType == "remove"
    ensures Seqs.IsSubsequence(ApplyEdgeChanges(edges, changes), edges)
  {
    forall e ensures e in ApplyEdgeChanges(edges, changes) <==>
      e in edges && !exists c :: c in changes && c.id == e.id && c.changeType == "remove"
    {
      Seqs.FilterMembership(edges, KeepEdge(changes), e);
    }
    Seqs.FilterIsSubsequence(edges, KeepEdge(changes));
  }

  /** The edge `onConnect` synthesises at time `now` (`Date.now()`). */
  function ConnectEdge(conn: Connection, now: nat): (e: Edge)
    ensures e.source == conn.source && e.target == conn.target
    ensures e.sourceHandle == conn.sourceHandle && e.targetHandle == conn.targetHandle
    ensures e.id == conn.source + "-" + conn.target + "-" + NatToString(now)
    ensures e.animated && e.kind == "smoothstep"
  {
    Edge(conn.source + "-" + conn.target + "-" + NatToString(now),
         conn.source, conn.target, conn.sourceHandle, conn.targetHandle, true, "smoothstep")
  }

  /** For two connections between the same pair, different timestamps give different IDs. */
  lemma ConnectEdgeIdsDiffer(conn: Connection, t1: nat, t2: nat)
    requires t1 != t2
    ensures ConnectEdge(conn, t1).id != ConnectEdge(conn, t2).id
  {
    var p := conn.source + "-" + conn.target + "-";
    if ConnectEdge(conn, t1).id == ConnectEdge(conn, t2).id {
      assert p + NatToString(t1) == p + NatToString(t2);
      assert NatToString(t1) == (p + NatToString(t1))[|p|..];
      assert NatToString(t2) == (p + NatToString(t2))[|p|..];
      NatToStringInjective(t1, t2);
    }
  }

  /** A canvas-level "remove" does not cascade: removing a node through
      `onNodesChange` can leave an edge that points at it. */
  lemma CanvasRemoveLeavesDanglingEdge()
    ensures var a := Node("a", NodeData("A", "user_query", map[]), Position(0, 0), "workflow");
            var b := Node("b", NodeData("B", "output", map[]), Position(0, 0), "workflow");
            var e := Edge("a-b-1", "a", "b", None, None, true, "smoothstep");
            NoDangling([a, b], [e])
            && ApplyNodeChanges([a, b], [NodeChange("a", "remove", None)]) == [b]
            && !NoDangling(ApplyNodeChanges([a, b], [NodeChange("a", "remove", None)]), [e])
  {
    var a := Node("a", NodeData("A", "user_query", map[]), Position(0, 0), "workflow");
    var b := Node("b", NodeData("B", "output", map[]), Position(0, 0), "workflow");
    var e := Edge("a-b-1", "a", "b", None, None, true, "smoothstep");
    assert [a, b][0].id == "a" && [a, b][1].id == "b";
    var ch := [NodeChange("a", "remove", None)];
    assert Piece(a, ch) == [];
    assert Piece(b, ch) == [b];
    assert [a, b][1..] == [b];
    assert ApplyNodeChanges([b], ch) == [b] + ApplyNodeChanges([], ch);
    var after := ApplyNodeChanges([a, b], ch);
    assert after == [b];
    assert !HasNode(after, "a");
  }

  class Canvas {
    const store: WorkflowContext.WorkflowStore
    /** `nodesState` / `edgesState`: the renderer's copy. */
    var nodesState: seq<Node>
    var edgesState: seq<Edge>

    /** The copy agrees with the store. */
    ghost predicate InSync()
      reads this, store
    {
      nodesState == store.nodes && edgesState == store.edges
    }

    /** `useNodesState(nodes)` / `useEdgesState(edges)`: the copy starts as the store's graph. */
    constructor (s: WorkflowContext.WorkflowStore)
      ensures store == s && InSync()
    {
      store := s;
      nodesState := s.nodes;
      edgesState := s.edges;
    }

    /** The two effects: whenever the store's nodes or edges change, the copy
        is replaced by them, so the store wins over the renderer. */
    method SyncNodes()
      modifies this
      ensures nodesState == store.nodes && edgesState == old(edgesState)
    {
      nodesState := store.nodes;
    }

    method SyncEdges()
      modifies this
      ensures edgesState == store.edges && nodesState == old(nodesState)
    {
      edgesState := store.edges;
    }

    /** `onDrop`: read the payload under `DragFormat`; when it is present and
        parses, append the placed node to the copy and to the store. An empty
        or unparseable payload changes nothing. */
    method OnDrop(transfer: DataTransfer, clientX: int, clientY: int, bounds: Bounds, codec: Codec)
      returns (dropped: Option<Node>)
      modifies this, store
      ensures var data := GetData(transfer, DragFormat);
        dropped == if data != "" && codec.parse(data).Some?
                   then Some(Placed(codec.parse(data).value, DropPosition(clientX, clientY, bounds)))
                   else None
      ensures dropped.Some? ==> nodesState == old(nodesState) + [dropped.value]
      ensures dropped.Some? ==> store.nodes == old(store.nodes) + [dropped.value]
      ensures dropped.None? ==> nodesState == old(nodesState) && store.nodes == old(store.nodes)
      ensures edgesState == old(edgesState) && store.edges == old(store.edges)
      ensures store.currentWorkflow == old(store.currentWorkflow)
      ensures old(InSync()) ==> InSync()
    {
      var data := GetData(transfer, DragFormat);
      dropped := None;
      if data != "" {
        var parsed := codec.parse(data);
        if parsed.Some? {
          var newNode := Placed(parsed.value, DropPosition(clientX, clientY, bounds));
          nodesState := nodesState + [newNode];
          store.AddNode(newNode);
          dropped := Some(newNode);
        }
      }
    }

    /** `onNodesChange`: apply the changes to the copy and set the store's
        nodes to the result. Edges are not touched, in either copy. */
    method OnNodesChange(changes: seq<NodeChange>)
      modifies this, store
      ensures nodesState == ApplyNodeChanges(old(nodesState), changes)
      ensures nodesState == Seqs.Filter(MovedAll(old(nodesState), changes), Survives(changes))
      ensures store.nodes == nodesState
      ensures edgesState == old(edgesState) && store.edges == old(store.edges)
      ensures store.currentWorkflow == old(store.currentWorkflow)
    {
      var updated := ApplyNodeChanges(nodesState, changes);
      ApplyNodeChangesExact(nodesState, changes);
      store.SetNodes(updated);
      nodesState := updated;
    }

    /** `onEdgesChange`: drop the edges named by "remove" changes from the
        copy and set the store's edges to the result. */
    method OnEdgesChange(changes: seq<EdgeChange>)
      modifies this, store
      ensures edgesState == ApplyEdgeChanges(old(edgesState), changes)
      ensures store.edges == edgesState
      ensures nodesState == old(nodesState) && store.nodes == old(store.nodes)
      ensures store.currentWorkflow == old(store.currentWorkflow)
    {
      var updated := ApplyEdgeChanges(edgesState, changes);
      store.SetEdges(updated);
      edgesState := updated;
    }

    /** `onConnect`: append exactly one synthesised edge to the store. The
        store change then fires the edges effect, which replaces the copy by
        the store's edges. */
    method OnConnect(conn: Connection, now: nat) returns (edge: Edge)
      modifies this, store
      ensures edge == ConnectEdge(conn, now)
      ensures store.edges == old(store.edges) + [edge]
      ensures edgesState == store.edges
      ensures store.nodes == old(store.nodes) && nodesState == old(nodesState)
      ensures store.currentWorkflow == old(store.currentWorkflow)
    {
      edge := ConnectEdge(conn, now);
      store.AddEdge(edge);
      SyncEdges();
    }
  }
}
