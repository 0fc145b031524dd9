/** The builder page wiring: a component dragged from the panel and dropped on
    the canvas arrives in the store, placed under the pointer. */
module Builder {
  import opened Wrappers
  import opened Graph
  import opened DragAndDrop
  import ComponentPanel
  import WorkflowCanvas

  /** Drag a catalog component and drop it at `(clientX, clientY)`. The new node
      is the panel's next template for that type, at the drop position, and its
      ID is one this panel never issued before; so while every node in the
      store came from this panel, the new ID is not yet in the store. */
  method DragToCanvas(panel: ComponentPanel.Panel, canvas: WorkflowCanvas.Canvas,
                      c: ComponentPanel.Component, codec: Codec,
                      clientX: int, clientY: int, bounds: WorkflowCanvas.Bounds)
    returns (dropped: Option<Node>)
    requires panel.Valid() && RoundTrips(codec)
    modifies panel, canvas, canvas.store
    ensures panel.Valid()
    ensures dropped == Some(WorkflowCanvas.Placed(ComponentPanel.TemplateNode(c, old(panel.nodeCount[c]) + 1),
                                                  WorkflowCanvas.DropPosition(clientX, clientY, bounds)))
    ensures canvas.store.nodes == old(canvas.store.nodes) + [dropped.value]
    ensures canvas.nodesState == old(canvas.nodesState) + [dropped.value]
    ensures canvas.store.edges == old(canvas.store.edges)
    ensures dropped.value.id !in old(panel.issued)
    ensures (forall n :: n in old(canvas.store.nodes) ==> n.id in old(panel.issued)) ==>
      forall n :: n in old(canvas.store.nodes) ==> n.id != dropped.value.id
  {
    var template, transfer := panel.HandleDragStart(c, codec);
    DropReadsDraggedNode(codec, template);
    dropped := canvas.OnDrop(transfer, clientX, clientY, bounds, codec);
  }
}
