/**
 * Client runs of the session and the scene store: a cascade delete, mode isolation, a
 * canvas pan, the zoom floor and a Delete click that misses, each using nothing but the
 * contracts.
 */
module Scenarios {
  import opened Wrappers
  import opened Transform
  import opened Scene
  import opened Editor
  import Seqs

  /** Nodes A and B with the edge A -> B: deleting A removes the node and the edge. */
  method CascadeDelete()
  {
    var store := new SceneStore();
    var a := SceneNode("A", Place, Point(0.0, 0.0));
    var b := SceneNode("B", Transition, Point(100.0, 0.0));
    store.AddNode(a);
    store.AddNode(b);
    store.AddEdge(SceneEdge("A", "B", a.pos, b.pos));
    store.RemoveNode("A");
    assert store.nodes == [b] by {
      var keep := (n: SceneNode) => n.id != "A";
      assert [a, b][1..] == [b] && [b][1..] == [];
      assert Seqs.Filter([b], keep) == [b] + Seqs.Filter([], keep);
      assert Seqs.Filter([a, b], keep) == Seqs.Filter([b], keep);
    }
    assert store.edges == [];
  }

  /** Leaving Connect mode drops the pending selection; coming back needs a fresh first click. */
  method ModeIsolation()
  {
    var session := new EditorSession(Affine(1.0, 0.0, 0.0));
    session.scene.AddNode(SceneNode("A", Place, Point(10.0, 10.0)));
    session.scene.AddNode(SceneNode("B", Place, Point(50.0, 10.0)));
    session.ToolbarClick(ConnectTool);
    session.MouseDown(OnNode("A"), Point(10.0, 10.0));
    assert session.selected.Some? && session.selected.value.id == "A";
    session.ToolbarClick(DeleteTool);
    assert session.selected == None;
    session.ToolbarClick(ConnectTool);
    session.MouseDown(OnNode("B"), Point(50.0, 10.0));
    assert session.outbox == [];
    assert session.selected.Some? && session.selected.value.id == "B";
    session.MouseDown(OnNode("A"), Point(10.0, 10.0));
    assert session.outbox == [ConnectNodes("B", "A")];
    assert session.mode == Drag && session.selected == None;
  }

  /** Dragging the canvas from (5, 5) via (8, 9) to (10, 20) pans by (5, 15) and sends nothing. */
  method CanvasPan()
  {
    var session := new EditorSession(Affine(1.0, 0.0, 0.0));
    session.MouseDown(OnCanvas, Point(5.0, 5.0));
    assert session.dragState == DraggingGraph && session.offset == Point(5.0, 5.0);
    session.MouseMove(Point(8.0, 9.0));
    assert session.pan == Point(3.0, 4.0) && session.offset == Point(8.0, 9.0);
    session.MouseMove(Point(10.0, 20.0));
    assert session.pan == Point(5.0, 15.0) && session.mode == Drag;
    session.MouseLeave();
    assert session.pan == Point(5.0, 15.0);
    assert session.outbox == [] && session.dragState == NoDrag;
  }

  /** From zoom 1 a wheel delta of 1000 stops at the floor of 1/8. */
  method ZoomFloor()
  {
    var session := new EditorSession(Affine(1.0, 0.0, 0.0));
    session.HandleScroll(1000.0);
    assert session.zoom == 0.125;
    session.HandleScroll(-100000.0);
    assert session.zoom == 4.0;
  }

  /** A Delete click that misses every node still returns to Drag mode, sending nothing. */
  method DeleteMiss()
  {
    var session := new EditorSession(Affine(1.0, 0.0, 0.0));
    session.ToolbarClick(DeleteTool);
    session.MouseDown(OnCanvas, Point(0.0, 0.0));
    assert session.mode == Drag && session.outbox == [];
  }
}
