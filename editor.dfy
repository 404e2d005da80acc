/**
 * The editor's interaction state machine: the module-level session variables of the
 * browser script as one object, with one method per handler and per canvas or toolbar
 * listener. Requests to the graph server are appended to `outbox`; the server's
 * answers are applied by calling the scene store's operations.
 */
module Editor {
  import opened Wrappers
  import opened Transform
  import opened Scene

  /** The top-level mode (`State`). */
  datatype Mode = Drag | Create | Connect | Delete

  /** The drag sub-state; `NoDrag` is the source's `DragState.None`. */
  datatype DragState = DraggingNode | DraggingGraph | NoDrag

  /** What a pointer event hit: a node's rect or its label, the bare canvas, or anything else (an edge line, say). */
  datatype Target = OnNode(id: NodeId) | OnCanvas | Other

  /** The toolbar buttons. */
  datatype Button = CreatePlace | CreateTransition | ConnectTool | DeleteTool | ClearTool

  /** A request sent to the graph server: the bodies of POST /move, /create, /connect, /delete and /clear. */
  datatype Request =
    | MoveNode(nodeId: NodeId, x: int, y: int)
    | CreateNode(at: Point, kind: NodeType)
    | ConnectNodes(startId: NodeId, endId: NodeId)
    | DeleteNode(nodeId: NodeId)
    | ClearGraph

  /** The selected node's rect: which node it is, and its own x/y attributes. */
  datatype Selection = Selection(id: NodeId, at: Point)

  class EditorSession {
    var mode: Mode
    var dragState: DragState
    var selected: Option<Selection>
    /** `offset_x/offset_y`: the press point (canvas drag) or the pointer-to-node offset (node drag). */
    var offset: Point
    /** `global_offset_x/y`, in screen units. */
    var pan: Point
    /** `global_zoom`. */
    var zoom: real
    /** The node type armed by the toolbar for the next Create click. */
    var newNodeType: NodeType
    var outbox: seq<Request>
    const scene: SceneStore
    /** Where the SVG itself sits on screen: the part of the screen matrix outside the graph group. */
    const surface: Affine

    /** The pan and the pointer when the current canvas drag began. */
    ghost var pressPan: Point
    ghost var pressAt: Point

    ghost predicate Valid()
      reads this
    {
      && MIN_ZOOM <= zoom <= MAX_ZOOM
      && surface.scale > 0.0
      && (dragState == DraggingGraph ==> Sub(pan, offset) == Sub(pressPan, pressAt))
      && (forall r :: r in outbox && r.ConnectNodes? ==> r.startId != r.endId)
    }

    /** `getScreenCTM()` of the graph group: the SVG's placement after `scale(zoom) translate(pan / zoom)`. */
    function ScreenMatrix(): (m: Affine)
      reads this
      requires Valid()
      ensures m.scale > 0.0
    {
      assert surface.scale * zoom > 0.0;
      Compose(surface, GraphTransform(zoom, pan))
    }

    /**
     * `graphToScreenCoords`: zoom, then pan in screen units, then the SVG's own placement
     * on screen (script.ts:90-92).
     */
    function ToScreen(p: Point): (q: Point)
      reads this
      requires Valid()
      ensures q == Apply(surface, Apply(Affine(zoom, pan.x, pan.y), p))
    {
      PlacedGraphApplies(surface, zoom, pan, p);
      Apply(ScreenMatrix(), p)
    }

    /** `screenToGraphCoords`: the exact inverse of `ToScreen` under the same pan and zoom. */
    function ToGraph(q: Point): (p: Point)
      reads this
      requires Valid()
      ensures ToScreen(p) == q
    {
      InverseRoundTrip(ScreenMatrix(), q);
      Apply(Inverse(ScreenMatrix()), q)
    }

    /** Mapping a graph point to the screen and back returns it unchanged, for any pan and zoom the session can hold. */
    lemma ScreenRoundTrip(g: Point)
      requires Valid()
      ensures ToGraph(ToScreen(g)) == g
    {
      InverseRoundTrip(ScreenMatrix(), g);
    }

    /**
     * The grab offset at work: with the offset taken between the press point and the
     * node's screen position at `grab`, a move to `client` lands the node at
     * grab + (client - press) / scale, so the node keeps its place under the pointer
     * (script.ts:113-118, script.ts:145).
     */
    lemma GrabThenMove(grab: Point, press: Point, client: Point)
      requires Valid()
      ensures ToGraph(Sub(client, Sub(press, ToScreen(grab))))
              == Point(grab.x + (client.x - press.x) / ScreenMatrix().scale,
                       grab.y + (client.y - press.y) / ScreenMatrix().scale)
    {
      GrabOffsetPreserved(ScreenMatrix(), grab, press, client);
    }

    /** A hit on a node names a node that is rendered: the browser only reports elements in the document. */
    predicate Hits(target: Target)
      reads this, scene
    {
      target.OnNode? ==> Find(scene.nodes, target.id).Some?
    }

    /** The state at page load. */
    constructor (surface: Affine)
      requires surface.scale > 0.0
      ensures Valid() && fresh(scene)
      ensures mode == Drag && dragState == NoDrag && selected == None
      ensures offset == Point(0.0, 0.0) && pan == Point(0.0, 0.0) && zoom == 1.0
      ensures newNodeType == Place && outbox == []
      ensures scene.nodes == [] && scene.edges == []
      ensures this.surface == surface
    {
      mode := Drag;
      dragState := NoDrag;
      selected := None;
      offset := Point(0.0, 0.0);
      pan := Point(0.0, 0.0);
      zoom := 1.0;
      newNodeType := Place;
      outbox := [];
      scene := new SceneStore();
      this.surface := surface;
      pressPan := Point(0.0, 0.0);
      pressAt := Point(0.0, 0.0);
    }

    /**
     * `changeState`: the mode becomes `m` and the selection is dropped. The drag
     * sub-state is NOT reset, nor anything else (script.ts:61-69).
     */
    method ChangeState(m: Mode)
      requires Valid()
      modifies this
      ensures Valid()
      ensures mode == m && selected == None
      ensures dragState == old(dragState) && offset == old(offset) && pan == old(pan) && zoom == old(zoom)
      ensures newNodeType == old(newNodeType) && outbox == old(outbox)
      ensures pressPan == old(pressPan) && pressAt == old(pressAt)
    {
      mode := m;
      selected := None;
    }

    /** The effect of `dragStart`, shared by the handler and the mousedown listener in Drag mode. */
    twostate predicate DragStarted(target: Target, client: Point)
      reads this, scene
      requires old(Valid()) && old(Hits(target))
    {
      && mode == old(mode) && pan == old(pan) && zoom == old(zoom)
      && newNodeType == old(newNodeType) && outbox == old(outbox)
      && match target
         case OnNode(id) =>
           var start := Find(old(scene.nodes), id).value.pos;
           var grab := Point(Trunc(start.x) as real, Trunc(start.y) as real);
           && selected == Some(Selection(id, start))
           && offset == Sub(client, old(ToScreen(grab)))
           && dragState == DraggingNode
           && pressPan == old(pressPan) && pressAt == old(pressAt)
         case OnCanvas =>
           && selected == None && offset == client && dragState == DraggingGraph
           && pressPan == pan && pressAt == client
         case Other =>
           && selected == old(selected) && offset == old(offset) && dragState == old(dragState)
           && pressPan == old(pressPan) && pressAt == old(pressAt)
    }

    /**
     * `dragStart`: a press on a node grabs it, keeping the pointer's offset from the
     * node's (truncated) screen position; a press on the bare canvas starts a pan from
     * the press point; anything else is ignored (script.ts:99-120).
     */
    method DragStart(target: Target, client: Point)
      requires Valid() && Hits(target)
      modifies this
      ensures Valid()
      ensures DragStarted(target, client)
    {
      match target
      case OnNode(id) =>
        var start := Find(scene.nodes, id).value.pos;
        selected := Some(Selection(id, start));
        var point := ToScreen(Point(Trunc(start.x) as real, Trunc(start.y) as real));
        offset := Sub(client, point);
        dragState := DraggingNode;
      case OnCanvas =>
        selected := None;
        offset := client;
        dragState := DraggingGraph;
        pressPan, pressAt := pan, client;
      case Other =>
    }

    /** The effect of `drag`, shared by the handler and the mousemove listener in Drag mode. */
    twostate predicate Dragged(client: Point)
      reads this, scene
      requires old(Valid())
    {
      && mode == old(mode) && dragState == old(dragState) && zoom == old(zoom)
      && newNodeType == old(newNodeType) && outbox == old(outbox)
      && pressPan == old(pressPan) && pressAt == old(pressAt)
      && if old(dragState) == DraggingNode && old(selected).Some? then
           var id := old(selected).value.id;
           var p := old(ToGraph(Sub(client, offset)));
           && selected == Some(Selection(id, p))
           && scene.nodes == Relocated(old(scene.nodes), id, p)
           && scene.edges == Redrawn(scene.nodes, old(scene.edges))
           && offset == old(offset) && pan == old(pan)
         else if old(dragState) == DraggingGraph then
           && pan == Add(old(pan), Sub(client, old(offset)))
           && offset == client
           && pan == Add(pressPan, Sub(client, pressAt))
           && selected == old(selected)
           && scene.nodes == old(scene.nodes) && scene.edges == old(scene.edges)
         else
           && selected == old(selected) && offset == old(offset) && pan == old(pan)
           && scene.nodes == old(scene.nodes) && scene.edges == old(scene.edges)
    }

    /**
     * `drag`: a grabbed node follows the pointer (through the inverse screen matrix) and
     * its edges are redrawn; a canvas drag adds the pointer's step to the pan, so that
     * over a whole drag the pan grows by exactly (pointer - press point). With a node
     * drag but no selection, nothing happens (script.ts:143-159).
     */
    method DragTo(client: Point)
      requires Valid()
      modifies this, scene
      ensures Valid()
      ensures Dragged(client)
    {
      if dragState == DraggingNode && selected.Some? {
        var point := ToGraph(Sub(client, offset));
        var id := selected.value.id;
        scene.MoveNode(id, point);
        scene.UpdateEdges();
        selected := Some(Selection(id, point));
      } else if dragState == DraggingGraph {
        pan := Add(pan, Sub(client, offset));
        offset := client;
      }
    }

    /** The effect of `dragEnd`, shared by the handler and the mouseup / mouseleave listeners in Drag mode. */
    twostate predicate DragEnded()
      reads this
    {
      && mode == old(mode) && offset == old(offset) && pan == old(pan) && zoom == old(zoom)
      && newNodeType == old(newNodeType)
      && pressPan == old(pressPan) && pressAt == old(pressAt)
      && if old(dragState) == DraggingNode && old(selected).None? then
           // `selected_node!` is null: the handler throws before changing anything.
           dragState == old(dragState) && selected == old(selected) && outbox == old(outbox)
         else if old(dragState) == DraggingNode then
           var s := old(selected).value;
           && outbox == old(outbox) + [MoveNode(s.id, Trunc(s.at.x), Trunc(s.at.y))]
           && selected == None && dragState == NoDrag
         else
           outbox == old(outbox) && selected == old(selected) && dragState == NoDrag
    }

    /**
     * `dragEnd`: a node drag sends exactly one Move request with the node's position
     * truncated by `parseInt` and drops the selection; every drag ends in `NoDrag`.
     * Pan and zoom never change (script.ts:161-173).
     */
    method DragEnd()
      requires Valid()
      modifies this
      ensures Valid()
      ensures DragEnded()
    {
      if dragState == DraggingNode {
        if selected.None? {
          return;
        }
        var s := selected.value;
        outbox := outbox + [MoveNode(s.id, Trunc(s.at.x), Trunc(s.at.y))];
        selected := None;
      }
      dragState := NoDrag;
    }

    /** `handleScroll`: the wheel steps the zoom, clamped to [1/8, 4], in every mode (script.ts:175-179, script.ts:484). */
    method HandleScroll(deltaY: real)
      requires Valid()
      modifies this
      ensures Valid()
      ensures zoom == WheelZoom(old(zoom), deltaY)
      ensures mode == old(mode) && dragState == old(dragState) && selected == old(selected)
      ensures offset == old(offset) && pan == old(pan) && newNodeType == old(newNodeType)
      ensures outbox == old(outbox) && pressPan == old(pressPan) && pressAt == old(pressAt)
    {
      zoom := WheelZoom(zoom, deltaY);
    }

    /** The effect of `connectClick`, shared by the handler and the mousedown listener in Connect mode. */
    twostate predicate Connected(target: Target)
      reads this, scene
      requires old(Hits(target))
    {
      && dragState == old(dragState) && offset == old(offset) && pan == old(pan) && zoom == old(zoom)
      && newNodeType == old(newNodeType)
      && pressPan == old(pressPan) && pressAt == old(pressAt)
      && match target
         case OnNode(id) =>
           if old(selected).Some? && old(selected).value.id != id then
             && outbox == old(outbox) + [ConnectNodes(old(selected).value.id, id)]
             && selected == None && mode == Drag
           else
             && selected == Some(Selection(id, Find(old(scene.nodes), id).value.pos))
             && outbox == old(outbox) && mode == old(mode)
         case _ =>
           selected == old(selected) && outbox == old(outbox) && mode == old(mode)
    }

    /**
     * `connectClick`: with a different node already selected, request the edge
     * (selected, clicked), drop the selection and go back to Drag; otherwise select the
     * clicked node. A click off the nodes does nothing. No self-loop is ever requested
     * (script.ts:182-212).
     */
    method ConnectClick(target: Target)
      requires Valid() && Hits(target)
      modifies this
      ensures Valid()
      ensures Connected(target)
    {
      if !target.OnNode? {
        return;
      }
      var id := target.id;
      if selected.Some? && selected.value.id != id {
        outbox := outbox + [ConnectNodes(selected.value.id, id)];
        selected := None;
        ChangeState(Drag);
      } else {
        selected := Some(Selection(id, Find(scene.nodes, id).value.pos));
      }
    }

    /** `createClick`: request a node of the armed type at the pointer's graph position (script.ts:214-228). */
    method CreateClick(client: Point)
      requires Valid()
      modifies this
      ensures Valid()
      ensures outbox == old(outbox) + [CreateNode(old(ToGraph(client)), newNodeType)]
      ensures mode == old(mode) && dragState == old(dragState) && selected == old(selected)
      ensures offset == old(offset) && pan == old(pan) && zoom == old(zoom)
      ensures newNodeType == old(newNodeType) && pressPan == old(pressPan) && pressAt == old(pressAt)
    {
      var point := ToGraph(client);
      outbox := outbox + [CreateNode(point, newNodeType)];
    }

    /**
     * `deleteClick`: a click on a node requests its deletion; a click elsewhere does
     * nothing. A node whose `data-id` is empty makes the handler throw (script.ts:230-252).
     */
    method DeleteClick(target: Target) returns (thrown: bool)
      requires Valid()
      modifies this
      ensures Valid()
      ensures thrown <==> target.OnNode? && target.id == ""
      ensures thrown ==> unchanged(this)
      ensures outbox == if target.OnNode? && !thrown then old(outbox) + [DeleteNode(target.id)] else old(outbox)
      ensures mode == old(mode) && dragState == old(dragState) && selected == old(selected)
      ensures offset == old(offset) && pan == old(pan) && zoom == old(zoom)
      ensures newNodeType == old(newNodeType) && pressPan == old(pressPan) && pressAt == old(pressAt)
    {
      thrown := false;
      if !target.OnNode? {
        return;
      }
      if target.id == "" {
        thrown := true;
        return;
      }
      outbox := outbox + [DeleteNode(target.id)];
    }

    /**
     * The canvas mousedown listener: dispatch on the mode. Create and Delete clicks
     * return to Drag mode with no selection, whether or not a Delete click hit a node;
     * only a throwing Delete click leaves the mode alone (script.ts:426-443).
     */
    method MouseDown(target: Target, client: Point)
      requires Valid() && Hits(target)
      modifies this
      ensures Valid()
      ensures old(mode) == Drag ==> DragStarted(target, client)
      ensures old(mode) == Connect ==> Connected(target)
      ensures old(mode) == Create ==>
        && mode == Drag && selected == None
        && outbox == old(outbox) + [CreateNode(old(ToGraph(client)), newNodeType)]
      ensures old(mode) == Delete && target.OnNode? && target.id == "" ==> unchanged(this)
      ensures old(mode) == Delete && !(target.OnNode? && target.id == "") ==>
        && mode == Drag && selected == None
        && outbox == old(outbox) + (if target.OnNode? then [DeleteNode(target.id)] else [])
      ensures old(mode) in {Create, Delete} ==>
        && dragState == old(dragState) && offset == old(offset) && pan == old(pan) && zoom == old(zoom)
        && newNodeType == old(newNodeType) && pressPan == old(pressPan) && pressAt == old(pressAt)
    {
      match mode
      case Drag =>
        DragStart(target, client);
      case Create =>
        CreateClick(client);
        ChangeState(Drag);
      case Connect =>
        ConnectClick(target);
      case Delete =>
        var thrown := DeleteClick(target);
        if !thrown {
          ChangeState(Drag);
        }
    }

    /** The canvas mousemove listener: `drag` in Drag mode, nothing in any other (script.ts:444-456). */
    method MouseMove(client: Point)
      requires Valid()
      modifies this, scene
      ensures Valid()
      ensures old(mode) == Drag ==> Dragged(client)
      ensures old(mode) != Drag ==> unchanged(this) && unchanged(scene)
    {
      if mode == Drag {
        DragTo(client);
      }
    }

    /** The canvas mouseup listener: `dragEnd` in Drag mode, nothing in any other (script.ts:457-470). */
    method MouseUp()
      requires Valid()
      modifies this
      ensures Valid()
      ensures old(mode) == Drag ==> DragEnded()
      ensures old(mode) != Drag ==> unchanged(this)
    {
      if mode == Drag {
        DragEnd();
      }
    }

    /** The canvas mouseleave listener: the same as mouseup (script.ts:471-483). */
    method MouseLeave()
      requires Valid()
      modifies this
      ensures Valid()
      ensures old(mode) == Drag ==> DragEnded()
      ensures old(mode) != Drag ==> unchanged(this)
    {
      if mode == Drag {
        DragEnd();
      }
    }

    /**
     * The toolbar: the two create buttons enter Create mode and arm their node type,
     * connect and delete enter their modes, clear only sends the Clear request
     * (script.ts:486-496).
     */
    method ToolbarClick(b: Button)
      requires Valid()
      modifies this
      ensures Valid()
      ensures b == ClearTool ==>
        && outbox == old(outbox) + [ClearGraph]
        && mode == old(mode) && selected == old(selected) && newNodeType == old(newNodeType)
      ensures b != ClearTool ==> outbox == old(outbox) && selected == None
      ensures b == CreatePlace ==> mode == Create && newNodeType == Place
      ensures b == CreateTransition ==> mode == Create && newNodeType == Transition
      ensures b == ConnectTool ==> mode == Connect && newNodeType == old(newNodeType)
      ensures b == DeleteTool ==> mode == Delete && newNodeType == old(newNodeType)
      ensures dragState == old(dragState) && offset == old(offset) && pan == old(pan) && zoom == old(zoom)
      ensures pressPan == old(pressPan) && pressAt == old(pressAt)
    {
      match b
      case CreatePlace =>
        ChangeState(Create);
        newNodeType := Place;
      case CreateTransition =>
        ChangeState(Create);
        newNodeType := Transition;
      case ConnectTool =>
        ChangeState(Connect);
      case DeleteTool =>
        ChangeState(Delete);
      case ClearTool =>
        outbox := outbox + [ClearGraph];
    }
  }
}
