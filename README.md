# Place/transition graph editor — interaction core in Dafny

This project models the core of a browser editor for a Petri-net-style diagram: *place* and *transition* nodes joined by directed edges, drawn in an SVG canvas and stored on a remote graph server. The browser script `script.ts` keeps the session in module-level variables:

- the mode (Drag / Create / Connect / Delete);
- the drag sub-state;
- the selected node;
- the pointer offset;
- the pan and the zoom;
- the node type armed by the toolbar.

It keeps the drawn graph in two SVG groups, one for nodes and one for edges.

The model has two parts:

- **`Editor.EditorSession`** is the interaction state machine, written as a class whose fields are the session variables. It has one method per handler of the script (`changeState`, `dragStart`, `drag`, `dragEnd`, `handleScroll`, `connectClick`, `createClick`, `deleteClick`) and one per canvas or toolbar listener.
  - The `instanceof` sniffing of the event target becomes a hit-test datatype `Target = OnNode(id) | OnCanvas | Other`. `OnNode` covers both a node's rect and its text label.
  - Each HTTP request becomes an entry appended to `outbox`. A `Request` is `MoveNode`, `CreateNode`, `ConnectNodes`, `DeleteNode` or `ClearGraph`.
- **`Scene.SceneStore`** is the drawn graph, held as two sequences that the store's methods change in place: nodes `(id, type, position)` and edges `(startId, endId, startCentre, endCentre)`.
  - Nodes and edges are appended without a duplicate check.
  - Removing a node takes away every element with that id, then runs a reverse index loop that removes every edge touching it.
  - Redrawing the edges re-reads their end positions.
  - A clear empties both groups.
  - The server's answers are applied by calling these operations with the answer's payload.

The support modules are `Transform`, `Seqs` and `Wrappers`:

- `Transform` holds points, the uniform-scale affine matrices that SVG builds from the graph group's transform list, the zoom clamp, and the `parseInt` truncation.
- `Seqs` holds an order-preserving filter and its lemmas.
- `Wrappers` holds `Option`.

Coordinates are `real`: exact and unbounded.

In these corner cases the model follows what the code does:

- `changeState` sets the mode and clears the selection. It does **not** reset the drag sub-state.
  - So a mode change in the middle of a node drag leaves `DraggingNode` with no selection.
  - A later `dragEnd` in Drag mode then dereferences the null selection and throws. The model keeps the state unchanged in that case. `dragEnd` ends in `NoDrag` in every other case.
- Create mode returns to Drag as soon as the request is sent, not when the server confirms.
- A Delete click returns to Drag mode even when it hits no node.
  - The one exception is a node whose `data-id` is empty: `deleteClick` throws, and the listener never reaches `changeState`.
- The pan invariant is kept in two ghost fields, `pressPan` and `pressAt`. During a canvas drag `pan - offset` stays fixed. So after any move, the pan equals the pan at the press plus (pointer − press point).

`scenarios.dfy` holds client methods that drive a cascade delete, mode isolation, a two-step canvas pan, the zoom floor and a Delete click that misses, using nothing but the contracts.

## Model

| member | source | states |
|---|---|---|
| `Transform.ComposeApplies` | script.ts:135-138 | The matrix of the transform list [outer, inner] applies inner first, then outer. |
| `Transform.Compose` | script.ts:135-138 | A composed matrix's scale is the product of the two scales. |
| `Transform.GraphTransform` | script.ts:128-133 | The installed `scale(zoom) translate(pan/zoom)` has scale `zoom`. |
| `Transform.GraphTransformIsZoomThenPan` | script.ts:128-138 | The transform list equals the single map screen = zoom · graph + pan: the pan acts in screen units. |
| `Transform.PlacedGraphApplies` | script.ts:82-84 | Under the installed transform list and an outer placement, a graph point p lands at the placement of zoom · p + pan. |
| `Transform.Inverse` | script.ts:82-84 | The inverse of a matrix with a nonzero scale again has a nonzero scale. |
| `Transform.InverseRoundTrip` | script.ts:82-84 | The inverse undoes its matrix in both orders, for every point. |
| `Transform.WheelZoom` | script.ts:175-176 | The new zoom lies in [0.125, 4] whatever the old zoom and the delta. From an in-range zoom, a positive delta never zooms in and a negative one never zooms out. When the stepped value is in range it is exactly zoom − 0.01 · deltaY. |
| `Transform.Trunc` | script.ts:164-165 | `parseInt` of a coordinate truncates toward zero: the result is within 1 of the value and on the value's side of zero. |
| `Transform.GrabOffsetPreserved` | script.ts:113-118 | With the grab offset taken at the press, a move lands the node at start + (pointer − press) / scale, under any fixed screen matrix. |
| `Seqs.Filter` | script.ts:341-348 | The kept elements are exactly those of the input that satisfy the predicate, and there are no more of them than input elements. |
| `Seqs.FilterIsSubsequence` | script.ts:342-348 | What survives a removal keeps its original relative order. |
| `Seqs.FilterCounts` | script.ts:342-348 | Every kept element survives as often as it occurred. Every removed one is gone entirely. |
| `Seqs.FilterIdempotent` | script.ts:329-349 | Filtering twice by the same predicate is the same as filtering once. |
| `Scene.Find` | script.ts:357-358 | The lookup by `data-id` returns a node at some index that carries the id, with no node before that index carrying it. It misses exactly when no rendered node carries the id. |
| `Scene.RemovalCascades` | script.ts:329-349 | After removing a node, no node has its id and no edge starts or ends there. Every other node and edge survives with its multiplicity and in its original order. |
| `Scene.RemovalKeepsEdgesReferring` | script.ts:329-349 | If every edge endpoint referred to a rendered node before a removal, it still does after the cascade. |
| `Scene.RemovalIdempotent` | script.ts:329-349 | Removing the same node a second time changes neither list. |
| `Scene.FindAfterRelocate` | script.ts:146-147 | After a node moves, the lookup finds it at its new position. Lookups of other ids are unaffected. |
| `Scene.EdgesFollowDraggedNode` | script.ts:351-375 | Moving a node and redrawing the edges puts every end attached to it at the new position. Ids and count are kept. Every end not at the dragged node is what a redraw of the unmoved scene gives. This covers the far end of an attached edge and both ends of any other edge. |
| `Scene.SceneStore.AddNode` | script.ts:300-327 | Appends the node without a duplicate check. Edges are untouched. |
| `Scene.SceneStore.AddEdge` | script.ts:254-287 | Appends the edge even if the same ordered pair is already drawn. Nodes are untouched. |
| `Scene.SceneStore.RemoveNode` | script.ts:329-349 | Nodes become the original nodes without that id. Edges become the original edges without those touching it. None of either remain. |
| `Scene.SceneStore.RemoveNodeElements` | script.ts:334-340 | A forward scan removes exactly the elements carrying the id, in place. |
| `Scene.SceneStore.RemoveEdgesAt` | script.ts:341-348 | A reverse index loop removes exactly the edges touching the id, in place. |
| `Scene.SceneStore.MoveNode` | script.ts:146-151 | The dragged node's rect and label both get the new position. Edges are untouched. |
| `Scene.SceneStore.UpdateEdges` | script.ts:351-375 | Every edge's ends are re-read from the nodes. Ids, order and count are unchanged. |
| `Scene.SceneStore.Clear` | script.ts:409-420 | Removing the first child until none is left empties both groups. |
| `Editor.EditorSession.constructor` | script.ts:1-6 | The session starts in Drag mode with no drag, no selection, zero offset and pan, zoom 1, Place armed, and an empty outbox and scene. |
| `Editor.EditorSession.ScreenMatrix` | script.ts:82-84 | The graph group's screen matrix: the SVG's placement after the installed transform list. Its scale is positive. |
| `Editor.EditorSession.ToScreen` | script.ts:90-92 | `graphToScreenCoords` applies the screen matrix: zoom the graph point, add the pan in screen units, then place the result by the SVG's own position on screen. `ToGraph` is its exact inverse. |
| `Editor.EditorSession.ToGraph` | script.ts:94-96 | `screenToGraphCoords` lands on a point that `graphToScreenCoords` maps back to the input. |
| `Editor.EditorSession.ScreenRoundTrip` | script.ts:90-96 | Graph → screen → graph is the identity for every pan and zoom the session can hold. |
| `Editor.EditorSession.GrabThenMove` | script.ts:113-118 | For the session's current screen matrix: with the offset taken between the press and the node's screen position, the inverse-mapped (pointer − offset) that a node drag writes is the node's start plus (pointer − press) / scale. |
| `Editor.EditorSession.ChangeState` | script.ts:61-69 | Sets the mode and clears the selection. Drag sub-state, offset, pan, zoom, armed type and outbox are unchanged. |
| `Editor.EditorSession.DragStart` | script.ts:99-120 | A node hit selects the node and stores the pointer's offset from the node's truncated screen position (DraggingNode). A canvas hit clears the selection and stores the press point (DraggingGraph). Any other target changes nothing. |
| `Editor.EditorSession.DragTo` | script.ts:143-159 | A node drag moves the node to the inverse-mapped (pointer − offset) and redraws the edges. A canvas drag adds (pointer − offset) to the pan, sets offset := pointer, and so leaves pan = press pan + (pointer − press point). Otherwise nothing changes. |
| `Editor.EditorSession.DragEnd` | script.ts:161-173 | A node drag appends exactly one Move request (id, truncated position), clears the selection and ends in NoDrag. Any other drag just ends in NoDrag. With DraggingNode and no selection the handler throws and nothing changes. Pan and zoom never change. |
| `Editor.EditorSession.HandleScroll` | script.ts:175-179 | Zoom becomes the clamped wheel step. Nothing else changes. |
| `Editor.EditorSession.ConnectClick` | script.ts:182-212 | With a different node selected: appends Connect(selected, clicked), clears the selection and enters Drag. Otherwise the clicked node becomes selected and the mode stays. A non-node target changes nothing. No self-loop is ever requested (kept in `Valid`). |
| `Editor.EditorSession.CreateClick` | script.ts:214-228 | Appends one Create request at the pointer's graph position with the armed type. Nothing else changes. |
| `Editor.EditorSession.DeleteClick` | script.ts:230-252 | A node hit appends Delete(id). Any other target sends nothing. An empty id throws and changes nothing. |
| `Editor.EditorSession.MouseDown` | script.ts:426-443 | Dispatches on the mode. Create and Delete end in Drag mode with no selection and the request appended, even when a Delete click misses. The exception is a throwing Delete click, which changes nothing. |
| `Editor.EditorSession.MouseMove` | script.ts:444-456 | In Drag mode this is `drag`. In any other mode neither the session nor the scene changes. |
| `Editor.EditorSession.MouseUp` | script.ts:457-470 | In Drag mode this is `dragEnd`. In any other mode nothing changes. |
| `Editor.EditorSession.MouseLeave` | script.ts:471-483 | In Drag mode this is `dragEnd`. In any other mode nothing changes. |
| `Editor.EditorSession.ToolbarClick` | script.ts:486-496 | The create buttons enter Create mode and arm Place or Transition. Connect and Delete enter their modes. All of these clear the selection. Clear only appends the Clear request. Pan, zoom, offset and drag sub-state are unchanged. |

## Left out

- XHR transport, status checks, response parsing and callback ordering (script.ts:166-169, 195-204, 218-227, 243-251, 378-422). A request is an outbox entry. A server answer is applied by calling the scene store's operation with the answer's payload. The race between out-of-order answers is concurrency and is not modelled.
- DOM element creation, attribute strings, styling, the arrow `marker` that every `addEdgeToCanvas` also appends to the edges group, the rect radius and the `state` text label. All of this is rendering only.
- `transformCoords` (script.ts:71-96) calls the browser's `getScreenCTM`/`matrixTransform`. It is modelled as an abstract matrix: the SVG's own placement (`surface`, a uniform scale and a translation) composed with the installed transform list. Rotation and skew are not modelled. Neither is the fallback that returns the point unchanged when no matrix exists.
- `computeEdgeOffsetPosition` (script.ts:290-298) uses floating-point trigonometry. An edge records the two node centres it was drawn from. The line pulled 30 units inwards is not computed.
- Scene.SceneStore.UpdateEdges: an end whose node is missing keeps its previous centre. The source would write NaN from `Number(undefined)`.
- Transform.Trunc: models `parseInt` on plain decimal notation only. Exponent renderings such as "1e21" are not modelled.
- Scene.SceneStore.MoveNode: moves every node carrying the selected id. The source moves only the one clicked element; the two differ only when ids are duplicated.
- Editor.EditorSession.ConnectClick: compares the selected and clicked elements by node id. The source compares element identity; this also differs only when ids are duplicated.
- Editor.EditorSession.DragStart: a node press and a Connect selection take the position of the first node carrying the clicked id. The source reads the clicked rect's own x/y (script.ts:101-103, 113-116). So with duplicate ids the grab offset and the selected position can differ from the source's.
- Node ids are assumed to need no CSS escaping. The source builds the selector `[data-id="…"]` from the id (script.ts:334, 357-358). An id containing `"` makes `querySelectorAll`/`querySelector` throw, so removal deletes nothing and `updateEdges` throws mid-drag. An id containing `\` is matched under CSS escape rules. The model compares ids as plain strings.
- Thrown setup errors for missing canvas, group or label elements (script.ts:55-58, 62-65, 255-256, 301-302, 330-337, 411, 416) are not modelled.
- The initial load through `renderNodes`/`renderEdges` (script.ts:377-403) is not modelled. Those functions only call `addNodeToCanvas`/`addEdgeToCanvas`, which are modelled.
- Floating-point rounding is not modelled: coordinates, pan and zoom are exact reals.
