/**
 * The scene store: the node and edge elements currently rendered in the SVG's
 * `nodes` and `edges` groups, reduced to the attributes the editor reads back
 * (ids, node type, positions). Elements are appended, moved and removed in place.
 */
module Scene {
  import opened Wrappers
  import opened Transform
  import Seqs

  /** The `data-id` a node's rect and label carry; assigned by the graph server. */
  type NodeId = string

  datatype NodeType = Place | Transition

  /** A rendered node: its rect and its text label, which always share id and position. */
  datatype SceneNode = SceneNode(id: NodeId, kind: NodeType, pos: Point)

  /**
   * A rendered edge line: the ids in `data-start-node-id` / `data-end-node-id` and the
   * two node centres the line was last drawn from. The line's own x1/y1/x2/y2 are these
   * centres pushed 30 units inwards along the line, which is rendering only.
   */
  datatype SceneEdge = SceneEdge(startId: NodeId, endId: NodeId, startPos: Point, endPos: Point)

  predicate Touches(e: SceneEdge, id: NodeId)
  {
    e.startId == id || e.endId == id
  }

  /** `querySelector('[data-id="id"]')`: the first rendered node carrying the id, if any. */
  function Find(nodes: seq<SceneNode>, id: NodeId): (r: Option<SceneNode>)
    ensures r.None? <==> forall n :: n in nodes ==> n.id != id
    ensures r.Some? ==> r.value.id == id && r.value in nodes
    ensures r.Some? ==> exists i :: 0 <= i < |nodes| && nodes[i] == r.value &&
                                    forall j :: 0 <= j < i ==> nodes[j].id != id
  {
    if nodes == [] then None
    else if nodes[0].id == id then Some(nodes[0])
    else Find(nodes[1..], id)
  }

  /** The nodes left after removing every element with `data-id` equal to `id`. */
  function WithoutNode(nodes: seq<SceneNode>, id: NodeId): seq<SceneNode>
  {
    Seqs.Filter(nodes, (n: SceneNode) => n.id != id)
  }

  /** The edges left after removing every line that starts or ends at `id`. */
  function WithoutEdgesAt(edges: seq<SceneEdge>, id: NodeId): seq<SceneEdge>
  {
    Seqs.Filter(edges, (e: SceneEdge) => !Touches(e, id))
  }

  /** Every node carrying `id` moved to `p`; nothing else changes. */
  function Relocated(nodes: seq<SceneNode>, id: NodeId, p: Point): seq<SceneNode>
  {
    seq(|nodes|, i requires 0 <= i < |nodes| =>
      if nodes[i].id == id then nodes[i].(pos := p) else nodes[i])
  }

  /**
   * One edge as `updateEdges` redraws it: each end is re-read from the first node with
   * that id. An end whose node is gone keeps its previous centre.
   */
  function Redraw(nodes: seq<SceneNode>, e: SceneEdge): SceneEdge
  {
    var s := Find(nodes, e.startId);
    var t := Find(nodes, e.endId);
    e.(startPos := if s.Some? then s.value.pos else e.startPos,
       endPos := if t.Some? then t.value.pos else e.endPos)
  }

  function Redrawn(nodes: seq<SceneNode>, edges: seq<SceneEdge>): seq<SceneEdge>
  {
    seq(|edges|, i requires 0 <= i < |edges| => Redraw(nodes, edges[i]))
  }

  /** Every edge endpoint refers to a rendered node. */
  ghost predicate EdgesReferToNodes(nodes: seq<SceneNode>, edges: seq<SceneEdge>)
  {
    forall e :: e in edges ==> Find(nodes, e.startId).Some? && Find(nodes, e.endId).Some?
  }

  /**
   * Removing a node cascades: afterwards no node carries the id and no edge touches it,
   * while every other node and edge survives, as often as before and in its original
   * relative order (script.ts:329-349).
   */
  lemma {:induction false} RemovalCascades(nodes: seq<SceneNode>, edges: seq<SceneEdge>, id: NodeId)
    ensures Find(WithoutNode(nodes, id), id).None?
    ensures forall e :: e in WithoutEdgesAt(edges, id) ==> !Touches(e, id)
    ensures forall n: SceneNode :: n.id != id ==> multiset(WithoutNode(nodes, id))[n] == multiset(nodes)[n]
    ensures forall e: SceneEdge :: !Touches(e, id) ==> multiset(WithoutEdgesAt(edges, id))[e] == multiset(edges)[e]
    ensures Seqs.Subsequence(WithoutNode(nodes, id), nodes)
    ensures Seqs.Subsequence(WithoutEdgesAt(edges, id), edges)
  {
    var keepNode := (n: SceneNode) => n.id != id;
    var keepEdge := (e: SceneEdge) => !Touches(e, id);
    forall n: SceneNode | n.id != id
      ensures multiset(WithoutNode(nodes, id))[n] == multiset(nodes)[n]
    {
      Seqs.FilterCounts(nodes, keepNode, n);
    }
    forall e | !Touches(e, id)
      ensures multiset(WithoutEdgesAt(edges, id))[e] == multiset(edges)[e]
    {
      Seqs.FilterCounts(edges, keepEdge, e);
    }
    Seqs.FilterIsSubsequence(nodes, keepNode);
    Seqs.FilterIsSubsequence(edges, keepEdge);
  }

  /**
   * The cascade keeps the scene closed: if every edge referred to a rendered node before
   * the removal, it still does afterwards.
   */
  lemma RemovalKeepsEdgesReferring(nodes: seq<SceneNode>, edges: seq<SceneEdge>, id: NodeId)
    requires EdgesReferToNodes(nodes, edges)
    ensures EdgesReferToNodes(WithoutNode(nodes, id), WithoutEdgesAt(edges, id))
  {
    forall e | e in WithoutEdgesAt(edges, id)
      ensures Find(WithoutNode(nodes, id), e.startId).Some?
      ensures Find(WithoutNode(nodes, id), e.endId).Some?
    {
      var s := Find(nodes, e.startId).value;
      var t := Find(nodes, e.endId).value;
      assert s in WithoutNode(nodes, id);
      assert t in WithoutNode(nodes, id);
    }
  }

  /** Removing a node that is already gone changes nothing. */
  lemma RemovalIdempotent(nodes: seq<SceneNode>, edges: seq<SceneEdge>, id: NodeId)
    ensures WithoutNode(WithoutNode(nodes, id), id) == WithoutNode(nodes, id)
    ensures WithoutEdgesAt(WithoutEdgesAt(edges, id), id) == WithoutEdgesAt(edges, id)
  {
    Seqs.FilterIdempotent(nodes, (n: SceneNode) => n.id != id);
    Seqs.FilterIdempotent(edges, (e: SceneEdge) => !Touches(e, id));
  }

  /** After a move, the lookup `updateEdges` performs finds the moved node at its new place. */
  lemma {:induction false} FindAfterRelocate(nodes: seq<SceneNode>, id: NodeId, p: Point, other: NodeId)
    ensures Find(Relocated(nodes, id, p), id) ==
            (if Find(nodes, id).Some? then Some(Find(nodes, id).value.(pos := p)) else None)
    ensures other != id ==> Find(Relocated(nodes, id, p), other) == Find(nodes, other)
  {
    if nodes != [] {
      assert Relocated(nodes, id, p)[1..] == Relocated(nodes[1..], id, p);
      FindAfterRelocate(nodes[1..], id, p, other);
    }
  }

  /**
   * Dragging a node and redrawing the edges puts every end attached to that node at the
   * node's new position, keeps the ids and the count, and gives every other end what a
   * redraw of the unmoved scene gives (script.ts:144-148, script.ts:351-375).
   */
  lemma EdgesFollowDraggedNode(nodes: seq<SceneNode>, edges: seq<SceneEdge>, id: NodeId, p: Point)
    requires Find(nodes, id).Some?
    ensures var r := Redrawn(Relocated(nodes, id, p), edges);
      && |r| == |edges|
      && (forall i :: 0 <= i < |edges| ==>
            r[i].startId == edges[i].startId && r[i].endId == edges[i].endId)
      && (forall i :: 0 <= i < |edges| && edges[i].startId == id ==> r[i].startPos == p)
      && (forall i :: 0 <= i < |edges| && edges[i].endId == id ==> r[i].endPos == p)
      && (forall i :: 0 <= i < |edges| && edges[i].startId == id && edges[i].endId != id ==>
            r[i].endPos == Redraw(nodes, edges[i]).endPos)
      && (forall i :: 0 <= i < |edges| && edges[i].endId == id && edges[i].startId != id ==>
            r[i].startPos == Redraw(nodes, edges[i]).startPos)
      && (forall i :: 0 <= i < |edges| && !Touches(edges[i], id) ==>
            r[i] == Redraw(nodes, edges[i]))
  {
    forall other: NodeId {
      FindAfterRelocate(nodes, id, p, other);
    }
  }

  /** The nodes and edges groups of the SVG. */
  class SceneStore {
    var nodes: seq<SceneNode>
    var edges: seq<SceneEdge>

    constructor ()
      ensures nodes == [] && edges == []
    {
      nodes := [];
      edges := [];
    }

    /** `addNodeToCanvas`: appends, without checking for an existing id (script.ts:300-327). */
    method AddNode(n: SceneNode)
      modifies this
      ensures nodes == old(nodes) + [n]
      ensures edges == old(edges)
    {
      nodes := nodes + [n];
    }

    /** `addEdgeToCanvas`: appends, even when the same ordered pair is already drawn (script.ts:254-287). */
    method AddEdge(e: SceneEdge)
      modifies this
      ensures edges == old(edges) + [e]
      ensures nodes == old(nodes)
    {
      edges := edges + [e];
    }

    /**
     * `removeNodeFromCanvas`: removes every element with the id, then every edge that
     * starts or ends there (script.ts:329-349).
     */
    method RemoveNode(id: NodeId)
      modifies this
      ensures nodes == WithoutNode(old(nodes), id)
      ensures edges == WithoutEdgesAt(old(edges), id)
      ensures forall n :: n in nodes ==> n.id != id
      ensures forall e :: e in edges ==> !Touches(e, id)
    {
      RemoveNodeElements(id);
      RemoveEdgesAt(id);
    }

    /** The `forEach` over the elements with `data-id` equal to `id`, each taken out of the group (script.ts:334-340). */
    method RemoveNodeElements(id: NodeId)
      modifies this
      ensures nodes == WithoutNode(old(nodes), id)
      ensures edges == old(edges)
    {
      var keepNode := (n: SceneNode) => n.id != id;
      ghost var src := nodes;
      var j := 0;
      ghost var k := 0;
      while j < |nodes|
        invariant 0 <= k <= |src|
        invariant nodes == Seqs.Filter(src[..k], keepNode) + src[k..]
        invariant j == |Seqs.Filter(src[..k], keepNode)|
        invariant edges == old(edges)
        decreases |src| - k
      {
        Seqs.FilterScanStep(src, k, keepNode);
        if nodes[j].id == id {
          nodes := nodes[..j] + nodes[j + 1..];
        } else {
          j := j + 1;
        }
        k := k + 1;
      }
      assert src[..k] == src;
    }

    /** The reverse index loop over the edge lines, removing each that touches `id` (script.ts:341-348). */
    method RemoveEdgesAt(id: NodeId)
      modifies this
      ensures edges == WithoutEdgesAt(old(edges), id)
      ensures nodes == old(nodes)
    {
      var keepEdge := (e: SceneEdge) => !Touches(e, id);
      ghost var lines := edges;
      var i := |edges|;
      while i > 0
        invariant 0 <= i <= |lines|
        invariant edges == lines[..i] + Seqs.Filter(lines[i..], keepEdge)
        invariant nodes == old(nodes)
      {
        i := i - 1;
        Seqs.FilterBackStep(lines, i, keepEdge);
        if Touches(edges[i], id) {
          edges := edges[..i] + edges[i + 1..];
        }
      }
      assert lines[0..] == lines;
    }

    /** The selected node's rect and label get the dragged position (script.ts:146-151). */
    method MoveNode(id: NodeId, p: Point)
      modifies this
      ensures nodes == Relocated(old(nodes), id, p)
      ensures edges == old(edges)
    {
      nodes := Relocated(nodes, id, p);
    }

    /**
     * `updateEdges`: walks the edges from last to first and re-reads both end positions;
     * ids and count are untouched (script.ts:351-375).
     */
    method UpdateEdges()
      modifies this
      ensures nodes == old(nodes)
      ensures edges == Redrawn(nodes, old(edges))
      ensures |edges| == |old(edges)|
      ensures forall i :: 0 <= i < |edges| ==>
        edges[i].startId == old(edges)[i].startId && edges[i].endId == old(edges)[i].endId
    {
      ghost var before := edges;
      var i := |edges|;
      while i > 0
        invariant 0 <= i <= |before|
        invariant nodes == old(nodes)
        invariant |edges| == |before|
        invariant forall k :: 0 <= k < i ==> edges[k] == before[k]
        invariant forall k :: i <= k < |before| ==> edges[k] == Redraw(nodes, before[k])
      {
        i := i - 1;
        edges := edges[i := Redraw(nodes, edges[i])];
      }
    }

    /** The success branch of `clearAll`: remove the first child until none is left (script.ts:409-420). */
    method Clear()
      modifies this
      ensures nodes == [] && edges == []
    {
      while nodes != []
      {
        nodes := nodes[1..];
      }
      while edges != []
        invariant nodes == []
      {
        edges := edges[1..];
      }
    }
  }
}
