/**
 * Coordinates of the editor: points, the similarity transforms that SVG composes
 * from the graph group's transform list, the wheel zoom clamp and the `parseInt`
 * truncation applied to coordinate attributes.
 */
module Transform {

  datatype Point = Point(x: real, y: real)

  function Add(p: Point, q: Point): Point { Point(p.x + q.x, p.y + q.y) }

  function Sub(p: Point, q: Point): Point { Point(p.x - q.x, p.y - q.y) }

  /** The affine map p |-> scale * p + (dx, dy): a uniform scale followed by a translation. */
  datatype Affine = Affine(scale: real, dx: real, dy: real)

  function Apply(m: Affine, p: Point): Point
  {
    Point(m.scale * p.x + m.dx, m.scale * p.y + m.dy)
  }

  /** The SVG transform `scale(s, s)`. */
  function Scaling(s: real): Affine
  {
    Affine(s, 0.0, 0.0)
  }

  /** The SVG transform `translate(tx, ty)`. */
  function Translation(tx: real, ty: real): Affine
  {
    Affine(1.0, tx, ty)
  }

  /** The matrix of a transform list [outer, inner]: inner is applied to the point first. */
  function Compose(outer: Affine, inner: Affine): (m: Affine)
    ensures m.scale == outer.scale * inner.scale
  {
    Affine(outer.scale * inner.scale,
           outer.scale * inner.dx + outer.dx,
           outer.scale * inner.dy + outer.dy)
  }

  /** Applying the composed matrix is applying the inner transform, then the outer one. */
  lemma ComposeApplies(outer: Affine, inner: Affine, p: Point)
    ensures Apply(Compose(outer, inner), p) == Apply(outer, Apply(inner, p))
  {
    var m := Compose(outer, inner);
    var q := Apply(inner, p);
    assert m.dx == outer.scale * inner.dx + outer.dx && m.dy == outer.scale * inner.dy + outer.dy;
    assert q.x == inner.scale * p.x + inner.dx && q.y == inner.scale * p.y + inner.dy;
    Distributes(outer.scale, inner.scale, p.x, inner.dx);
    Distributes(outer.scale, inner.scale, p.y, inner.dy);
    assert Apply(m, p).x == Apply(outer, q).x;
    assert Apply(m, p).y == Apply(outer, q).y;
  }

  lemma Distributes(a: real, b: real, x: real, d: real)
    ensures (a * b) * x + (a * d) == a * (b * x + d)
  {
  }

  /** The inverse matrix, used to map screen points back into graph space. */
  function Inverse(m: Affine): (inv: Affine)
    requires m.scale != 0.0
    ensures inv.scale != 0.0
  {
    Affine(1.0 / m.scale, -m.dx / m.scale, -m.dy / m.scale)
  }

  /** `Inverse` undoes its matrix in both orders. */
  lemma InverseRoundTrip(m: Affine, p: Point)
    requires m.scale != 0.0
    ensures Apply(Inverse(m), Apply(m, p)) == p
    ensures Apply(m, Apply(Inverse(m), p)) == p
  {
    InverseCancels(m.scale, m.dx, p.x);
    InverseCancels(m.scale, m.dy, p.y);
    InverseUndoes(m.scale, m.dx, p.x);
    InverseUndoes(m.scale, m.dy, p.y);
  }

  lemma InverseCancels(s: real, d: real, x: real)
    requires s != 0.0
    ensures (1.0 / s) * (s * x + d) + (-d / s) == x
  {
    calc {
      (1.0 / s) * (s * x + d) + (-d / s);
      (s * x + d) / s - d / s;
      (s * x) / s;
      x;
    }
  }

  lemma InverseUndoes(s: real, d: real, x: real)
    requires s != 0.0
    ensures s * ((1.0 / s) * x + (-d / s)) + d == x
  {
    calc {
      s * ((1.0 / s) * x + (-d / s)) + d;
      s * ((x - d) / s) + d;
      (x - d) + d;
    }
  }

  /**
   * The transform list the editor installs on the graph group: `scale(zoom)` then
   * `translate(pan / zoom)` (script.ts:128-138).
   */
  function GraphTransform(zoom: real, pan: Point): (m: Affine)
    requires zoom != 0.0
    ensures m.scale == zoom
  {
    Compose(Scaling(zoom), Translation(pan.x / zoom, pan.y / zoom))
  }

  /** Dividing the translation by the zoom makes the pan act in screen units: screen = zoom * graph + pan. */
  lemma GraphTransformIsZoomThenPan(zoom: real, pan: Point)
    requires zoom != 0.0
    ensures GraphTransform(zoom, pan) == Affine(zoom, pan.x, pan.y)
  {
    assert zoom * (pan.x / zoom) == pan.x;
    assert zoom * (pan.y / zoom) == pan.y;
  }

  /** The installed transform list, placed on screen by `outer`, sends p to outer(zoom * p + pan). */
  lemma PlacedGraphApplies(outer: Affine, zoom: real, pan: Point, p: Point)
    requires zoom != 0.0
    ensures Apply(Compose(outer, GraphTransform(zoom, pan)), p)
            == Apply(outer, Apply(Affine(zoom, pan.x, pan.y), p))
  {
    GraphTransformIsZoomThenPan(zoom, pan);
    ComposeApplies(outer, GraphTransform(zoom, pan), p);
  }

  /** The smallest and largest zoom factors the wheel handler allows. */
  const MIN_ZOOM: real := 0.125
  const MAX_ZOOM: real := 4.0

  function Min(a: real, b: real): real { if a <= b then a else b }

  function Max(a: real, b: real): real { if a >= b then a else b }

  /**
   * The zoom after one wheel event: step by -0.01 per unit of deltaY, then clamp
   * (script.ts:175-176). The clamp holds whatever the prior zoom and delta.
   */
  function WheelZoom(zoom: real, deltaY: real): (z: real)
    ensures MIN_ZOOM <= z <= MAX_ZOOM
    ensures MIN_ZOOM <= zoom <= MAX_ZOOM && deltaY >= 0.0 ==> z <= zoom
    ensures MIN_ZOOM <= zoom <= MAX_ZOOM && deltaY <= 0.0 ==> z >= zoom
    ensures MIN_ZOOM <= zoom + deltaY * -0.01 <= MAX_ZOOM ==> z == zoom + deltaY * -0.01
  {
    Min(Max(MIN_ZOOM, zoom + deltaY * -0.01), MAX_ZOOM)
  }

  /**
   * `parseInt` of a coordinate attribute written by `Number.toString`: the
   * integer part, truncated toward zero (script.ts:114-115, script.ts:164-165).
   */
  function Trunc(r: real): (n: int)
    ensures 0.0 <= r ==> n as real <= r < n as real + 1.0
    ensures r < 0.0 ==> n as real - 1.0 < r <= n as real
  {
    if r >= 0.0 then r.Floor else -((-r).Floor)
  }

  /**
   * Grabbing a node keeps the pointer-to-node offset: after a press at `press` on a node
   * drawn at graph point `start` and a move to `client` under the same screen matrix `m`,
   * the node lands at start + (client - press) / scale (script.ts:113-118, script.ts:145).
   */
  lemma {:induction false} GrabOffsetPreserved(m: Affine, start: Point, press: Point, client: Point)
    requires m.scale != 0.0
    ensures Apply(Inverse(m), Sub(client, Sub(press, Apply(m, start))))
            == Point(start.x + (client.x - press.x) / m.scale, start.y + (client.y - press.y) / m.scale)
  {
    var q := Sub(client, Sub(press, Apply(m, start)));
    var inv := Inverse(m);
    assert inv == Affine(1.0 / m.scale, -m.dx / m.scale, -m.dy / m.scale);
    assert q.x == m.scale * start.x + m.dx + (client.x - press.x);
    assert q.y == m.scale * start.y + m.dy + (client.y - press.y);
    GrabAxis(m.scale, m.dx, start.x, client.x - press.x);
    GrabAxis(m.scale, m.dy, start.y, client.y - press.y);
  }

  lemma GrabAxis(s: real, d: real, x: real, delta: real)
    requires s != 0.0
    ensures (1.0 / s) * (s * x + d + delta) + (-d / s) == x + delta / s
  {
    InverseCancels(s, d + delta, x);
    assert (-d / s) == (-(d + delta) / s) + delta / s;
  }
}
