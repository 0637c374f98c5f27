/** Ring flattening: the loop of `createArea` and `createLine` that projects each point of a
    ring and records it, y negated, both as a shape path and as a flat position array. */
module RingPath {
  import opened Geo

  /** One call on the three.js `Shape` the extrusion is built from. */
  datatype PathCmd = MoveTo(x: real, y: real) | LineTo(x: real, y: real)

  /** The `[x, -y, depth]` triple a projected point contributes to a position array. */
  function Vertex(p: Point, depth: real): seq<real> {
    [p.0, -p.1, depth]
  }

  /** The position array of a ring: its projected points, flattened in order. */
  function Positions(proj: Point -> Point, ring: Ring, depth: real): (r: seq<real>)
    ensures |r| == 3 * |ring|
  {
    if ring == [] then []
    else Positions(proj, ring[..|ring| - 1], depth) + Vertex(proj(ring[|ring| - 1]), depth)
  }

  /** The shape calls point `i` of a ring contributes: the first point moves the pen there and
      then draws to it, every later point draws to it. */
  function Step(i: nat, p: Point): seq<PathCmd> {
    if i == 0 then [MoveTo(p.0, -p.1), LineTo(p.0, -p.1)] else [LineTo(p.0, -p.1)]
  }

  /** The shape path of a ring. */
  function ShapePath(proj: Point -> Point, ring: Ring): (r: seq<PathCmd>)
    ensures |r| == if ring == [] then 0 else |ring| + 1
  {
    if ring == [] then []
    else ShapePath(proj, ring[..|ring| - 1]) + Step(|ring| - 1, proj(ring[|ring| - 1]))
  }

  /** Entry `3i`, `3i+1`, `3i+2` of the position array is `(x_i, -y_i, depth)` where
      `(x_i, y_i)` is the projection of point `i`. */
  lemma {:induction false} PositionsAt(proj: Point -> Point, ring: Ring, depth: real, i: nat)
    requires i < |ring|
    ensures Positions(proj, ring, depth)[3 * i] == proj(ring[i]).0
    ensures Positions(proj, ring, depth)[3 * i + 1] == -proj(ring[i]).1
    ensures Positions(proj, ring, depth)[3 * i + 2] == depth
  {
    var n := |ring|;
    if i < n - 1 {
      PositionsAt(proj, ring[..n - 1], depth, i);
      assert ring[..n - 1][i] == ring[i];
    }
  }

  /** The shape path starts with a move to the first projected point and then draws a line to
      every projected point in order, that first point included. */
  lemma {:induction false} ShapeAt(proj: Point -> Point, ring: Ring, i: nat)
    requires i < |ring|
    ensures ShapePath(proj, ring)[0] == MoveTo(proj(ring[0]).0, -proj(ring[0]).1)
    ensures ShapePath(proj, ring)[i + 1] == LineTo(proj(ring[i]).0, -proj(ring[i]).1)
  {
    var n := |ring|;
    if n > 1 {
      assert ring[..n - 1][0] == ring[0];
      if i < n - 1 {
        ShapeAt(proj, ring[..n - 1], i);
        assert ring[..n - 1][i] == ring[i];
      } else {
        ShapeAt(proj, ring[..n - 1], 0);
      }
    }
  }

  /** The extruded shape and the outline trace the same planar points: line `i` of the shape
      ends at the `(x, y)` of entry `i` of the position array. */
  lemma OutlineTracesShape(proj: Point -> Point, ring: Ring, depth: real, i: nat)
    requires i < |ring|
    ensures ShapePath(proj, ring)[i + 1] ==
      LineTo(Positions(proj, ring, depth)[3 * i], Positions(proj, ring, depth)[3 * i + 1])
  {
    ShapeAt(proj, ring, i);
    PositionsAt(proj, ring, depth, i);
  }

  /** The point loop of `createArea` (and, ignoring the shape, of `createLine`). */
  method FlattenRing(proj: Point -> Point, ring: Ring, depth: real) returns (shape: seq<PathCmd>, positions: seq<real>)
    ensures shape == ShapePath(proj, ring)
    ensures positions == Positions(proj, ring, depth)
  {
    shape, positions := [], [];
    var i := 0;
    while i < |ring|
      invariant 0 <= i <= |ring|
      invariant shape == ShapePath(proj, ring[..i])
      invariant positions == Positions(proj, ring[..i], depth)
    {
      var (x, y) := proj(ring[i]);
      if i == 0 {
        shape := shape + [MoveTo(x, -y)];
      }
      shape := shape + [LineTo(x, -y)];
      positions := positions + [x, -y, depth];
      assert ring[..i + 1][..i] == ring[..i];
      i := i + 1;
    }
    assert ring[..i] == ring;
  }
}
