// The full-screen quad component: four vertices kept in one array whose screen
// positions are rewritten in place before each draw, two triangles over them,
// and the vertex and index buffers those arrays are uploaded to. Draws are
// recorded in a log of what was handed to the device.

module Quads {
  import opened Geometry

  datatype Vertex = Vertex(position: Vec3, uv: Vec2)

  /** One DrawUserIndexedPrimitives call: the vertices and indices sent and the triangle count. */
  datatype DrawCall = UserIndexed(vertices: seq<Vertex>, indices: seq<int>, primitives: nat)

  /** The four vertices as constructed: at depth 1, texture corners (1,1), (0,1), (0,0), (1,0). */
  const InitialVertices: seq<Vertex> := [
    Vertex(Vec3(0.0, 0.0, 1.0), Vec2(1.0, 1.0)),
    Vertex(Vec3(0.0, 0.0, 1.0), Vec2(0.0, 1.0)),
    Vertex(Vec3(0.0, 0.0, 1.0), Vec2(0.0, 0.0)),
    Vertex(Vec3(0.0, 0.0, 1.0), Vec2(1.0, 0.0))]

  /** The index list: triangles (0,1,2) and (2,3,0). */
  const QuadIndices: seq<int> := [0, 1, 2, 2, 3, 0]

  /** The screen corner vertex k takes for the extents v1, v2. */
  function Corner(v1: Vec2, v2: Vec2, k: int): Vec2
    requires 0 <= k < 4
  {
    if k == 0 then Vec2(v2.x, v1.y)
    else if k == 1 then Vec2(v1.x, v1.y)
    else if k == 2 then Vec2(v1.x, v2.y)
    else Vec2(v2.x, v2.y)
  }

  /** Vertex v with its screen X and Y replaced, keeping its depth and texture coordinate. */
  function Placed(v: Vertex, c: Vec2): Vertex {
    v.(position := Vec3(c.x, c.y, v.position.z))
  }

  /** Vertex v moved to the given depth. */
  function AtDepth(v: Vertex, depth: real): Vertex {
    v.(position := v.position.(z := depth))
  }

  /** All four vertices placed on the corners of the extents v1, v2. */
  function PlaceCorners(vs: seq<Vertex>, v1: Vec2, v2: Vec2): (r: seq<Vertex>)
    requires |vs| == 4
    ensures |r| == 4
  {
    [Placed(vs[0], Corner(v1, v2, 0)), Placed(vs[1], Corner(v1, v2, 1)),
     Placed(vs[2], Corner(v1, v2, 2)), Placed(vs[3], Corner(v1, v2, 3))]
  }

  /** All four vertices moved to one depth. */
  function AllAtDepth(vs: seq<Vertex>, depth: real): (r: seq<Vertex>)
    requires |vs| == 4
    ensures |r| == 4
  {
    [AtDepth(vs[0], depth), AtDepth(vs[1], depth), AtDepth(vs[2], depth), AtDepth(vs[3], depth)]
  }

  /**
   * Placing the corners changes nothing but screen X and Y: vertex k ends on
   * corner k, at its old depth, with its old texture coordinate.
   */
  lemma PlaceCornersOnlyMovesXY(vs: seq<Vertex>, v1: Vec2, v2: Vec2)
    requires |vs| == 4
    ensures forall k :: 0 <= k < 4 ==>
      PlaceCorners(vs, v1, v2)[k].position.x == Corner(v1, v2, k).x &&
      PlaceCorners(vs, v1, v2)[k].position.y == Corner(v1, v2, k).y &&
      PlaceCorners(vs, v1, v2)[k].position.z == vs[k].position.z &&
      PlaceCorners(vs, v1, v2)[k].uv == vs[k].uv
  {
    forall k | 0 <= k < 4
      ensures PlaceCorners(vs, v1, v2)[k] == Placed(vs[k], Corner(v1, v2, k))
    {
    }
  }

  /** Placing the same corners twice is placing them once. */
  lemma PlaceCornersIdempotent(vs: seq<Vertex>, v1: Vec2, v2: Vec2)
    requires |vs| == 4
    ensures PlaceCorners(PlaceCorners(vs, v1, v2), v1, v2) == PlaceCorners(vs, v1, v2)
  {
  }

  /** A depth set by the depth overload survives a later draw without depth. */
  lemma DepthPersists(vs: seq<Vertex>, v1: Vec2, v2: Vec2, depth: real, w1: Vec2, w2: Vec2)
    requires |vs| == 4
    ensures forall k :: 0 <= k < 4 ==>
      PlaceCorners(AllAtDepth(PlaceCorners(vs, v1, v2), depth), w1, w2)[k].position.z == depth
  {
  }

  /**
   * For any extents v1, v2 the texture spans them: u grows from 0 at x = v1.x to
   * 1 at x = v2.x, and v from 0 at y = v2.y to 1 at y = v1.y, at every vertex.
   */
  lemma ExtentsTextureMapping(v1: Vec2, v2: Vec2)
    ensures forall k :: 0 <= k < 4 ==>
      var v := PlaceCorners(InitialVertices, v1, v2)[k];
      v.uv.x * (v2.x - v1.x) == v.position.x - v1.x && v.uv.y * (v2.y - v1.y) == v2.y - v.position.y
  {
  }

  /**
   * Drawn over the whole screen, extents (-1,-1) to (1,1), the quad maps each
   * screen corner onto the matching texture corner, with texture V running
   * downwards: u = (x + 1) / 2 and v = (1 - y) / 2 at every vertex.
   */
  lemma FullScreenTextureMapping()
    ensures forall k :: 0 <= k < 4 ==>
      var v := PlaceCorners(InitialVertices, Vec2(-1.0, -1.0), Vec2(1.0, 1.0))[k];
      v.uv.x == (v.position.x + 1.0) / 2.0 && v.uv.y == (1.0 - v.position.y) / 2.0
  {
  }

  /**
   * The index list makes two triangles over the four vertices: every index is a
   * vertex, each triangle has three different corners, and together they use all
   * four, sharing only the diagonal 0-2.
   */
  lemma QuadIndicesFormTwoTriangles()
    ensures |QuadIndices| == 2 * 3
    ensures forall i :: 0 <= i < |QuadIndices| ==> 0 <= QuadIndices[i] < |InitialVertices|
    ensures forall t :: 0 <= t < 2 ==>
      QuadIndices[3 * t] != QuadIndices[3 * t + 1] &&
      QuadIndices[3 * t + 1] != QuadIndices[3 * t + 2] &&
      QuadIndices[3 * t] != QuadIndices[3 * t + 2]
    ensures (set i | 0 <= i < |QuadIndices| :: QuadIndices[i]) == {0, 1, 2, 3}
    ensures (set i | 0 <= i < 3 :: QuadIndices[i]) * (set i | 3 <= i < 6 :: QuadIndices[i]) == {0, 2}
  {
    assert QuadIndices[0] == 0 && QuadIndices[1] == 1 && QuadIndices[2] == 2;
    assert QuadIndices[3] == 2 && QuadIndices[4] == 3 && QuadIndices[5] == 0;
    var first := set i | 0 <= i < 3 :: QuadIndices[i];
    var second := set i | 3 <= i < 6 :: QuadIndices[i];
    assert first == {0, 1, 2} by {
      assert forall x :: x in first ==> x in {0, 1, 2};
      assert 0 in first by { assert QuadIndices[0] == 0; }
      assert 1 in first by { assert QuadIndices[1] == 1; }
      assert 2 in first by { assert QuadIndices[2] == 2; }
    }
    assert second == {2, 3, 0} by {
      assert forall x :: x in second ==> x in {2, 3, 0};
      assert 2 in second by { assert QuadIndices[3] == 2; }
      assert 3 in second by { assert QuadIndices[4] == 3; }
      assert 0 in second by { assert QuadIndices[5] == 0; }
    }
    var all := set i | 0 <= i < |QuadIndices| :: QuadIndices[i];
    assert all == first + second by {
      assert forall x :: x in all ==> x in first + second;
      assert forall x :: x in first ==> x in all;
      assert forall x :: x in second ==> x in all;
    }
  }

  class QuadRenderComponent {
    const verts: array<Vertex>
    const ib: seq<int>
    /** What was last uploaded to the vertex buffer. */
    var vertexBuffer: seq<Vertex>
    /** What was uploaded to the index buffer. */
    const indexBuffer: seq<int>
    /** The draws handed to the device, oldest first. */
    var draws: seq<DrawCall>

    predicate Valid()
      reads this
    {
      verts.Length == 4 && ib == QuadIndices && indexBuffer == QuadIndices
    }

    /** Builds the four vertices and six indices and uploads both. */
    constructor ()
      ensures Valid() && fresh(verts)
      ensures verts[..] == InitialVertices && vertexBuffer == InitialVertices
      ensures draws == []
    {
      verts := new Vertex[4][InitialVertices[0], InitialVertices[1], InitialVertices[2], InitialVertices[3]];
      ib := QuadIndices;
      vertexBuffer := InitialVertices;
      indexBuffer := QuadIndices;
      draws := [];
    }

    /** Writes the X/Y layout of the extents v1, v2 into the vertices, in place. */
    method PlaceVertices(v1: Vec2, v2: Vec2)
      requires Valid()
      modifies verts
      ensures verts[..] == PlaceCorners(old(verts[..]), v1, v2)
    {
      verts[0] := Placed(verts[0], Vec2(v2.x, v1.y));
      verts[1] := Placed(verts[1], Vec2(v1.x, v1.y));
      verts[2] := Placed(verts[2], Vec2(v1.x, v2.y));
      verts[3] := Placed(verts[3], Vec2(v2.x, v2.y));
    }

    /** Draws the quad over the screen extents v1, v2, keeping each vertex's depth. */
    method Render(v1: Vec2, v2: Vec2)
      requires Valid()
      modifies this, verts
      ensures Valid()
      ensures verts[..] == PlaceCorners(old(verts[..]), v1, v2)
      ensures draws == old(draws) + [UserIndexed(verts[..], QuadIndices, 2)]
      ensures vertexBuffer == old(vertexBuffer)
    {
      PlaceVertices(v1, v2);
      draws := draws + [UserIndexed(verts[..], ib, 2)];
    }

    /** Draws the quad over the screen extents v1, v2 with every vertex at the given depth. */
    method RenderAtDepth(v1: Vec2, v2: Vec2, depth: real)
      requires Valid()
      modifies this, verts
      ensures Valid()
      ensures verts[..] == AllAtDepth(PlaceCorners(old(verts[..]), v1, v2), depth)
      ensures draws == old(draws) + [UserIndexed(verts[..], QuadIndices, 2)]
      ensures vertexBuffer == old(vertexBuffer)
    {
      PlaceVertices(v1, v2);
      verts[0] := AtDepth(verts[0], depth);
      verts[1] := AtDepth(verts[1], depth);
      verts[2] := AtDepth(verts[2], depth);
      verts[3] := AtDepth(verts[3], depth);
      draws := draws + [UserIndexed(verts[..], ib, 2)];
    }

    /** Lays the vertices out over the extents v1, v2 and uploads them, without drawing. */
    method SetVertices(v1: Vec2, v2: Vec2)
      requires Valid()
      modifies this, verts
      ensures Valid()
      ensures verts[..] == PlaceCorners(old(verts[..]), v1, v2)
      ensures vertexBuffer == verts[..]
      ensures draws == old(draws)
    {
      PlaceVertices(v1, v2);
      vertexBuffer := verts[..];
    }
  }
}
