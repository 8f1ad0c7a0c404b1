/**
 * The fixed vertex and index tables of the CLAF viewer (CLAF/primitives.py). The source
 * writes each table as one flat list of floats, five per vertex: a position (x, y, z)
 * followed by a texture coordinate (u, v). Here each line of that list is a `Vertex` and
 * the flat list handed to OpenGL is `Flatten` of the lines.
 */
module Primitives {
  import opened Outcomes

  /** Floats per vertex. */
  const STRIDE := 5

  /** One line of a vertex table. */
  datatype Vertex = Vertex(x: real, y: real, z: real, u: real, v: real)

  /** The five floats of a vertex, in the order the table lists them. */
  function Floats(vertex: Vertex): (r: seq<real>)
    ensures |r| == STRIDE
  {
    [vertex.x, vertex.y, vertex.z, vertex.u, vertex.v]
  }

  /** The flat float list of a table. */
  function Flatten(vertices: seq<Vertex>): (r: seq<real>)
    ensures |r| == STRIDE * |vertices|
    decreases |vertices|
  {
    if |vertices| == 0 then [] else Floats(vertices[0]) + Flatten(vertices[1..])
  }

  /** Float j of vertex k sits at k * STRIDE + j of the flat list. */
  lemma {:induction false} FlattenAt(vertices: seq<Vertex>, k: nat, j: nat)
    requires k < |vertices| && j < STRIDE
    ensures k * STRIDE + j < |Flatten(vertices)|
    ensures Flatten(vertices)[k * STRIDE + j] == Floats(vertices[k])[j]
    decreases k
  {
    if k > 0 {
      FlattenAt(vertices[1..], k - 1, j);
      assert Flatten(vertices) == Floats(vertices[0]) + Flatten(vertices[1..]);
    }
  }

  /** What `get_primitive` returns: a vertex array and an index array, either may be `None`. */
  datatype Mesh = Mesh(vertices: Option<seq<real>>, indices: Option<seq<nat>>)

  /** `get_triangle`: three vertices, drawn without indices. */
  const Triangle: seq<Vertex> := [
      Vertex(-0.5, -0.5,  0.0,  0.0,  0.0),
      Vertex( 0.5, -0.5,  0.0,  1.0,  0.0),
      Vertex( 0.0,  0.5,  0.0,  0.5,  1.0)
    ]

  /** `get_rectangle`: four corners (top right, bottom right, bottom left, top left). */
  const Rectangle: seq<Vertex> := [
      Vertex( 0.5,  0.5,  0.0,  1.0,  1.0),
      Vertex( 0.5, -0.5,  0.0,  1.0,  0.0),
      Vertex(-0.5, -0.5,  0.0,  0.0,  0.0),
      Vertex(-0.5,  0.5,  0.0,  0.0,  1.0)
    ]

  /** Two triangles over the rectangle's corners. */
  const RectangleIndices: seq<nat> := [0, 1, 3,
                                       1, 2, 3]

  /** `get_box`: six faces of two triangles each, listed one face after another. */
  const Box: seq<Vertex> := BackFace + FrontFace + LeftFace + RightFace + BottomFace + TopFace

  /** Box vertices 0 to 5: the face at z = -0.5. */
  const BackFace: seq<Vertex> := [
      Vertex(-0.5, -0.5, -0.5,  0.0,  0.0),
      Vertex( 0.5, -0.5, -0.5,  1.0,  0.0),
      Vertex( 0.5,  0.5, -0.5,  1.0,  1.0),
      Vertex( 0.5,  0.5, -0.5,  1.0,  1.0),
      Vertex(-0.5,  0.5, -0.5,  0.0,  1.0),
      Vertex(-0.5, -0.5, -0.5,  0.0,  0.0)
    ]

  /** Box vertices 6 to 11: the face at z = 0.5. */
  const FrontFace: seq<Vertex> := [
      Vertex(-0.5, -0.5,  0.5,  0.0,  0.0),
      Vertex( 0.5, -0.5,  0.5,  1.0,  0.0),
      Vertex( 0.5,  0.5,  0.5,  1.0,  1.0),
      Vertex( 0.5,  0.5,  0.5,  1.0,  1.0),
      Vertex(-0.5,  0.5,  0.5,  0.0,  1.0),
      Vertex(-0.5, -0.5,  0.5,  0.0,  0.0)
    ]

  /** Box vertices 12 to 17: the face at x = -0.5. */
  const LeftFace: seq<Vertex> := [
      Vertex(-0.5,  0.5,  0.5,  1.0,  0.0),
      Vertex(-0.5,  0.5, -0.5,  1.0,  1.0),
      Vertex(-0.5, -0.5, -0.5,  0.0,  1.0),
      Vertex(-0.5, -0.5, -0.5,  0.0,  1.0),
      Vertex(-0.5, -0.5,  0.5,  0.0,  0.0),
      Vertex(-0.5,  0.5,  0.5,  1.0,  0.0)
    ]

  /** Box vertices 18 to 23: the face at x = 0.5. */
  const RightFace: seq<Vertex> := [
      Vertex( 0.5,  0.5,  0.5,  1.0,  0.0),
      Vertex( 0.5,  0.5, -0.5,  1.0,  1.0),
      Vertex( 0.5, -0.5, -0.5,  0.0,  1.0),
      Vertex( 0.5, -0.5, -0.5,  0.0,  1.0),
      Vertex( 0.5, -0.5,  0.5,  0.0,  0.0),
      Vertex( 0.5,  0.5,  0.5,  1.0,  0.0)
    ]

  /** Box vertices 24 to 29: the face at y = -0.5. */
  const BottomFace: seq<Vertex> := [
      Vertex(-0.5, -0.5, -0.5,  0.0,  1.0),
      Vertex( 0.5, -0.5, -0.5,  1.0,  1.0),
      Vertex( 0.5, -0.5,  0.5,  1.0,  0.0),
      Vertex( 0.5, -0.5,  0.5,  1.0,  0.0),
      Vertex(-0.5, -0.5,  0.5,  0.0,  0.0),
      Vertex(-0.5, -0.5, -0.5,  0.0,  1.0)
    ]

  /** Box vertices 30 to 35: the face at y = 0.5. */
  const TopFace: seq<Vertex> := [
      Vertex(-0.5,  0.5, -0.5,  0.0,  1.0),
      Vertex( 0.5,  0.5, -0.5,  1.0,  1.0),
      Vertex( 0.5,  0.5,  0.5,  1.0,  0.0),
      Vertex( 0.5,  0.5,  0.5,  1.0,  0.0),
      Vertex(-0.5,  0.5,  0.5,  0.0,  0.0),
      Vertex(-0.5,  0.5, -0.5,  0.0,  1.0)
    ]

  function GetTriangle(): (r: Mesh)
    ensures r.vertices.Some? && |r.vertices.value| == 15 && r.indices == None
    ensures ValidFloats(r.vertices.value)
  {
    TablesValid();
    FlattenValid(Triangle);
    Mesh(Some(Flatten(Triangle)), None)
  }

  /** `get_rectangle`: four vertices and two triangles of indices over them. */
  function GetRectangle(): (r: Mesh)
    ensures r.vertices.Some? && |r.vertices.value| == 20
    ensures r.indices == Some([0, 1, 3, 1, 2, 3])
    ensures ValidFloats(r.vertices.value)
    ensures ValidIndices(r.indices.value, |r.vertices.value| / STRIDE)
  {
    TablesValid();
    FlattenValid(Rectangle);
    Mesh(Some(Flatten(Rectangle)), Some(RectangleIndices))
  }

  /** `get_box`: 36 vertices, six faces of two triangles, drawn without indices. */
  function GetBox(): (r: Mesh)
    ensures r.vertices.Some? && |r.vertices.value| == 180 && r.indices == None
    ensures ValidFloats(r.vertices.value)
  {
    TablesValid();
    FlattenValid(Box);
    Mesh(Some(Flatten(Box)), None)
  }

  /** `get_primitive(primitive)`: 0 triangle, 1 rectangle, 2 box, anything else (None, None). */
  function GetPrimitive(primitive: int): (r: Mesh)
    ensures 0 <= primitive <= 2 <==> r.vertices.Some?
    ensures !(0 <= primitive <= 2) ==> r == Mesh(None, None)
    ensures r.indices.Some? <==> primitive == 1
    ensures r.vertices.Some? ==> |r.vertices.value| % STRIDE == 0
  {
    if primitive == 0 then GetTriangle()
    else if primitive == 1 then GetRectangle()
    else if primitive == 2 then GetBox()
    else Mesh(None, None)
  }

  /** A position coordinate of the unit primitives: one of -0.5, 0, 0.5. */
  predicate OnGrid(c: real)
  {
    c == -0.5 || c == 0.0 || c == 0.5
  }

  /** A texture coordinate inside the texture. */
  predicate InTexture(t: real)
  {
    0.0 <= t <= 1.0
  }

  predicate ValidVertex(vertex: Vertex)
  {
    OnGrid(vertex.x) && OnGrid(vertex.y) && OnGrid(vertex.z) && InTexture(vertex.u) && InTexture(vertex.v)
  }

  ghost predicate ValidTable(vertices: seq<Vertex>)
  {
    forall k :: 0 <= k < |vertices| ==> ValidVertex(vertices[k])
  }

  /**
   * A flat float list as OpenGL reads it at stride 5: whole vertices, the first three
   * floats of each on the grid, the last two in [0, 1].
   */
  ghost predicate ValidFloats(floats: seq<real>)
  {
    && |floats| % STRIDE == 0
    && (forall k: nat, j: nat :: k < |floats| / STRIDE && j < 3 ==> OnGrid(FloatAt(floats, k, j)))
    && (forall k: nat, j: nat :: k < |floats| / STRIDE && 3 <= j < STRIDE ==> InTexture(FloatAt(floats, k, j)))
  }

  /** Float j of vertex k in a flat list read at stride 5. */
  function FloatAt(floats: seq<real>, k: nat, j: nat): real
    requires k < |floats| / STRIDE && j < STRIDE
  {
    floats[k * STRIDE + j]
  }

  /** Every index names one of the vertexCount vertices, in whole triangles. */
  ghost predicate ValidIndices(indices: seq<nat>, vertexCount: nat)
  {
    |indices| % 3 == 0 && forall i :: 0 <= i < |indices| ==> indices[i] < vertexCount
  }

  /** A table of valid vertices flattens to a valid float list. */
  lemma FlattenValid(vertices: seq<Vertex>)
    requires ValidTable(vertices)
    ensures ValidFloats(Flatten(vertices))
  {
    var floats := Flatten(vertices);
    assert |floats| / STRIDE == |vertices|;
    forall k: nat, j: nat | k < |floats| / STRIDE && j < 3
      ensures OnGrid(FloatAt(floats, k, j))
    {
      FlattenAt(vertices, k, j);
    }
    forall k: nat, j: nat | k < |floats| / STRIDE && 3 <= j < STRIDE
      ensures InTexture(FloatAt(floats, k, j))
    {
      FlattenAt(vertices, k, j);
    }
  }

  lemma TablesValid()
    ensures ValidTable(Triangle) && ValidTable(Rectangle)
    ensures ValidTable(BackFace) && ValidTable(FrontFace) && ValidTable(LeftFace)
    ensures ValidTable(RightFace) && ValidTable(BottomFace) && ValidTable(TopFace)
    ensures ValidTable(Box)
  {
  }

  /** The shape of each primitive: vertex count at stride 5, and its indices. */
  lemma PrimitiveShapes()
    ensures GetPrimitive(0).vertices.Some? && |GetPrimitive(0).vertices.value| == 15
    ensures GetPrimitive(0).indices == None
    ensures GetPrimitive(1).vertices.Some? && |GetPrimitive(1).vertices.value| == 20
    ensures GetPrimitive(1).indices == Some([0, 1, 3, 1, 2, 3])
    ensures GetPrimitive(2).vertices.Some? && |GetPrimitive(2).vertices.value| == 180
    ensures GetPrimitive(2).indices == None
  {
  }

  /**
   * Every table `get_primitive` returns is valid at stride 5, and the rectangle's indices
   * stay below its four vertices.
   */
  lemma PrimitivesWellFormed(primitive: int)
    requires 0 <= primitive <= 2
    ensures ValidFloats(GetPrimitive(primitive).vertices.value)
    ensures GetPrimitive(primitive).indices.Some? ==>
      ValidIndices(GetPrimitive(primitive).indices.value, |GetPrimitive(primitive).vertices.value| / STRIDE)
  {
    TablesValid();
    FlattenValid(Triangle);
    FlattenValid(Rectangle);
    FlattenValid(Box);
  }

  /**
   * Each six-vertex block of the box lies in one face plane: one coordinate is fixed at
   * -0.5 or 0.5.
   */
  lemma BoxFacesArePlanar()
    ensures |Box| == 36
    ensures forall k :: 0 <= k < 6 ==> Box[k].z == -0.5
    ensures forall k :: 6 <= k < 12 ==> Box[k].z == 0.5
    ensures forall k :: 12 <= k < 18 ==> Box[k].x == -0.5
    ensures forall k :: 18 <= k < 24 ==> Box[k].x == 0.5
    ensures forall k :: 24 <= k < 30 ==> Box[k].y == -0.5
    ensures forall k :: 30 <= k < 36 ==> Box[k].y == 0.5
  {
  }

  /** Two triangles sharing a diagonal: the second starts where the first ends and ends where it starts. */
  predicate SharesDiagonal(face: seq<Vertex>)
  {
    |face| == 6 && face[3] == face[2] && face[5] == face[0]
  }

  /** Each six-vertex block of the box is a quad drawn as two triangles over one diagonal. */
  lemma BoxFacesShareDiagonal()
    ensures SharesDiagonal(BackFace) && SharesDiagonal(FrontFace) && SharesDiagonal(LeftFace)
    ensures SharesDiagonal(RightFace) && SharesDiagonal(BottomFace) && SharesDiagonal(TopFace)
  {
  }
}
