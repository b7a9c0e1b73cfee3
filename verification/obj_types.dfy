/** The parsed OBJ data the asset loaders start from (what `tinyobj::LoadObj`
    fills in), and the corner key the loaders de-duplicate on. */
module ObjTypes {
  import opened Glm

  /** `tinyobj::index_t`: the indices one face corner uses into the position,
      normal and texture-coordinate arrays; a negative index means absent. */
  datatype IndexT = IndexT(vertexIndex: int, normalIndex: int, texcoordIndex: int)

  /** `tinyobj::attrib_t`: flat float arrays holding 3 floats per position,
      3 per normal and 2 per texture coordinate. */
  datatype Attrib = Attrib(vertices: seq<real>, normals: seq<real>, texcoords: seq<real>)

  /** `tinyobj::shape_t`: the corners of its triangles, three per face, and
      the smoothing group id (`unsigned int`) of each face. */
  datatype Shape = Shape(indices: seq<IndexT>, smoothingGroupIds: seq<nat>)

  /** What a successful parse produces. */
  datatype ObjData = ObjData(attrib: Attrib, shapes: seq<Shape>)

  /** `PackedVertex`: the de-duplication key of one face corner. */
  datatype Corner = Corner(position: Vec3, texCoord: Vec2, normal: Vec3)

  /** The faces the loaders visit: `indices.size() / 3`; one or two trailing
      indices form no face. */
  function NumFaces(shape: Shape): nat {
    |shape.indices| / 3
  }

  /** The three corners of face `f`. */
  function Face(shape: Shape, f: nat): (face: seq<IndexT>)
    requires f < NumFaces(shape)
    ensures |face| == 3
    ensures forall k | 0 <= k < 3 :: face[k] == shape.indices[3 * f + k]
  {
    shape.indices[3 * f .. 3 * f + 3]
  }

  /** `xs` holds a full vec3 at index `i`. */
  predicate Has3(xs: seq<real>, i: int) {
    0 <= i && 3 * i + 2 < |xs|
  }

  /** `xs` holds a full vec2 at index `i`. */
  predicate Has2(xs: seq<real>, i: int) {
    0 <= i && 2 * i + 1 < |xs|
  }

  function ReadVec3(xs: seq<real>, i: int): Vec3
    requires Has3(xs, i)
  {
    Vec3(xs[3 * i], xs[3 * i + 1], xs[3 * i + 2])
  }

  function ReadVec2(xs: seq<real>, i: int): Vec2
    requires Has2(xs, i)
  {
    Vec2(xs[2 * i], xs[2 * i + 1])
  }

  /** Texture-coordinate orientation change applied on load: v becomes 1 - v. */
  function FlipV(t: Vec2): (r: Vec2)
    ensures r.x == t.x && r.y + t.y == 1.0
  {
    Vec2(t.x, 1.0 - t.y)
  }

  /** Flipping twice restores the coordinate read from the file. */
  lemma FlipVInvolution(t: Vec2)
    ensures FlipV(FlipV(t)) == t
  {
  }
}
