/** What both OBJ loaders read for one triangle: a position, a texture
    coordinate and a normal for each of its three corners, gathered into
    the corner keys the packer de-duplicates. */
module ObjFace {
  import opened Glm
  import opened Vertex
  import opened ObjTypes
  import opened FaceNormal

  /** Every corner's vertex index names a full position. */
  predicate PositionsReadable(a: Attrib, face: seq<IndexT>)
    requires |face| == 3
  {
    Has3(a.vertices, face[0].vertexIndex) && Has3(a.vertices, face[1].vertexIndex)
    && Has3(a.vertices, face[2].vertexIndex)
  }

  /** The normals come from the file: its normal array is non-empty and no
      corner's normal index is negative. */
  predicate FileNormalsUsed(a: Attrib, face: seq<IndexT>)
    requires |face| == 3
  {
    |a.normals| > 0 && face[0].normalIndex >= 0 && face[1].normalIndex >= 0 && face[2].normalIndex >= 0
  }

  /** The texture coordinates come from the file, on the same terms. */
  predicate FileTexCoordsUsed(a: Attrib, face: seq<IndexT>)
    requires |face| == 3
  {
    |a.texcoords| > 0 && face[0].texcoordIndex >= 0 && face[1].texcoordIndex >= 0
    && face[2].texcoordIndex >= 0
  }

  /** What the loaders assume before reading a face under `format`: the
      positions are in range when the format has them, and the normals and
      texture coordinates are in range when they are taken from the file. */
  predicate FaceReadable(a: Attrib, face: seq<IndexT>, format: VertexFormat)
    requires |face| == 3
  {
    && (Position3 in format ==> PositionsReadable(a, face))
    && (Normal3 in format && FileNormalsUsed(a, face) ==>
          Has3(a.normals, face[0].normalIndex) && Has3(a.normals, face[1].normalIndex)
          && Has3(a.normals, face[2].normalIndex))
    && (TexCoord2 in format && FileTexCoordsUsed(a, face) ==>
          Has2(a.texcoords, face[0].texcoordIndex) && Has2(a.texcoords, face[1].texcoordIndex)
          && Has2(a.texcoords, face[2].texcoordIndex))
  }

  /** Every face of the shape is readable. */
  predicate ShapeReadable(a: Attrib, shape: Shape, format: VertexFormat) {
    forall f | 0 <= f < NumFaces(shape) :: FaceReadable(a, Face(shape, f), format)
  }

  /** The three positions; zero vectors when the format has none, where the
      loaders leave them uninitialised. */
  function Positions(a: Attrib, face: seq<IndexT>, format: VertexFormat): (ps: seq<Vec3>)
    requires |face| == 3 && FaceReadable(a, face, format)
    ensures |ps| == 3
  {
    if Position3 in format then
      [ReadVec3(a.vertices, face[0].vertexIndex), ReadVec3(a.vertices, face[1].vertexIndex),
       ReadVec3(a.vertices, face[2].vertexIndex)]
    else [Zero3, Zero3, Zero3]
  }

  /** The three texture coordinates, flipped vertically when read from the
      file and zero otherwise. */
  function TexCoords(a: Attrib, face: seq<IndexT>, format: VertexFormat): (ts: seq<Vec2>)
    requires |face| == 3 && FaceReadable(a, face, format)
    ensures |ts| == 3
  {
    if TexCoord2 in format && FileTexCoordsUsed(a, face) then
      [FlipV(ReadVec2(a.texcoords, face[0].texcoordIndex)), FlipV(ReadVec2(a.texcoords, face[1].texcoordIndex)),
       FlipV(ReadVec2(a.texcoords, face[2].texcoordIndex))]
    else [Zero2, Zero2, Zero2]
  }

  /** `operator[]` on the smoothing map: a missing key reads as the zero
      vector that `std::map` inserts for it. */
  function Lookup(smooth: map<int, Vec3>, key: int): Vec3 {
    if key in smooth then smooth[key] else Zero3
  }

  /** The three normals. From the file when it has them for every corner;
      otherwise, without smoothing normals, the face normal for all three,
      and with them each corner's smoothed vertex normal (left zero when a
      vertex index is negative). */
  function Normals(a: Attrib, face: seq<IndexT>, format: VertexFormat, normalize: Vec3 -> Vec3,
                   smooth: map<int, Vec3>): (ns: seq<Vec3>)
    requires |face| == 3 && FaceReadable(a, face, format)
    ensures |ns| == 3
  {
    if Normal3 !in format then [Zero3, Zero3, Zero3]
    else if FileNormalsUsed(a, face) then
      [ReadVec3(a.normals, face[0].normalIndex), ReadVec3(a.normals, face[1].normalIndex),
       ReadVec3(a.normals, face[2].normalIndex)]
    else if smooth == map[] then
      var ps := Positions(a, face, format);
      var n := CalculateNormalAsWritten(ps[0], ps[1], ps[2], normalize);
      [n, n, n]
    else if face[0].vertexIndex >= 0 && face[1].vertexIndex >= 0 && face[2].vertexIndex >= 0 then
      [Lookup(smooth, face[0].vertexIndex), Lookup(smooth, face[1].vertexIndex),
       Lookup(smooth, face[2].vertexIndex)]
    else [Zero3, Zero3, Zero3]
  }

  /** The face's three corner keys, in corner order. */
  function FaceCorners(a: Attrib, face: seq<IndexT>, format: VertexFormat, normalize: Vec3 -> Vec3,
                       smooth: map<int, Vec3>): (cs: seq<Corner>)
    requires |face| == 3 && FaceReadable(a, face, format)
    ensures |cs| == 3
  {
    var ps, ts, ns := Positions(a, face, format), TexCoords(a, face, format),
                      Normals(a, face, format, normalize, smooth);
    [Corner(ps[0], ts[0], ns[0]), Corner(ps[1], ts[1], ns[1]), Corner(ps[2], ts[2], ns[2])]
  }

  /** Corner `c`'s key holds the face's `c`-th position, texture
      coordinate and normal. */
  lemma FaceCornerParts(a: Attrib, face: seq<IndexT>, format: VertexFormat, normalize: Vec3 -> Vec3,
                        smooth: map<int, Vec3>, c: nat)
    requires |face| == 3 && FaceReadable(a, face, format) && c < 3
    ensures FaceCorners(a, face, format, normalize, smooth)[c]
            == Corner(Positions(a, face, format)[c], TexCoords(a, face, format)[c],
                      Normals(a, face, format, normalize, smooth)[c])
  {
  }

  /** Corner `c`'s position, read at its own vertex index. */
  lemma PositionAt(a: Attrib, face: seq<IndexT>, format: VertexFormat, c: nat)
    requires |face| == 3 && FaceReadable(a, face, format) && c < 3 && Position3 in format
    ensures Has3(a.vertices, face[c].vertexIndex)
    ensures Positions(a, face, format)[c] == ReadVec3(a.vertices, face[c].vertexIndex)
  {
  }

  /** Corner `c`'s texture coordinate, read at its own index when the file
      has them for the whole face. */
  lemma TexCoordAt(a: Attrib, face: seq<IndexT>, format: VertexFormat, c: nat)
    requires |face| == 3 && FaceReadable(a, face, format) && c < 3 && TexCoord2 in format
    ensures FileTexCoordsUsed(a, face) ==> Has2(a.texcoords, face[c].texcoordIndex)
    ensures TexCoords(a, face, format)[c]
            == if FileTexCoordsUsed(a, face) then FlipV(ReadVec2(a.texcoords, face[c].texcoordIndex)) else Zero2
  {
  }

  /** Corner `c`'s normal without smoothing normals: the file's at its own
      index, or the face normal. */
  lemma FlatNormalAt(a: Attrib, face: seq<IndexT>, format: VertexFormat, normalize: Vec3 -> Vec3, c: nat)
    requires |face| == 3 && FaceReadable(a, face, format) && c < 3 && Normal3 in format
    ensures FileNormalsUsed(a, face) ==> Has3(a.normals, face[c].normalIndex)
    ensures var ps := Positions(a, face, format);
            Normals(a, face, format, normalize, map[])[c]
            == if FileNormalsUsed(a, face) then ReadVec3(a.normals, face[c].normalIndex)
               else CalculateNormalAsWritten(ps[0], ps[1], ps[2], normalize)
  {
  }

  /** With smoothing normals and no file normals, corner `c` looks its
      normal up at its own vertex index. */
  lemma SmoothedNormal(a: Attrib, face: seq<IndexT>, format: VertexFormat, normalize: Vec3 -> Vec3,
                       smooth: map<int, Vec3>, c: nat)
    requires |face| == 3 && FaceReadable(a, face, format) && c < 3
    requires Normal3 in format && !FileNormalsUsed(a, face) && smooth != map[]
    requires face[0].vertexIndex >= 0 && face[1].vertexIndex >= 0 && face[2].vertexIndex >= 0
    ensures Normals(a, face, format, normalize, smooth)[c] == Lookup(smooth, face[c].vertexIndex)
  {
  }

  /** The corner keys of the first `n` faces, in the order the loaders
      visit them: corner `c` of face `f` is key `3 * f + c`. */
  function ShapeCorners(a: Attrib, shape: Shape, n: nat, format: VertexFormat, normalize: Vec3 -> Vec3,
                        smooth: map<int, Vec3>): (cs: seq<Corner>)
    requires n <= NumFaces(shape) && ShapeReadable(a, shape, format)
    ensures |cs| == 3 * n
    ensures forall f, c | 0 <= f < n && 0 <= c < 3 ::
              cs[3 * f + c] == FaceCorners(a, Face(shape, f), format, normalize, smooth)[c]
    decreases n
  {
    if n == 0 then []
    else
      ShapeCorners(a, shape, n - 1, format, normalize, smooth)
      + FaceCorners(a, Face(shape, n - 1), format, normalize, smooth)
  }

  /** Corner `c` of face `f` is key `3 * f + c` of the whole shape. */
  lemma ShapeCornerAt(a: Attrib, shape: Shape, format: VertexFormat, normalize: Vec3 -> Vec3,
                      smooth: map<int, Vec3>, f: nat, c: nat)
    requires ShapeReadable(a, shape, format) && f < NumFaces(shape) && c < 3
    ensures 3 * f + c < |ShapeCorners(a, shape, NumFaces(shape), format, normalize, smooth)|
    ensures ShapeCorners(a, shape, NumFaces(shape), format, normalize, smooth)[3 * f + c]
            == FaceCorners(a, Face(shape, f), format, normalize, smooth)[c]
  {
  }
}
