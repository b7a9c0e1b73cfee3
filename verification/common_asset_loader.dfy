/** `Common::AssetLoader::LoadObjFile`: the parsed OBJ data, shape by
    shape and face by face, turned into an interleaved vertex buffer and an
    index buffer. The parser is a parameter: `None` stands for a file
    `tinyobj::LoadObj` could not read. */
module CommonAssetLoader {
  import opened Glm
  import opened Options
  import opened Vertex
  import opened ObjTypes
  import opened FaceNormal
  import opened ObjPacker
  import opened ObjFace
  import opened ObjLoad

  /** This loader never smooths: every shape falls back on the flat face
      normal. */
  function NoSmoothing(data: ObjData): (smooths: seq<map<int, Vec3>>)
    ensures |smooths| == |data.shapes|
    ensures forall s | 0 <= s < |smooths| :: smooths[s] == map[]
  {
    seq(|data.shapes|, s => map[])
  }

  /** The load fails, leaving both buffers as they were, exactly when the
      file does not parse or has no shapes; otherwise every shape's corners
      are packed, each shape from a fresh corner map, after whatever the
      buffers already held. */
  method LoadObjFile(parsed: Option<ObjData>, format: VertexFormat, normalize: Vec3 -> Vec3,
                     v0: seq<real>, i0: seq<nat>)
    returns (ok: bool, v: seq<real>, idx: seq<nat>)
    requires parsed.Some? ==> Readable(parsed.value, format)
    ensures ok <==> parsed.Some? && |parsed.value.shapes| > 0
    ensures !ok ==> v == v0 && idx == i0
    ensures ok ==> v == Loaded(parsed.value, format, normalize, NoSmoothing(parsed.value), v0, i0).v
                   && idx == Loaded(parsed.value, format, normalize, NoSmoothing(parsed.value), v0, i0).idx
    ensures ok ==> v == v0 + EmitShapes(CornerLists(parsed.value, format, normalize, NoSmoothing(parsed.value)), format)
    ensures ok ==> |idx| == |i0| + 3 * TotalFaces(parsed.value.shapes)
    ensures ok && Stride(format) > 0 ==> forall t | |i0| <= t < |idx| :: idx[t] < |v|
  {
    if parsed.None? {
      return false, v0, i0;
    }
    var data := parsed.value;
    if |data.shapes| == 0 {
      return false, v0, i0;
    }
    v, idx := PackShapes(CornerLists(data, format, normalize, NoSmoothing(data)), format, v0, i0);
    LoadedIndexCount(data, format, normalize, NoSmoothing(data), v0, i0);
    ok := true;
  }

  /** A loaded position is the one the file gives for the corner's vertex
      index. */
  lemma LoadedPosition(data: ObjData, format: VertexFormat, normalize: Vec3 -> Vec3, v0: seq<real>, i0: seq<nat>,
                       s: nat, f: nat, c: nat)
    requires Readable(data, format) && Position3 in format
    requires s < |data.shapes| && f < NumFaces(data.shapes[s]) && c < 3
    requires |Loaded(data, format, normalize, NoSmoothing(data), v0, i0).v| <= UInt32Modulus
    ensures Slot(data, format, normalize, NoSmoothing(data), i0, s, f, c) < |Loaded(data, format, normalize, NoSmoothing(data), v0, i0).idx|
    ensures var p := Loaded(data, format, normalize, NoSmoothing(data), v0, i0);
            var face := Face(data.shapes[s], f);
            Stride(format) <= p.idx[Slot(data, format, normalize, NoSmoothing(data), i0, s, f, c)] + 1 <= |p.v|
            && Has3(data.attrib.vertices, face[c].vertexIndex)
            && ReadVertex(p.v, p.idx[Slot(data, format, normalize, NoSmoothing(data), i0, s, f, c)], format).position
               == Some(ReadVec3(data.attrib.vertices, face[c].vertexIndex))
  {
    var p := Loaded(data, format, normalize, NoSmoothing(data), v0, i0);
    var face := Face(data.shapes[s], f);
    var key := FaceCorners(data.attrib, face, format, normalize, map[])[c];
    assert NoSmoothing(data)[s] == map[];
    LoadedCorner(data, format, normalize, NoSmoothing(data), v0, i0, s, f, c);
    ReadVertexOfBlock(p.v, p.idx[Slot(data, format, normalize, NoSmoothing(data), i0, s, f, c)], key, format);
    assert FaceReadable(data.attrib, face, format);
    FaceCornerParts(data.attrib, face, format, normalize, map[], c);
    PositionAt(data.attrib, face, format, c);
  }

  /** A loaded texture coordinate is the file's, flipped vertically, when
      the file has one for every corner of the face, and zero otherwise. */
  lemma LoadedTexCoord(data: ObjData, format: VertexFormat, normalize: Vec3 -> Vec3, v0: seq<real>, i0: seq<nat>,
                       s: nat, f: nat, c: nat)
    requires Readable(data, format) && TexCoord2 in format
    requires s < |data.shapes| && f < NumFaces(data.shapes[s]) && c < 3
    requires |Loaded(data, format, normalize, NoSmoothing(data), v0, i0).v| <= UInt32Modulus
    ensures Slot(data, format, normalize, NoSmoothing(data), i0, s, f, c) < |Loaded(data, format, normalize, NoSmoothing(data), v0, i0).idx|
    ensures var p := Loaded(data, format, normalize, NoSmoothing(data), v0, i0);
            var face := Face(data.shapes[s], f);
            Stride(format) <= p.idx[Slot(data, format, normalize, NoSmoothing(data), i0, s, f, c)] + 1 <= |p.v|
            && (FileTexCoordsUsed(data.attrib, face) ==> Has2(data.attrib.texcoords, face[c].texcoordIndex))
            && ReadVertex(p.v, p.idx[Slot(data, format, normalize, NoSmoothing(data), i0, s, f, c)], format).texCoord
               == Some(if FileTexCoordsUsed(data.attrib, face)
                       then FlipV(ReadVec2(data.attrib.texcoords, face[c].texcoordIndex))
                       else Zero2)
  {
    var p := Loaded(data, format, normalize, NoSmoothing(data), v0, i0);
    var face := Face(data.shapes[s], f);
    var key := FaceCorners(data.attrib, face, format, normalize, map[])[c];
    assert NoSmoothing(data)[s] == map[];
    LoadedCorner(data, format, normalize, NoSmoothing(data), v0, i0, s, f, c);
    ReadVertexOfBlock(p.v, p.idx[Slot(data, format, normalize, NoSmoothing(data), i0, s, f, c)], key, format);
    assert FaceReadable(data.attrib, face, format);
    FaceCornerParts(data.attrib, face, format, normalize, map[], c);
    TexCoordAt(data.attrib, face, format, c);
  }

  /** A loaded normal is the file's when the file has one for every corner
      of the face; otherwise all three corners get the face normal of the
      positions. */
  lemma LoadedNormal(data: ObjData, format: VertexFormat, normalize: Vec3 -> Vec3, v0: seq<real>, i0: seq<nat>,
                     s: nat, f: nat, c: nat)
    requires Readable(data, format) && Normal3 in format
    requires s < |data.shapes| && f < NumFaces(data.shapes[s]) && c < 3
    requires |Loaded(data, format, normalize, NoSmoothing(data), v0, i0).v| <= UInt32Modulus
    ensures Slot(data, format, normalize, NoSmoothing(data), i0, s, f, c) < |Loaded(data, format, normalize, NoSmoothing(data), v0, i0).idx|
    ensures var p := Loaded(data, format, normalize, NoSmoothing(data), v0, i0);
            var face := Face(data.shapes[s], f);
            var ps := Positions(data.attrib, face, format);
            Stride(format) <= p.idx[Slot(data, format, normalize, NoSmoothing(data), i0, s, f, c)] + 1 <= |p.v|
            && (FileNormalsUsed(data.attrib, face) ==> Has3(data.attrib.normals, face[c].normalIndex))
            && ReadVertex(p.v, p.idx[Slot(data, format, normalize, NoSmoothing(data), i0, s, f, c)], format).normal
               == Some(if FileNormalsUsed(data.attrib, face)
                       then ReadVec3(data.attrib.normals, face[c].normalIndex)
                       else CalculateNormalAsWritten(ps[0], ps[1], ps[2], normalize))
  {
    var p := Loaded(data, format, normalize, NoSmoothing(data), v0, i0);
    var face := Face(data.shapes[s], f);
    var key := FaceCorners(data.attrib, face, format, normalize, map[])[c];
    assert NoSmoothing(data)[s] == map[];
    LoadedCorner(data, format, normalize, NoSmoothing(data), v0, i0, s, f, c);
    ReadVertexOfBlock(p.v, p.idx[Slot(data, format, normalize, NoSmoothing(data), i0, s, f, c)], key, format);
    assert FaceReadable(data.attrib, face, format);
    FaceCornerParts(data.attrib, face, format, normalize, map[], c);
    FlatNormalAt(data.attrib, face, format, normalize, c);
  }
}
