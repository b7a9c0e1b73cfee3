/** What both `LoadObjFile`s do once each shape's smoothing map is known:
    every shape's corner keys, face by face, packed shape after shape onto
    the same two buffers, each shape from a fresh corner map. */
module ObjLoad {
  import opened Glm
  import opened Vertex
  import opened ObjTypes
  import opened ObjPacker
  import opened ObjFace

  /** Every face of every shape is readable under `format`. */
  predicate Readable(data: ObjData, format: VertexFormat) {
    forall s | 0 <= s < |data.shapes| :: ShapeReadable(data.attrib, data.shapes[s], format)
  }

  /** One corner list per shape; shape `s` falls back on `smooths[s]`. */
  function CornerLists(data: ObjData, format: VertexFormat, normalize: Vec3 -> Vec3,
                       smooths: seq<map<int, Vec3>>): (lists: seq<seq<Corner>>)
    requires Readable(data, format) && |smooths| == |data.shapes|
    ensures |lists| == |data.shapes|
  {
    seq(|data.shapes|, s requires 0 <= s < |data.shapes| =>
      ShapeCorners(data.attrib, data.shapes[s], NumFaces(data.shapes[s]), format, normalize, smooths[s]))
  }

  /** The buffers after a successful load. */
  function Loaded(data: ObjData, format: VertexFormat, normalize: Vec3 -> Vec3, smooths: seq<map<int, Vec3>>,
                  v0: seq<real>, i0: seq<nat>): Packed
    requires Readable(data, format) && |smooths| == |data.shapes|
  {
    var lists := CornerLists(data, format, normalize, smooths);
    PackAll(lists, format, v0, i0)
  }

  /** The whole faces of all shapes together. */
  function TotalFaces(shapes: seq<Shape>): nat
    decreases |shapes|
  {
    if |shapes| == 0 then 0 else TotalFaces(shapes[..|shapes| - 1]) + NumFaces(shapes[|shapes| - 1])
  }

  /** The first `n` shapes contribute three corner keys per whole face. */
  lemma {:induction false} CornerCount(data: ObjData, format: VertexFormat, normalize: Vec3 -> Vec3,
                                       smooths: seq<map<int, Vec3>>, n: nat)
    requires Readable(data, format) && |smooths| == |data.shapes| && n <= |data.shapes|
    ensures |Concat(CornerLists(data, format, normalize, smooths)[..n])| == 3 * TotalFaces(data.shapes[..n])
    decreases n
  {
    if n > 0 {
      var lists := CornerLists(data, format, normalize, smooths);
      CornerCount(data, format, normalize, smooths, n - 1);
      ConcatSnoc(lists, n - 1, format);
      assert data.shapes[..n][..n - 1] == data.shapes[..n - 1];
      assert ShapeReadable(data.attrib, data.shapes[n - 1], format);
    }
  }

  /** A load appends exactly three index entries per whole face of the
      file, trailing indices that form no face adding none, and keeps the
      entries the index buffer already held. */
  lemma LoadedIndexCount(data: ObjData, format: VertexFormat, normalize: Vec3 -> Vec3, smooths: seq<map<int, Vec3>>,
                         v0: seq<real>, i0: seq<nat>)
    requires Readable(data, format) && |smooths| == |data.shapes|
    ensures |Loaded(data, format, normalize, smooths, v0, i0).idx| == |i0| + 3 * TotalFaces(data.shapes)
    ensures Loaded(data, format, normalize, smooths, v0, i0).idx[..|i0|] == i0
  {
    var lists := CornerLists(data, format, normalize, smooths);
    ShapesUpToBuffers(lists, |lists|, format, v0, i0);
    CornerCount(data, format, normalize, smooths, |data.shapes|);
    assert lists[..|lists|] == lists;
    assert data.shapes[..|data.shapes|] == data.shapes;
  }

  /** A load appends, after the old vertex contents, the distinct corner
      keys of every shape in shape order. */
  lemma LoadedVertices(data: ObjData, format: VertexFormat, normalize: Vec3 -> Vec3, smooths: seq<map<int, Vec3>>,
                       v0: seq<real>, i0: seq<nat>)
    requires Readable(data, format) && |smooths| == |data.shapes|
    ensures Loaded(data, format, normalize, smooths, v0, i0).v
            == v0 + EmitShapes(CornerLists(data, format, normalize, smooths), format)
  {
    var lists := CornerLists(data, format, normalize, smooths);
    ShapesUpToBuffers(lists, |lists|, format, v0, i0);
    assert lists[..|lists|] == lists;
  }

  /** Every index entry a load appends lies inside the loaded vertex
      buffer, whenever the format gives vertices a non-zero size. */
  lemma LoadedIndexBound(data: ObjData, format: VertexFormat, normalize: Vec3 -> Vec3, smooths: seq<map<int, Vec3>>,
                         v0: seq<real>, i0: seq<nat>)
    requires Readable(data, format) && |smooths| == |data.shapes| && Stride(format) > 0
    ensures forall t | |i0| <= t < |Loaded(data, format, normalize, smooths, v0, i0).idx| ::
              Loaded(data, format, normalize, smooths, v0, i0).idx[t] < |Loaded(data, format, normalize, smooths, v0, i0).v|
  {
    var lists := CornerLists(data, format, normalize, smooths);
    ShapesIndexBound(lists, |lists|, format, v0, i0);
  }

  /** Where corner `c` of face `f` of shape `s` sits in the index buffer:
      after the corners of the earlier shapes and faces. */
  function Slot(data: ObjData, format: VertexFormat, normalize: Vec3 -> Vec3, smooths: seq<map<int, Vec3>>,
                i0: seq<nat>, s: nat, f: nat, c: nat): nat
    requires Readable(data, format) && |smooths| == |data.shapes|
    requires s < |data.shapes| && f < NumFaces(data.shapes[s]) && c < 3
  {
    |i0| + Offset(CornerLists(data, format, normalize, smooths), s) + 3 * f + c
  }

  /** Reading the loaded buffers back through corner `c` of face `f` of
      shape `s` gives that corner's key, when the vertex buffer stays
      within `unsigned int` range. */
  lemma LoadedCorner(data: ObjData, format: VertexFormat, normalize: Vec3 -> Vec3, smooths: seq<map<int, Vec3>>,
                     v0: seq<real>, i0: seq<nat>, s: nat, f: nat, c: nat)
    requires Readable(data, format) && |smooths| == |data.shapes| && Stride(format) > 0
    requires s < |data.shapes| && f < NumFaces(data.shapes[s]) && c < 3
    requires |Loaded(data, format, normalize, smooths, v0, i0).v| <= UInt32Modulus
    ensures Slot(data, format, normalize, smooths, i0, s, f, c) < |Loaded(data, format, normalize, smooths, v0, i0).idx|
    ensures BlockAt(Loaded(data, format, normalize, smooths, v0, i0).v,
                    Loaded(data, format, normalize, smooths, v0, i0).idx[Slot(data, format, normalize, smooths, i0, s, f, c)],
                    Emit(FaceCorners(data.attrib, Face(data.shapes[s], f), format, normalize, smooths[s])[c], format))
  {
    var lists := CornerLists(data, format, normalize, smooths);
    var shape, sm := data.shapes[s], smooths[s];
    assert ShapeReadable(data.attrib, shape, format);
    ShapeCornerAt(data.attrib, shape, format, normalize, sm, f, c);
    var key := FaceCorners(data.attrib, Face(shape, f), format, normalize, sm)[c];
    assert lists[s] == ShapeCorners(data.attrib, shape, NumFaces(shape), format, normalize, sm);
    ShapesReadBackKey(lists, format, v0, i0, s, 3 * f + c, key);
    assert Loaded(data, format, normalize, smooths, v0, i0) == PackAll(lists, format, v0, i0);
    assert Slot(data, format, normalize, smooths, i0, s, f, c) == |i0| + Offset(lists, s) + 3 * f + c;
  }
}
