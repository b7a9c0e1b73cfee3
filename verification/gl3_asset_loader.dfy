/** `GL3::AssetLoader::LoadObjFile`: the Common loader plus smoothing
    normals. A shape with a non-zero smoothing group id gets one normal per
    vertex index, the normalised sum of the face normals around it, and a
    face without file normals uses those instead of its flat face normal. */
module Gl3AssetLoader {
  import opened Glm
  import opened Options
  import opened Vertex
  import opened ObjTypes
  import opened FaceNormal
  import opened ObjPacker
  import opened ObjFace
  import opened ObjLoad
  import Common = CommonAssetLoader

  /** Some face of the shape has a non-zero smoothing group id. */
  predicate SmoothingGroupPresent(shape: Shape) {
    exists i | 0 <= i < |shape.smoothingGroupIds| :: shape.smoothingGroupIds[i] > 0
  }

  method HasSmoothingGroup(shape: Shape) returns (b: bool)
    ensures b <==> SmoothingGroupPresent(shape)
  {
    var ids := shape.smoothingGroupIds;
    for i := 0 to |ids|
      invariant forall j | 0 <= j < i :: ids[j] == 0
    {
      if ids[i] > 0 {
        return true;
      }
    }
    return false;
  }

  /** Every face's positions are in range; the smoothing pass reads them
      whatever the format asks for. */
  predicate PositionsAllReadable(a: Attrib, shape: Shape) {
    forall f | 0 <= f < NumFaces(shape) :: PositionsReadable(a, Face(shape, f))
  }

  /** The face normal of face `f`, as `CalculateNormal` computes it. */
  function FaceNormalOf(a: Attrib, shape: Shape, f: nat, normalize: Vec3 -> Vec3): Vec3
    requires f < NumFaces(shape) && PositionsAllReadable(a, shape)
  {
    var face := Face(shape, f);
    CalculateNormalAsWritten(ReadVec3(a.vertices, face[0].vertexIndex), ReadVec3(a.vertices, face[1].vertexIndex),
                    ReadVec3(a.vertices, face[2].vertexIndex), normalize)
  }

  /** The find-then-insert-or-add step of the accumulation pass. */
  function AddAt(m: map<int, Vec3>, key: int, n: Vec3): map<int, Vec3> {
    if key in m then m[key := Add3(m[key], n)] else m[key := n]
  }

  /** Inserting or adding makes `key` a key and no other. */
  lemma AddAtKeys(m: map<int, Vec3>, key: int, n: Vec3, k: int)
    ensures k in AddAt(m, key, n) <==> k in m || k == key
  {
  }

  /** Inserting or adding is the same as adding `n` to what `operator[]`
      reads at `key`. */
  lemma AddAtLookup(m: map<int, Vec3>, key: int, n: Vec3, k: int)
    ensures Lookup(AddAt(m, key, n), k) == Add3(Lookup(m, k), if k == key then n else Zero3)
  {
  }

  /** The first `i` corners of `face` each add `n` at their vertex index. */
  function AddCorners(m: map<int, Vec3>, face: seq<IndexT>, i: nat, n: Vec3): map<int, Vec3>
    requires i <= |face|
    decreases i
  {
    if i == 0 then m else AddAt(AddCorners(m, face, i - 1, n), face[i - 1].vertexIndex, n)
  }

  /** The map after the first `n` faces of the accumulation pass. */
  function Accumulate(a: Attrib, shape: Shape, n: nat, normalize: Vec3 -> Vec3): map<int, Vec3>
    requires n <= NumFaces(shape) && PositionsAllReadable(a, shape)
    decreases n
  {
    if n == 0 then map[]
    else AddCorners(Accumulate(a, shape, n - 1, normalize), Face(shape, n - 1), 3, FaceNormalOf(a, shape, n - 1, normalize))
  }

  /** Vertex `key` is one of the face's three corners. */
  predicate InFace(face: seq<IndexT>, key: int)
    requires |face| == 3
  {
    face[0].vertexIndex == key || face[1].vertexIndex == key || face[2].vertexIndex == key
  }

  /** Vertex `key` is a corner of one of the first `n` faces. */
  predicate Touched(shape: Shape, n: nat, key: int)
    requires n <= NumFaces(shape)
  {
    exists f | 0 <= f < n :: InFace(Face(shape, f), key)
  }

  /** A face's normal once for each of its corners at vertex `key`. */
  function Share(face: seq<IndexT>, key: int, n: Vec3): Vec3
    requires |face| == 3
  {
    Add3(Add3(if face[0].vertexIndex == key then n else Zero3, if face[1].vertexIndex == key then n else Zero3),
         if face[2].vertexIndex == key then n else Zero3)
  }

  /** Reference definition of the smoothing sum: over the first `n` faces,
      each face's normal counted once per corner it has at vertex `key`. */
  function NormalSum(a: Attrib, shape: Shape, n: nat, key: int, normalize: Vec3 -> Vec3): Vec3
    requires n <= NumFaces(shape) && PositionsAllReadable(a, shape)
    decreases n
  {
    if n == 0 then Zero3
    else Add3(NormalSum(a, shape, n - 1, key, normalize), Share(Face(shape, n - 1), key, FaceNormalOf(a, shape, n - 1, normalize)))
  }

  /** One face's pass makes its three vertex indices keys ... */
  lemma AddFaceKeys(m: map<int, Vec3>, face: seq<IndexT>, n: Vec3, k: int)
    requires |face| == 3
    ensures k in AddCorners(m, face, 3, n) <==>
              k in m || k == face[0].vertexIndex || k == face[1].vertexIndex || k == face[2].vertexIndex
  {
    var m1 := AddAt(m, face[0].vertexIndex, n);
    var m2 := AddAt(m1, face[1].vertexIndex, n);
    var m3 := AddAt(m2, face[2].vertexIndex, n);
    assert AddCorners(m, face, 3, n) == m3;
    AddAtKeys(m, face[0].vertexIndex, n, k);
    AddAtKeys(m1, face[1].vertexIndex, n, k);
    AddAtKeys(m2, face[2].vertexIndex, n, k);
  }

  /** ... and adds its normal at each of them, once per corner. */
  lemma AddFaceLookup(m: map<int, Vec3>, face: seq<IndexT>, n: Vec3, k: int)
    requires |face| == 3
    ensures Lookup(AddCorners(m, face, 3, n), k) == Add3(Lookup(m, k), Share(face, k, n))
  {
    var m1 := AddAt(m, face[0].vertexIndex, n);
    var m2 := AddAt(m1, face[1].vertexIndex, n);
    var m3 := AddAt(m2, face[2].vertexIndex, n);
    assert AddCorners(m, face, 3, n) == m3;
    var p0 := if k == face[0].vertexIndex then n else Zero3;
    var p1 := if k == face[1].vertexIndex then n else Zero3;
    var p2 := if k == face[2].vertexIndex then n else Zero3;
    AddAtLookup(m, face[0].vertexIndex, n, k);
    AddAtLookup(m1, face[1].vertexIndex, n, k);
    AddAtLookup(m2, face[2].vertexIndex, n, k);
    assert Share(face, k, n) == Add3(Add3(p0, p1), p2);
    Add3Assoc(Lookup(m, k), p0, p1, p2);
  }

  lemma Add3Assoc(x: Vec3, p: Vec3, q: Vec3, r: Vec3)
    ensures Add3(Add3(Add3(x, p), q), r) == Add3(x, Add3(Add3(p, q), r))
  {
  }

  /** Face `n - 1` adds its three vertex indices to those touched. */
  lemma TouchedStep(shape: Shape, n: nat, key: int)
    requires 0 < n <= NumFaces(shape)
    ensures Touched(shape, n, key) <==> Touched(shape, n - 1, key) || InFace(Face(shape, n - 1), key)
  {
    if Touched(shape, n, key) {
      var f :| 0 <= f < n && InFace(Face(shape, f), key);
      if f < n - 1 {
        assert Touched(shape, n - 1, key);
      }
    }
    if Touched(shape, n - 1, key) {
      var f :| 0 <= f < n - 1 && InFace(Face(shape, f), key);
      assert Touched(shape, n, key);
    }
    if InFace(Face(shape, n - 1), key) {
      assert Touched(shape, n, key);
    }
  }

  /** The accumulation pass's keys are the vertex indices the faces touch. */
  lemma {:induction false} AccumulateKeys(a: Attrib, shape: Shape, n: nat, normalize: Vec3 -> Vec3)
    requires n <= NumFaces(shape) && PositionsAllReadable(a, shape)
    ensures forall key :: key in Accumulate(a, shape, n, normalize) <==> Touched(shape, n, key)
    decreases n
  {
    if n > 0 {
      AccumulateKeys(a, shape, n - 1, normalize);
      var m, face, nf := Accumulate(a, shape, n - 1, normalize), Face(shape, n - 1), FaceNormalOf(a, shape, n - 1, normalize);
      assert Accumulate(a, shape, n, normalize) == AddCorners(m, face, 3, nf);
      forall key
        ensures key in Accumulate(a, shape, n, normalize) <==> Touched(shape, n, key)
      {
        TouchedStep(shape, n, key);
        AddFaceKeys(m, face, nf, key);
      }
    }
  }

  /** The accumulation pass computes the reference sum: `operator[]` on it
      reads, at every vertex index, the sum of the face normals around it. */
  lemma {:induction false} AccumulateIsNormalSum(a: Attrib, shape: Shape, n: nat, normalize: Vec3 -> Vec3)
    requires n <= NumFaces(shape) && PositionsAllReadable(a, shape)
    ensures forall key :: Lookup(Accumulate(a, shape, n, normalize), key) == NormalSum(a, shape, n, key, normalize)
    decreases n
  {
    if n > 0 {
      AccumulateIsNormalSum(a, shape, n - 1, normalize);
      var m, face, nf := Accumulate(a, shape, n - 1, normalize), Face(shape, n - 1), FaceNormalOf(a, shape, n - 1, normalize);
      assert Accumulate(a, shape, n, normalize) == AddCorners(m, face, 3, nf);
      forall key
        ensures Lookup(Accumulate(a, shape, n, normalize), key) == NormalSum(a, shape, n, key, normalize)
      {
        AddFaceLookup(m, face, nf, key);
      }
    }
  }

  /** The smoothing normals of a shape: every vertex index a face touches,
      mapped to the normalised sum of the face normals around it. */
  function SmoothNormals(a: Attrib, shape: Shape, normalize: Vec3 -> Vec3): map<int, Vec3>
    requires PositionsAllReadable(a, shape)
  {
    var acc := Accumulate(a, shape, NumFaces(shape), normalize);
    map key | key in acc :: normalize(acc[key])
  }

  /** `ComputeSmoothingNormals`: the accumulation pass, insert-or-add at
      each corner's vertex index, then every value normalised in place. */
  method ComputeSmoothingNormals(a: Attrib, shape: Shape, normalize: Vec3 -> Vec3) returns (smooth: map<int, Vec3>)
    requires PositionsAllReadable(a, shape)
    ensures smooth == SmoothNormals(a, shape, normalize)
    ensures forall key :: key in smooth <==> Touched(shape, NumFaces(shape), key)
    ensures forall key | key in smooth :: smooth[key] == normalize(NormalSum(a, shape, NumFaces(shape), key, normalize))
  {
    var acc: map<int, Vec3> := map[];
    for f := 0 to NumFaces(shape)
      invariant acc == Accumulate(a, shape, f, normalize)
    {
      acc := AddFaceNormal(acc, Face(shape, f), FaceNormalOf(a, shape, f, normalize));
    }
    smooth := map key | key in acc :: normalize(acc[key]);
    SmoothNormalsAreSums(a, shape, normalize);
  }

  /** The inner loop: each corner in turn finds its vertex index and
      either inserts the face normal there or adds it. */
  method AddFaceNormal(acc0: map<int, Vec3>, face: seq<IndexT>, n: Vec3) returns (acc: map<int, Vec3>)
    requires |face| == 3
    ensures acc == AddCorners(acc0, face, 3, n)
    ensures forall k :: k in acc <==> k in acc0 || k == face[0].vertexIndex || k == face[1].vertexIndex || k == face[2].vertexIndex
  {
    acc := acc0;
    for i := 0 to 3
      invariant acc == AddCorners(acc0, face, i, n)
    {
      var key := face[i].vertexIndex;
      if key in acc {
        acc := acc[key := Add3(acc[key], n)];
      } else {
        acc := acc[key := n];
      }
    }
    forall k
      ensures k in acc <==> k in acc0 || k == face[0].vertexIndex || k == face[1].vertexIndex || k == face[2].vertexIndex
    {
      AddFaceKeys(acc0, face, n, k);
    }
  }

  /** The smoothing map holds exactly the touched vertex indices, each with
      the normalised reference sum. */
  lemma SmoothNormalsAreSums(a: Attrib, shape: Shape, normalize: Vec3 -> Vec3)
    requires PositionsAllReadable(a, shape)
    ensures forall key :: key in SmoothNormals(a, shape, normalize) <==> Touched(shape, NumFaces(shape), key)
    ensures forall key | key in SmoothNormals(a, shape, normalize) ::
              SmoothNormals(a, shape, normalize)[key] == normalize(NormalSum(a, shape, NumFaces(shape), key, normalize))
  {
    var acc := Accumulate(a, shape, NumFaces(shape), normalize);
    AccumulateKeys(a, shape, NumFaces(shape), normalize);
    AccumulateIsNormalSum(a, shape, NumFaces(shape), normalize);
    forall key | key in acc
      ensures acc[key] == NormalSum(a, shape, NumFaces(shape), key, normalize)
    {
      assert Lookup(acc, key) == acc[key];
    }
  }

  /** The map a shape's faces fall back on: computed only when the shape
      has a smoothing group, empty otherwise. */
  function ShapeSmoothing(a: Attrib, shape: Shape, normalize: Vec3 -> Vec3): map<int, Vec3>
    requires SmoothingGroupPresent(shape) ==> PositionsAllReadable(a, shape)
  {
    if SmoothingGroupPresent(shape) then SmoothNormals(a, shape, normalize) else map[]
  }

  /** Whenever a shape has a smoothing group, every corner's vertex index
      is a key of its smoothing map, so `operator[]` never inserts a zero
      normal; and the map is empty exactly when there is no smoothing
      group or no face, so the flat face normal is used only then. */
  lemma SmoothingCoversCorners(a: Attrib, shape: Shape, normalize: Vec3 -> Vec3)
    requires SmoothingGroupPresent(shape) ==> PositionsAllReadable(a, shape)
    ensures SmoothingGroupPresent(shape) ==>
              forall f, c | 0 <= f < NumFaces(shape) && 0 <= c < 3 ::
                Face(shape, f)[c].vertexIndex in ShapeSmoothing(a, shape, normalize)
    ensures ShapeSmoothing(a, shape, normalize) == map[] <==> !SmoothingGroupPresent(shape) || NumFaces(shape) == 0
  {
    if SmoothingGroupPresent(shape) {
      var smooth := ShapeSmoothing(a, shape, normalize);
      SmoothNormalsAreSums(a, shape, normalize);
      forall f, c | 0 <= f < NumFaces(shape) && 0 <= c < 3
        ensures Face(shape, f)[c].vertexIndex in smooth
      {
        assert InFace(Face(shape, f), Face(shape, f)[c].vertexIndex);
      }
      if NumFaces(shape) == 0 {
        assert smooth.Keys == {};
      }
    }
  }

  /** What this loader reads: every face under `format`, plus every
      position of a shape that has a smoothing group. */
  predicate Gl3Readable(data: ObjData, format: VertexFormat) {
    && Readable(data, format)
    && forall s | 0 <= s < |data.shapes| ::
         SmoothingGroupPresent(data.shapes[s]) ==> PositionsAllReadable(data.attrib, data.shapes[s])
  }

  /** Each shape's smoothing map. */
  function Smoothings(data: ObjData, normalize: Vec3 -> Vec3): (smooths: seq<map<int, Vec3>>)
    requires forall s | 0 <= s < |data.shapes| ::
               SmoothingGroupPresent(data.shapes[s]) ==> PositionsAllReadable(data.attrib, data.shapes[s])
    ensures |smooths| == |data.shapes|
    ensures forall s | 0 <= s < |smooths| :: smooths[s] == ShapeSmoothing(data.attrib, data.shapes[s], normalize)
  {
    seq(|data.shapes|, s requires 0 <= s < |data.shapes| => ShapeSmoothing(data.attrib, data.shapes[s], normalize))
  }

  /** The load fails, leaving both buffers as they were, exactly when the
      file does not parse or has no shapes; otherwise each shape computes
      its smoothing map when it has a smoothing group and packs its corners
      from a fresh corner map. */
  method LoadObjFile(parsed: Option<ObjData>, format: VertexFormat, normalize: Vec3 -> Vec3,
                     v0: seq<real>, i0: seq<nat>)
    returns (ok: bool, v: seq<real>, idx: seq<nat>)
    requires parsed.Some? ==> Gl3Readable(parsed.value, format)
    ensures ok <==> parsed.Some? && |parsed.value.shapes| > 0
    ensures !ok ==> v == v0 && idx == i0
    ensures ok ==> v == Loaded(parsed.value, format, normalize, Smoothings(parsed.value, normalize), v0, i0).v
                   && idx == Loaded(parsed.value, format, normalize, Smoothings(parsed.value, normalize), v0, i0).idx
    ensures ok ==> v == v0 + EmitShapes(CornerLists(parsed.value, format, normalize, Smoothings(parsed.value, normalize)), format)
    ensures ok ==> |idx| == |i0| + 3 * TotalFaces(parsed.value.shapes)
    ensures ok && Stride(format) > 0 ==> forall t | |i0| <= t < |idx| :: idx[t] < |v|
  {
    if parsed.None? {
      return false, v0, i0;
    }
    var data := parsed.value;
    if |data.shapes| == 0 {
      return false, v0, i0;
    }
    ghost var lists := CornerLists(data, format, normalize, Smoothings(data, normalize));
    v, idx := LoadShapes(data, format, normalize, lists, v0, i0);
    LoadedVertices(data, format, normalize, Smoothings(data, normalize), v0, i0);
    LoadedIndexCount(data, format, normalize, Smoothings(data, normalize), v0, i0);
    if Stride(format) > 0 {
      LoadedIndexBound(data, format, normalize, Smoothings(data, normalize), v0, i0);
    }
    ok := true;
  }

  /** The shape loop: every shape in turn, onto the same two buffers. */
  method LoadShapes(data: ObjData, format: VertexFormat, normalize: Vec3 -> Vec3, ghost lists: seq<seq<Corner>>,
                    v0: seq<real>, i0: seq<nat>)
    returns (v: seq<real>, idx: seq<nat>)
    requires Gl3Readable(data, format)
    requires lists == CornerLists(data, format, normalize, Smoothings(data, normalize))
    ensures v == PackAll(lists, format, v0, i0).v && idx == PackAll(lists, format, v0, i0).idx
    ensures v == v0 + EmitShapes(lists, format)
    ensures |idx| == |i0| + |Concat(lists)| && idx[..|i0|] == i0
    ensures Stride(format) > 0 ==> forall t | |i0| <= t < |idx| :: idx[t] < |v|
  {
    v, idx := v0, i0;
    for s := 0 to |data.shapes|
      invariant v == PackShapesUpTo(lists, s, format, v0, i0).v
      invariant idx == PackShapesUpTo(lists, s, format, v0, i0).idx
    {
      v, idx := LoadShape(data, s, format, normalize, lists, v, idx);
    }
    ShapesUpToBuffers(lists, |lists|, format, v0, i0);
    assert lists[..|lists|] == lists;
    if Stride(format) > 0 {
      ShapesIndexBound(lists, |lists|, format, v0, i0);
    }
  }

  /** One pass of the shape loop: the smoothing map when the shape has a
      smoothing group (empty otherwise), then the shape's corners packed
      from a fresh corner map onto the buffers so far. */
  method LoadShape(data: ObjData, s: nat, format: VertexFormat, normalize: Vec3 -> Vec3,
                   ghost lists: seq<seq<Corner>>, v0: seq<real>, i0: seq<nat>)
    returns (v: seq<real>, idx: seq<nat>)
    requires Gl3Readable(data, format) && s < |data.shapes|
    requires lists == CornerLists(data, format, normalize, Smoothings(data, normalize))
    ensures v == PackPrefix(lists[s], format, v0, i0).v
    ensures idx == PackPrefix(lists[s], format, v0, i0).idx
  {
    var shape := data.shapes[s];
    var smooth: map<int, Vec3> := map[];
    var has := HasSmoothingGroup(shape);
    if has {
      smooth := ComputeSmoothingNormals(data.attrib, shape, normalize);
    }
    assert ShapeReadable(data.attrib, shape, format);
    assert smooth == Smoothings(data, normalize)[s];
    var corners := ShapeCorners(data.attrib, shape, NumFaces(shape), format, normalize, smooth);
    v, idx := PackCorners(corners, format, v0, i0);
  }

  /** Without a smoothing group in any shape this loader produces exactly
      what the Common loader produces. */
  lemma SameAsCommonWithoutSmoothing(data: ObjData, format: VertexFormat, normalize: Vec3 -> Vec3,
                                     v0: seq<real>, i0: seq<nat>)
    requires Gl3Readable(data, format)
    requires forall s | 0 <= s < |data.shapes| :: !SmoothingGroupPresent(data.shapes[s])
    ensures Loaded(data, format, normalize, Smoothings(data, normalize), v0, i0)
            == Loaded(data, format, normalize, Common.NoSmoothing(data), v0, i0)
  {
    assert Smoothings(data, normalize) == Common.NoSmoothing(data);
  }

  /** A corner key of a face without file normals, in a shape with a
      smoothing group, carries its vertex's smoothed normal. */
  lemma SmoothCornerNormal(a: Attrib, shape: Shape, f: nat, c: nat, format: VertexFormat, normalize: Vec3 -> Vec3)
    requires f < NumFaces(shape) && c < 3 && Normal3 in format
    requires ShapeReadable(a, shape, format) && PositionsAllReadable(a, shape)
    requires SmoothingGroupPresent(shape) && !FileNormalsUsed(a, Face(shape, f))
    ensures FaceCorners(a, Face(shape, f), format, normalize, ShapeSmoothing(a, shape, normalize))[c].normal
            == normalize(NormalSum(a, shape, NumFaces(shape), Face(shape, f)[c].vertexIndex, normalize))
  {
    var face := Face(shape, f);
    var sm := SmoothNormals(a, shape, normalize);
    var key := face[c].vertexIndex;
    assert ShapeSmoothing(a, shape, normalize) == sm;
    assert Touched(shape, NumFaces(shape), key) by {
      assert InFace(Face(shape, f), key);
    }
    SmoothNormalsAreSums(a, shape, normalize);
    assert key in sm && sm != map[];
    assert PositionsReadable(a, face);
    SmoothedNormal(a, face, format, normalize, sm, c);
    FaceCornerParts(a, face, format, normalize, sm, c);
  }

  /** In a shape with a smoothing group, a corner whose face has no file
      normals reads back the normalised sum of the face normals around its
      vertex, so every corner at one vertex index gets the same normal. */
  lemma LoadedSmoothNormal(data: ObjData, format: VertexFormat, normalize: Vec3 -> Vec3, v0: seq<real>, i0: seq<nat>,
                           s: nat, f: nat, c: nat)
    requires Gl3Readable(data, format) && Normal3 in format
    requires s < |data.shapes| && f < NumFaces(data.shapes[s]) && c < 3
    requires SmoothingGroupPresent(data.shapes[s]) && !FileNormalsUsed(data.attrib, Face(data.shapes[s], f))
    requires |Loaded(data, format, normalize, Smoothings(data, normalize), v0, i0).v| <= UInt32Modulus
    ensures Slot(data, format, normalize, Smoothings(data, normalize), i0, s, f, c) < |Loaded(data, format, normalize, Smoothings(data, normalize), v0, i0).idx|
    ensures var p := Loaded(data, format, normalize, Smoothings(data, normalize), v0, i0);
            var shape := data.shapes[s];
            Stride(format) <= p.idx[Slot(data, format, normalize, Smoothings(data, normalize), i0, s, f, c)] + 1 <= |p.v|
            && PositionsAllReadable(data.attrib, shape)
            && ReadVertex(p.v, p.idx[Slot(data, format, normalize, Smoothings(data, normalize), i0, s, f, c)], format).normal
               == Some(normalize(NormalSum(data.attrib, shape, NumFaces(shape), Face(shape, f)[c].vertexIndex, normalize)))
  {
    var p := Loaded(data, format, normalize, Smoothings(data, normalize), v0, i0);
    var shape := data.shapes[s];
    var face := Face(shape, f);
    var sm := ShapeSmoothing(data.attrib, shape, normalize);
    var key := FaceCorners(data.attrib, face, format, normalize, sm)[c];
    LoadedCorner(data, format, normalize, Smoothings(data, normalize), v0, i0, s, f, c);
    ReadVertexOfBlock(p.v, p.idx[Slot(data, format, normalize, Smoothings(data, normalize), i0, s, f, c)], key, format);
    assert Readable(data, format) && ShapeReadable(data.attrib, shape, format);
    SmoothCornerNormal(data.attrib, shape, f, c, format, normalize);
  }
}
