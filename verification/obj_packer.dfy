/** The de-duplicating vertex packer at the end of both OBJ loaders: each
    face corner either reuses the index of an equal corner seen earlier in
    the same shape, or appends its floats to the vertex buffer and records
    `static_cast<unsigned int>(vertices.size() - 1)`, the offset of the
    last float just appended, as its index. */
module ObjPacker {
  import opened Glm
  import opened Options
  import opened Vertex
  import opened ObjTypes

  /** 2^32: the range of `unsigned int`. */
  const UInt32Modulus: int := 0x1_0000_0000

  /** `static_cast<unsigned int>` of a `size_t` expression: the value
      reduced into `[0, 2^32)`, so `size_t(0) - 1` becomes 2^32 - 1.
      Written as repeated reduction rather than `%` so that the solver does
      not bring modular arithmetic into every index fact;
      `ToUInt32IsMod` states that it is the remainder. */
  function ToUInt32(x: int): (r: nat)
    ensures r < UInt32Modulus
    ensures 0 <= x < UInt32Modulus ==> r == x
    ensures x == -1 ==> r == UInt32Modulus - 1
    ensures 0 <= x ==> r <= x
    decreases x < 0, if x < 0 then -x else x
  {
    if 0 <= x < UInt32Modulus then x
    else if x < 0 then ToUInt32(x + UInt32Modulus)
    else ToUInt32(x - UInt32Modulus)
  }

  lemma {:induction false} ToUInt32IsMod(x: int)
    ensures ToUInt32(x) == x % UInt32Modulus
    decreases x < 0, if x < 0 then -x else x
  {
    if x < 0 {
      ToUInt32IsMod(x + UInt32Modulus);
      ModShift(x);
    } else if x >= UInt32Modulus {
      ToUInt32IsMod(x - UInt32Modulus);
      ModShift(x - UInt32Modulus);
    }
  }

  lemma ModShift(x: int)
    ensures (x + UInt32Modulus) % UInt32Modulus == x % UInt32Modulus
  {
    var q, r := x / UInt32Modulus, x % UInt32Modulus;
    assert x + UInt32Modulus == (q + 1) * UInt32Modulus + r;
  }

  /** The attributes the OBJ loaders know how to fill. */
  const ObjFlags: VertexFormat := {Position3, Normal3, TexCoord2}

  /** Floats appended for one new corner. */
  function Stride(format: VertexFormat): nat {
    (if Position3 in format then 3 else 0)
    + (if Normal3 in format then 3 else 0)
    + (if TexCoord2 in format then 2 else 0)
  }

  /** The packer's stride is the vertex size of the format restricted to the
      attributes the loaders fill, and exactly the vertex size when the
      format asks for nothing else. */
  lemma StrideIsNumberOfFloats(format: VertexFormat)
    ensures Stride(format) == NumberOfFloats(format * ObjFlags)
    ensures format <= ObjFlags ==> Stride(format) == NumberOfFloats(format)
  {
    assert format <= ObjFlags ==> format * ObjFlags == format;
  }

  /** The floats appended for a new corner: position, then normal, then
      texture coordinate, each only when the format asks for it. */
  function Emit(c: Corner, format: VertexFormat): (r: seq<real>)
    ensures |r| == Stride(format)
  {
    (if Position3 in format then [c.position.x, c.position.y, c.position.z] else [])
    + (if Normal3 in format then [c.normal.x, c.normal.y, c.normal.z] else [])
    + (if TexCoord2 in format then [c.texCoord.x, c.texCoord.y] else [])
  }

  /** The attributes a consumer reads back from one packed vertex. */
  datatype Unpacked = Unpacked(position: Option<Vec3>, normal: Option<Vec3>, texCoord: Option<Vec2>)

  /** How a consumer of the buffer (the vertex layout built from the same
      format) reads one vertex block. */
  function Unpack(block: seq<real>, format: VertexFormat): Unpacked
    requires |block| == Stride(format)
  {
    var p := if Position3 in format then 3 else 0;
    var t := if Normal3 in format then p + 3 else p;
    Unpacked(
      if Position3 in format then Some(Vec3(block[0], block[1], block[2])) else None,
      if Normal3 in format then Some(Vec3(block[p], block[p + 1], block[p + 2])) else None,
      if TexCoord2 in format then Some(Vec2(block[t], block[t + 1])) else None)
  }

  /** Reading back an emitted block recovers every attribute the format
      asks for. */
  lemma UnpackEmit(c: Corner, format: VertexFormat)
    ensures Unpack(Emit(c, format), format)
            == Unpacked(if Position3 in format then Some(c.position) else None,
                        if Normal3 in format then Some(c.normal) else None,
                        if TexCoord2 in format then Some(c.texCoord) else None)
  {
  }

  /** Floats taken by `n` vertices of `format`. */
  function Floats(format: VertexFormat, n: nat): nat
    decreases n
  {
    if n == 0 then 0 else Floats(format, n - 1) + Stride(format)
  }

  lemma {:induction false} FloatsIsProduct(format: VertexFormat, n: nat)
    ensures Floats(format, n) == Stride(format) * n
    decreases n
  {
    if n > 0 {
      FloatsIsProduct(format, n - 1);
      assert Stride(format) * n == Stride(format) * (n - 1) + Stride(format);
    }
  }

  lemma {:induction false} FloatsAdditive(format: VertexFormat, a: nat, b: nat)
    ensures Floats(format, a + b) == Floats(format, a) + Floats(format, b)
    decreases b
  {
    if b > 0 {
      FloatsAdditive(format, a, b - 1);
    }
  }

  /** `x` occurs in `d`; written recursively so that the solver unfolds it
      only on demand. */
  predicate Occurs(x: Corner, d: seq<Corner>)
    decreases |d|
  {
    |d| > 0 && (d[|d| - 1] == x || Occurs(x, d[..|d| - 1]))
  }

  lemma {:induction false} OccursIsIn(x: Corner, d: seq<Corner>)
    ensures Occurs(x, d) <==> x in d
    decreases |d|
  {
    if |d| > 0 {
      var n := |d| - 1;
      OccursIsIn(x, d[..n]);
      assert d == d[..n] + [d[n]];
    }
  }

  /** The distinct corners of a sequence in order of first occurrence:
      the order in which the packer appends vertices. */
  function Dedup(s: seq<Corner>): (d: seq<Corner>)
    decreases |s|
  {
    if |s| == 0 then []
    else
      var d := Dedup(s[..|s| - 1]);
      if Occurs(s[|s| - 1], d) then d else d + [s[|s| - 1]]
  }

  /** `Dedup` keeps exactly the corners of the sequence, each once. */
  lemma {:induction false} DedupIsDistinct(s: seq<Corner>)
    ensures forall x :: x in Dedup(s) <==> x in s
    ensures forall i, j | 0 <= i < j < |Dedup(s)| :: Dedup(s)[i] != Dedup(s)[j]
    decreases |s|
  {
    if |s| > 0 {
      var n := |s| - 1;
      DedupIsDistinct(s[..n]);
      OccursIsIn(s[n], Dedup(s[..n]));
      assert s == s[..n] + [s[n]];
    }
  }

  /** The floats appended for a run of new vertices. */
  function EmitAll(d: seq<Corner>, format: VertexFormat): (r: seq<real>)
    ensures |r| == Floats(format, |d|)
    decreases |d|
  {
    if |d| == 0 then [] else EmitAll(d[..|d| - 1], format) + Emit(d[|d| - 1], format)
  }

  lemma EmitAllSnoc(d: seq<Corner>, c: Corner, format: VertexFormat)
    ensures EmitAll(d + [c], format) == EmitAll(d, format) + Emit(c, format)
  {
    assert (d + [c])[..|d|] == d;
  }

  /** `e` ends at offset `i` of `v`. */
  predicate BlockAt(v: seq<real>, i: int, e: seq<real>) {
    |e| <= i + 1 <= |v| && v[i + 1 - |e| .. i + 1] == e
  }

  /** The vertex a consumer finds at index `i`: the `Stride(format)` floats
      ending there, unpacked. */
  function ReadVertex(v: seq<real>, i: int, format: VertexFormat): Unpacked
    requires Stride(format) <= i + 1 <= |v|
  {
    Unpack(v[i + 1 - Stride(format) .. i + 1], format)
  }

  /** A block emitted for `c` reads back as `c`'s attributes. */
  lemma ReadVertexOfBlock(v: seq<real>, i: int, c: Corner, format: VertexFormat)
    requires BlockAt(v, i, Emit(c, format))
    ensures Stride(format) <= i + 1 <= |v|
    ensures ReadVertex(v, i, format)
            == Unpacked(if Position3 in format then Some(c.position) else None,
                        if Normal3 in format then Some(c.normal) else None,
                        if TexCoord2 in format then Some(c.texCoord) else None)
  {
    UnpackEmit(c, format);
  }

  /** Appending to a buffer never moves a block already in it. */
  lemma BlockAtExtend(v: seq<real>, w: seq<real>, i: int, e: seq<real>)
    requires |v| <= |w| && w[..|v|] == v
    requires BlockAt(v, i, e)
    ensures BlockAt(w, i, e)
  {
    assert w[i + 1 - |e| .. i + 1] == w[..|v|][i + 1 - |e| .. i + 1];
  }

  /** The state of the per-shape loop: the corner map and the two buffers. */
  datatype Packed = Packed(m: map<Corner, nat>, v: seq<real>, idx: seq<nat>)

  /** One iteration of the per-shape loop: a corner already in the map
      reuses its index; a new one appends its floats and records the offset
      of the last of them. Entries once recorded never change. */
  function Step(p: Packed, c: Corner, format: VertexFormat): (q: Packed)
    ensures c in q.m && q.idx == p.idx + [q.m[c]]
    ensures forall x | x in p.m :: x in q.m && q.m[x] == p.m[x]
  {
    if c in p.m then Packed(p.m, p.v, p.idx + [p.m[c]])
    else
      var v := p.v + Emit(c, format);
      var n := ToUInt32(|v| - 1);
      Packed(p.m[c := n], v, p.idx + [n])
  }

  /** The loop's state after the corners `s`, starting from an empty map
      and the buffers `v0` and `i0`. */
  function PackPrefix(s: seq<Corner>, format: VertexFormat, v0: seq<real>, i0: seq<nat>): Packed
    decreases |s|
  {
    if |s| == 0 then Packed(map[], v0, i0)
    else Step(PackPrefix(s[..|s| - 1], format, v0, i0), s[|s| - 1], format)
  }

  lemma PackPrefixSnoc(s: seq<Corner>, i: nat, format: VertexFormat, v0: seq<real>, i0: seq<nat>)
    requires i < |s|
    ensures PackPrefix(s[..i + 1], format, v0, i0) == Step(PackPrefix(s[..i], format, v0, i0), s[i], format)
  {
    assert s[..i + 1][..i] == s[..i];
  }

  lemma AppendAssoc(a: seq<real>, b: seq<real>, c: seq<real>)
    ensures (a + b) + c == a + (b + c)
  {
  }

  /** The map holds exactly the distinct corners seen. */
  lemma {:induction false} PackPrefixKeys(s: seq<Corner>, format: VertexFormat, v0: seq<real>, i0: seq<nat>)
    ensures forall x :: x in PackPrefix(s, format, v0, i0).m <==> Occurs(x, Dedup(s))
    decreases |s|
  {
    if |s| > 0 {
      var n := |s| - 1;
      var d, p, c := Dedup(s[..n]), PackPrefix(s[..n], format, v0, i0), s[n];
      PackPrefixKeys(s[..n], format, v0, i0);
      assert PackPrefix(s, format, v0, i0) == Step(p, c, format);
      if Occurs(c, d) {
        assert Dedup(s) == d && Step(p, c, format).m == p.m;
      } else {
        assert Dedup(s) == d + [c];
        forall x
          ensures x in Step(p, c, format).m <==> Occurs(x, d + [c])
        {
          assert (d + [c])[..|d|] == d;
        }
      }
    }
  }

  /** The vertex buffer has gained the floats of the distinct corners, in
      first-occurrence order. */
  lemma {:induction false} PackPrefixVertices(s: seq<Corner>, format: VertexFormat, v0: seq<real>, i0: seq<nat>)
    ensures PackPrefix(s, format, v0, i0).v == v0 + EmitAll(Dedup(s), format)
    decreases |s|
  {
    if |s| > 0 {
      var n := |s| - 1;
      var d := Dedup(s[..n]);
      PackPrefixVertices(s[..n], format, v0, i0);
      PackPrefixKeys(s[..n], format, v0, i0);
      if !Occurs(s[n], d) {
        EmitAllSnoc(d, s[n], format);
        AppendAssoc(v0, EmitAll(d, format), Emit(s[n], format));
      }
    }
  }

  /** The index recorded for the `j`-th new vertex appended to a buffer
      that held `base` floats: the offset of its last float, cast to
      `unsigned int`. */
  function VertexIndex(base: int, format: VertexFormat, j: nat): nat {
    ToUInt32(base + Floats(format, j + 1) - 1)
  }

  /** Every distinct corner seen so far maps to the index of its vertex. */
  ghost predicate Indexed(m: map<Corner, nat>, order: seq<Corner>, base: nat, format: VertexFormat)
  {
    forall j {:trigger m[order[j]]} | 0 <= j < |order| :: order[j] in m && m[order[j]] == VertexIndex(base, format, j)
  }

  lemma IndexedSnoc(m: map<Corner, nat>, order: seq<Corner>, base: nat, format: VertexFormat, c: Corner, n: nat)
    requires Indexed(m, order, base, format) && c !in m
    requires n == VertexIndex(base, format, |order|)
    ensures Indexed(m[c := n], order + [c], base, format)
  {
  }

  /** A new corner's entry is the offset of its vertex's last float. */
  lemma StepIndexed(p: Packed, order: seq<Corner>, c: Corner, format: VertexFormat, base: nat)
    requires Indexed(p.m, order, base, format) && c !in p.m
    requires |p.v| == base + Floats(format, |order|)
    ensures Indexed(Step(p, c, format).m, order + [c], base, format)
  {
    var v := p.v + Emit(c, format);
    assert |v| == base + Floats(format, |order| + 1);
    IndexedSnoc(p.m, order, base, format, c, ToUInt32(|v| - 1));
  }

  lemma {:induction false} PackPrefixIndexed(s: seq<Corner>, format: VertexFormat, v0: seq<real>, i0: seq<nat>)
    ensures Indexed(PackPrefix(s, format, v0, i0).m, Dedup(s), |v0|, format)
    decreases |s|
  {
    if |s| > 0 {
      var n := |s| - 1;
      var p := PackPrefix(s[..n], format, v0, i0);
      PackPrefixIndexed(s[..n], format, v0, i0);
      PackPrefixKeys(s[..n], format, v0, i0);
      PackPrefixVertices(s[..n], format, v0, i0);
      if !Occurs(s[n], Dedup(s[..n])) {
        StepIndexed(p, Dedup(s[..n]), s[n], format, |v0|);
      }
    }
  }

  /** The first `i` corners have their map entry written at `off + k`. */
  ghost predicate Recorded(m: map<Corner, nat>, corners: seq<Corner>, i: nat, idx: seq<nat>, off: nat)
  {
    && i <= |corners| && off + i <= |idx|
    && forall k {:trigger corners[k]} | 0 <= k < i :: corners[k] in m && idx[off + k] == m[corners[k]]
  }

  lemma {:induction false} PackPrefixRecorded(s: seq<Corner>, format: VertexFormat, v0: seq<real>, i0: seq<nat>)
    ensures |PackPrefix(s, format, v0, i0).idx| == |i0| + |s|
    ensures PackPrefix(s, format, v0, i0).idx[..|i0|] == i0
    ensures Recorded(PackPrefix(s, format, v0, i0).m, s, |s|, PackPrefix(s, format, v0, i0).idx, |i0|)
    decreases |s|
  {
    if |s| > 0 {
      var n := |s| - 1;
      var p := PackPrefix(s[..n], format, v0, i0);
      var q := PackPrefix(s, format, v0, i0);
      PackPrefixRecorded(s[..n], format, v0, i0);
      assert q == Step(p, s[n], format);
      assert q.idx[..|i0|] == p.idx[..|i0|];
      forall k {:trigger s[k]} | 0 <= k < |s|
        ensures s[k] in q.m && q.idx[|i0| + k] == q.m[s[k]]
      {
        if k < n {
          assert s[..n][k] == s[k];
        }
      }
    }
  }

  /** The per-shape loop: packs `corners` (three per face, in face order)
      onto the buffers `v0` and `i0` with a fresh corner map, computing the
      fold `PackPrefix`; `PackPrefixVertices` and `PackPrefixIndices` state
      what that fold produces. */
  method PackCorners(corners: seq<Corner>, format: VertexFormat, v0: seq<real>, i0: seq<nat>)
    returns (v: seq<real>, idx: seq<nat>)
    ensures v == PackPrefix(corners, format, v0, i0).v && idx == PackPrefix(corners, format, v0, i0).idx
    ensures v == v0 + EmitAll(Dedup(corners), format)
    ensures |idx| == |i0| + |corners| && idx[..|i0|] == i0
    ensures forall k, j {:trigger Dedup(corners)[j], corners[k]}
              | 0 <= k < |corners| && 0 <= j < |Dedup(corners)| && Dedup(corners)[j] == corners[k] ::
              idx[|i0| + k] == VertexIndex(|v0|, format, j)
    ensures Stride(format) > 0 ==> forall t | |i0| <= t < |idx| :: idx[t] < |v|
  {
    var m: map<Corner, nat> := map[];
    v, idx := v0, i0;
    for i := 0 to |corners|
      invariant Packed(m, v, idx) == PackPrefix(corners[..i], format, v0, i0)
    {
      var c := corners[i];
      PackPrefixSnoc(corners, i, format, v0, i0);
      if c in m {
        idx := idx + [m[c]];
      } else {
        v := v + Emit(c, format);
        var n := ToUInt32(|v| - 1);
        m := m[c := n];
        idx := idx + [n];
      }
    }
    assert corners[..|corners|] == corners;
    PackPrefixVertices(corners, format, v0, i0);
    PackPrefixIndices(corners, format, v0, i0);
    if Stride(format) > 0 {
      PackPrefixIndexBound(corners, format, v0, i0);
    }
  }

  /** The index buffer after one shape: one entry per corner, each the
      index of the last float of its vertex. */
  lemma PackPrefixIndices(s: seq<Corner>, format: VertexFormat, v0: seq<real>, i0: seq<nat>)
    ensures |PackPrefix(s, format, v0, i0).idx| == |i0| + |s| && PackPrefix(s, format, v0, i0).idx[..|i0|] == i0
    ensures forall k, j {:trigger Dedup(s)[j], s[k]} | 0 <= k < |s| && 0 <= j < |Dedup(s)| && Dedup(s)[j] == s[k] ::
              PackPrefix(s, format, v0, i0).idx[|i0| + k] == VertexIndex(|v0|, format, j)
  {
    var p := PackPrefix(s, format, v0, i0);
    PackPrefixIndexed(s, format, v0, i0);
    PackPrefixRecorded(s, format, v0, i0);
    RecordedIndices(p.m, s, p.idx, |i0|, |v0|, format);
  }

  /** Within one shape, equal corners share one index. */
  lemma EqualCornersShareIndex(s: seq<Corner>, format: VertexFormat, v0: seq<real>, i0: seq<nat>, k: nat, l: nat)
    requires k < |s| && l < |s| && s[k] == s[l]
    ensures |i0| + k < |PackPrefix(s, format, v0, i0).idx| && |i0| + l < |PackPrefix(s, format, v0, i0).idx|
    ensures PackPrefix(s, format, v0, i0).idx[|i0| + k] == PackPrefix(s, format, v0, i0).idx[|i0| + l]
  {
    var p := PackPrefix(s, format, v0, i0);
    PackPrefixIndexed(s, format, v0, i0);
    PackPrefixRecorded(s, format, v0, i0);
    RecordedIndices(p.m, s, p.idx, |i0|, |v0|, format);
  }

  /** What the loop's two predicates give at the end: a corner's index is
      that of its vertex, and equal corners share one index. */
  lemma RecordedIndices(m: map<Corner, nat>, corners: seq<Corner>, idx: seq<nat>, off: nat, base: nat, format: VertexFormat)
    requires Indexed(m, Dedup(corners), base, format)
    requires Recorded(m, corners, |corners|, idx, off)
    ensures forall k, j {:trigger Dedup(corners)[j], corners[k]} | 0 <= k < |corners| && 0 <= j < |Dedup(corners)| && Dedup(corners)[j] == corners[k] ::
              idx[off + k] == VertexIndex(base, format, j)
    ensures forall k, l {:trigger corners[k], corners[l]} | 0 <= k < |corners| && 0 <= l < |corners| && corners[k] == corners[l] ::
              idx[off + k] == idx[off + l]
  {
  }

  /** The shapes' corner lists joined in order. */
  function Concat(lists: seq<seq<Corner>>): (r: seq<Corner>)
    decreases |lists|
  {
    if |lists| == 0 then [] else Concat(lists[..|lists| - 1]) + lists[|lists| - 1]
  }

  /** The floats appended over all shapes: each shape's distinct corners in
      first-occurrence order, since every shape starts with an empty map. */
  function EmitShapes(lists: seq<seq<Corner>>, format: VertexFormat): seq<real>
    decreases |lists|
  {
    if |lists| == 0 then []
    else EmitShapes(lists[..|lists| - 1], format) + EmitAll(Dedup(lists[|lists| - 1]), format)
  }

  lemma ConcatSnoc(lists: seq<seq<Corner>>, s: nat, format: VertexFormat)
    requires s < |lists|
    ensures Concat(lists[..s + 1]) == Concat(lists[..s]) + lists[s]
    ensures EmitShapes(lists[..s + 1], format) == EmitShapes(lists[..s], format) + EmitAll(Dedup(lists[s]), format)
  {
    assert lists[..s + 1][..s] == lists[..s];
  }

  /** A prefix of the shapes contributes a prefix of the joined list. */
  lemma {:induction false} ConcatPrefix(lists: seq<seq<Corner>>, s: nat)
    requires s <= |lists|
    ensures |Concat(lists[..s])| <= |Concat(lists)|
    ensures Concat(lists)[..|Concat(lists[..s])|] == Concat(lists[..s])
    decreases |lists| - s
  {
    if s < |lists| {
      ConcatSnoc(lists, s, {});
      ConcatPrefix(lists, s + 1);
      var a, b := Concat(lists[..s]), Concat(lists[..s + 1]);
      assert Concat(lists)[..|a|] == Concat(lists)[..|b|][..|a|];
    } else {
      assert lists[..s] == lists;
    }
  }

  /** Where shape `s`'s corners start in the joined list. */
  function Offset(lists: seq<seq<Corner>>, s: nat): (o: nat)
    requires s < |lists|
    ensures o + |lists[s]| <= |Concat(lists)|
  {
    ConcatSnoc(lists, s, {});
    ConcatPrefix(lists, s + 1);
    |Concat(lists[..s])|
  }

  /** Where shape `s`'s vertices start among the floats all shapes append. */
  function VertexOffset(lists: seq<seq<Corner>>, s: nat, format: VertexFormat): nat
    requires s <= |lists|
  {
    |EmitShapes(lists[..s], format)|
  }

  /** Corner `k` of shape `s` sits in the joined list after the corners of
      the shapes before it. */
  lemma ConcatIndex(lists: seq<seq<Corner>>, s: nat, k: nat)
    requires s < |lists| && k < |lists[s]|
    ensures Concat(lists)[Offset(lists, s) + k] == lists[s][k]
  {
    ConcatSnoc(lists, s, {});
    ConcatPrefix(lists, s + 1);
    var b := Concat(lists[..s + 1]);
    assert Concat(lists)[Offset(lists, s) + k] == Concat(lists)[..|b|][Offset(lists, s) + k];
  }

  /** The state after packing the first `s` shapes, each from a fresh
      corner map onto the same two buffers (`m` is the last shape's map). */
  function PackShapesUpTo(lists: seq<seq<Corner>>, s: nat, format: VertexFormat, v0: seq<real>, i0: seq<nat>): Packed
    requires s <= |lists|
    decreases s
  {
    if s == 0 then Packed(map[], v0, i0)
    else
      var b := PackShapesUpTo(lists, s - 1, format, v0, i0);
      PackPrefix(lists[s - 1], format, b.v, b.idx)
  }

  /** The state after packing every shape. Not recursive itself, so a
      contract that names it does not unfold the packing loop. */
  function PackAll(lists: seq<seq<Corner>>, format: VertexFormat, v0: seq<real>, i0: seq<nat>): Packed {
    PackShapesUpTo(lists, |lists|, format, v0, i0)
  }

  /** The shapes' vertices follow each other in the vertex buffer, and the
      index buffer gains one entry per corner. */
  lemma {:induction false} ShapesUpToBuffers(lists: seq<seq<Corner>>, s: nat, format: VertexFormat, v0: seq<real>, i0: seq<nat>)
    requires s <= |lists|
    ensures PackShapesUpTo(lists, s, format, v0, i0).v == v0 + EmitShapes(lists[..s], format)
    ensures |PackShapesUpTo(lists, s, format, v0, i0).idx| == |i0| + |Concat(lists[..s])|
    ensures PackShapesUpTo(lists, s, format, v0, i0).idx[..|i0|] == i0
    decreases s
  {
    if s > 0 {
      var b := PackShapesUpTo(lists, s - 1, format, v0, i0);
      var q := PackShapesUpTo(lists, s, format, v0, i0);
      ShapesUpToBuffers(lists, s - 1, format, v0, i0);
      PackPrefixVertices(lists[s - 1], format, b.v, b.idx);
      PackPrefixRecorded(lists[s - 1], format, b.v, b.idx);
      ConcatSnoc(lists, s - 1, format);
      AppendAssoc(v0, EmitShapes(lists[..s - 1], format), EmitAll(Dedup(lists[s - 1]), format));
      assert q.idx[..|i0|] == q.idx[..|b.idx|][..|i0|];
    }
  }

  /** The whole-file loop: one `PackCorners` per shape, each with a fresh
      corner map, onto the same two buffers. A corner's index counts the
      floats of all earlier shapes too (`ShapesIndices`), and an equal
      corner in a later shape gets a vertex of its own. */
  method PackShapes(lists: seq<seq<Corner>>, format: VertexFormat, v0: seq<real>, i0: seq<nat>)
    returns (v: seq<real>, idx: seq<nat>)
    ensures v == PackAll(lists, format, v0, i0).v
    ensures idx == PackAll(lists, format, v0, i0).idx
    ensures v == v0 + EmitShapes(lists, format)
    ensures |idx| == |i0| + |Concat(lists)| && idx[..|i0|] == i0
    ensures Stride(format) > 0 ==> forall t | |i0| <= t < |idx| :: idx[t] < |v|
  {
    v, idx := v0, i0;
    for s := 0 to |lists|
      invariant v == PackShapesUpTo(lists, s, format, v0, i0).v
      invariant idx == PackShapesUpTo(lists, s, format, v0, i0).idx
    {
      v, idx := PackCorners(lists[s], format, v, idx);
    }
    ShapesUpToBuffers(lists, |lists|, format, v0, i0);
    assert lists[..|lists|] == lists;
    if Stride(format) > 0 {
      ShapesIndexBound(lists, |lists|, format, v0, i0);
    }
  }

  /** The index of corner `k` of shape `s` in the whole file's index
      buffer, when that corner's vertex is the `j`-th distinct one of its
      shape: the last float of that vertex within shape `s`'s block, which
      starts after the floats of all earlier shapes. */
  lemma {:induction false} ShapesIndices(lists: seq<seq<Corner>>, format: VertexFormat, v0: seq<real>, i0: seq<nat>, s: nat, k: nat, j: nat)
    requires s < |lists| && k < |lists[s]| && j < |Dedup(lists[s])| && Dedup(lists[s])[j] == lists[s][k]
    ensures |i0| + Offset(lists, s) + k < |PackAll(lists, format, v0, i0).idx|
    ensures PackAll(lists, format, v0, i0).idx[|i0| + Offset(lists, s) + k]
            == VertexIndex(|v0| + VertexOffset(lists, s, format), format, j)
  {
    var b := PackShapesUpTo(lists, s, format, v0, i0);
    var q := PackShapesUpTo(lists, s + 1, format, v0, i0);
    var z := PackAll(lists, format, v0, i0);
    assert |b.idx| == |i0| + Offset(lists, s) && |b.v| == |v0| + VertexOffset(lists, s, format) by {
      ShapesUpToBuffers(lists, s, format, v0, i0);
    }
    assert q.idx == PackPrefix(lists[s], format, b.v, b.idx).idx;
    assert |q.idx| <= |z.idx| && z.idx[..|q.idx|] == q.idx by {
      ShapesUpToIndexPrefix(lists, s + 1, |lists|, format, v0, i0);
    }
    IndicesCarry(lists[s], format, b.v, b.idx, q.idx, z.idx, k, j, |i0| + Offset(lists, s), |v0| + VertexOffset(lists, s, format));
  }

  /** A corner's index fact survives appending the entries of later shapes. */
  lemma {:induction false} IndicesCarry(corners: seq<Corner>, format: VertexFormat, v: seq<real>, idx: seq<nat>, jdx: seq<nat>, zdx: seq<nat>,
                     k: nat, j: nat, n: nat, vlen: nat)
    requires k < |corners| && j < |Dedup(corners)| && Dedup(corners)[j] == corners[k]
    requires jdx == PackPrefix(corners, format, v, idx).idx
    requires |jdx| <= |zdx| && zdx[..|jdx|] == jdx
    requires |idx| == n && |v| == vlen
    ensures n + k < |zdx| && zdx[n + k] == VertexIndex(vlen, format, j)
  {
    ShapeIndices(corners, format, v, idx, jdx);
    assert zdx[|idx| + k] == zdx[..|jdx|][|idx| + k];
  }

  /** `PackPrefixIndices` for an index buffer named by the caller. */
  lemma ShapeIndices(corners: seq<Corner>, format: VertexFormat, v: seq<real>, idx: seq<nat>, jdx: seq<nat>)
    requires jdx == PackPrefix(corners, format, v, idx).idx
    ensures |jdx| == |idx| + |corners| && jdx[..|idx|] == idx
    ensures forall k, j {:trigger Dedup(corners)[j], corners[k]} | 0 <= k < |corners| && 0 <= j < |Dedup(corners)| && Dedup(corners)[j] == corners[k] ::
              jdx[|idx| + k] == VertexIndex(|v|, format, j)
  {
    PackPrefixIndices(corners, format, v, idx);
  }

  /** The last float of the `j`-th appended vertex is at offset
      `Floats(format, j + 1) - 1`, and the floats ending there are that
      vertex's attributes. */
  lemma {:induction false} EmitAllBlock(d: seq<Corner>, format: VertexFormat, j: nat)
    requires j < |d| && Stride(format) > 0
    ensures BlockAt(EmitAll(d, format), Floats(format, j + 1) - 1, Emit(d[j], format))
    decreases |d|
  {
    var n := |d| - 1;
    assert d == d[..n] + [d[n]];
    EmitAllSnoc(d[..n], d[n], format);
    if j < n {
      EmitAllBlock(d[..n], format, j);
      BlockAtExtend(EmitAll(d[..n], format), EmitAll(d, format), Floats(format, j + 1) - 1, Emit(d[j], format));
    }
  }

  /** A block keeps its content when the buffer gains a prefix. */
  lemma BlockAtShift(p: seq<real>, w: seq<real>, i: int, e: seq<real>)
    requires BlockAt(w, i, e)
    ensures BlockAt(p + w, |p| + i, e)
  {
    assert (p + w)[|p| + i + 1 - |e| .. |p| + i + 1] == w[i + 1 - |e| .. i + 1];
  }

  lemma {:induction false} FloatsMonotone(format: VertexFormat, a: nat, b: nat)
    requires a <= b
    ensures Floats(format, a) <= Floats(format, b)
    decreases b
  {
    if a < b {
      FloatsMonotone(format, a, b - 1);
    }
  }

  /** Corner `k`'s index, for the position `j` of its vertex. */
  lemma IndexOfCorner(corners: seq<Corner>, format: VertexFormat, v0: seq<real>, i0: seq<nat>, k: nat, j: nat)
    requires k < |corners| && j < |Dedup(corners)| && Dedup(corners)[j] == corners[k]
    ensures |i0| + k < |PackPrefix(corners, format, v0, i0).idx|
    ensures PackPrefix(corners, format, v0, i0).idx[|i0| + k] == VertexIndex(|v0|, format, j)
  {
    PackPrefixIndices(corners, format, v0, i0);
  }

  /** The `j`-th appended vertex's floats end at `|v0| + Floats(format, j + 1) - 1`. */
  lemma BlockOfVertex(v0: seq<real>, d: seq<Corner>, format: VertexFormat, j: nat)
    requires j < |d| && Stride(format) > 0
    ensures BlockAt(v0 + EmitAll(d, format), |v0| + Floats(format, j + 1) - 1, Emit(d[j], format))
  {
    EmitAllBlock(d, format, j);
    BlockAtShift(v0, EmitAll(d, format), Floats(format, j + 1) - 1, Emit(d[j], format));
  }

  /** Reading back through an index: when the vertex buffer stays within
      `unsigned int` range, the `Stride(format)` floats ending at corner
      `k`'s index are exactly that corner's attributes, so a consumer that
      unpacks them recovers the corner. */
  lemma PackedReadBack(corners: seq<Corner>, format: VertexFormat, v0: seq<real>, i0: seq<nat>, k: nat)
    requires k < |corners| && Stride(format) > 0
    requires |PackPrefix(corners, format, v0, i0).v| <= UInt32Modulus
    ensures |i0| + k < |PackPrefix(corners, format, v0, i0).idx|
    ensures BlockAt(PackPrefix(corners, format, v0, i0).v, PackPrefix(corners, format, v0, i0).idx[|i0| + k],
                    Emit(corners[k], format))
  {
    var d := Dedup(corners);
    DedupIsDistinct(corners);
    assert corners[k] in d;
    var j :| 0 <= j < |d| && d[j] == corners[k];
    PackPrefixVertices(corners, format, v0, i0);
    IndexOfCorner(corners, format, v0, i0, k, j);
    FloatsMonotone(format, j + 1, |d|);
    BlockOfVertex(v0, d, format, j);
  }

  /** Every index a shape records lies inside the vertex buffer it leaves
      behind, whatever its size: the `unsigned int` conversion never
      increases a non-negative offset. */
  lemma PackedIndexInRange(corners: seq<Corner>, format: VertexFormat, v0: seq<real>, i0: seq<nat>, k: nat)
    requires k < |corners| && Stride(format) > 0
    ensures |i0| + k < |PackPrefix(corners, format, v0, i0).idx|
    ensures PackPrefix(corners, format, v0, i0).idx[|i0| + k] < |PackPrefix(corners, format, v0, i0).v|
  {
    var d := Dedup(corners);
    DedupIsDistinct(corners);
    assert corners[k] in d;
    var j :| 0 <= j < |d| && d[j] == corners[k];
    PackPrefixVertices(corners, format, v0, i0);
    IndexOfCorner(corners, format, v0, i0, k, j);
    FloatsMonotone(format, 1, j + 1);
    FloatsMonotone(format, j + 1, |d|);
  }

  /** All of one shape's new index entries lie inside its vertex buffer. */
  lemma PackPrefixIndexBound(corners: seq<Corner>, format: VertexFormat, v0: seq<real>, i0: seq<nat>)
    requires Stride(format) > 0
    ensures |PackPrefix(corners, format, v0, i0).idx| == |i0| + |corners|
    ensures forall t | |i0| <= t < |PackPrefix(corners, format, v0, i0).idx| ::
              PackPrefix(corners, format, v0, i0).idx[t] < |PackPrefix(corners, format, v0, i0).v|
  {
    var q := PackPrefix(corners, format, v0, i0);
    PackPrefixRecorded(corners, format, v0, i0);
    forall t | |i0| <= t < |q.idx|
      ensures q.idx[t] < |q.v|
    {
      PackedIndexInRange(corners, format, v0, i0, t - |i0|);
    }
  }

  /** After any number of shapes, every index entry appended to the index
      buffer is below the size of the vertex buffer. */
  lemma {:induction false} ShapesIndexBound(lists: seq<seq<Corner>>, s: nat, format: VertexFormat, v0: seq<real>, i0: seq<nat>)
    requires s <= |lists| && Stride(format) > 0
    ensures |i0| <= |PackShapesUpTo(lists, s, format, v0, i0).idx|
    ensures forall t | |i0| <= t < |PackShapesUpTo(lists, s, format, v0, i0).idx| ::
              PackShapesUpTo(lists, s, format, v0, i0).idx[t] < |PackShapesUpTo(lists, s, format, v0, i0).v|
    decreases s
  {
    if s > 0 {
      ShapesIndexBound(lists, s - 1, format, v0, i0);
      var b := PackShapesUpTo(lists, s - 1, format, v0, i0);
      var q := PackShapesUpTo(lists, s, format, v0, i0);
      BoundStep(lists[s - 1], format, b.v, b.idx, |i0|, q);
    }
  }

  /** One more shape keeps every entry from `n` on inside the vertex buffer. */
  lemma BoundStep(corners: seq<Corner>, format: VertexFormat, v: seq<real>, idx: seq<nat>, n: nat, q: Packed)
    requires Stride(format) > 0 && n <= |idx| && q == PackPrefix(corners, format, v, idx)
    requires forall t | n <= t < |idx| :: idx[t] < |v|
    ensures n <= |q.idx|
    ensures forall t | n <= t < |q.idx| :: q.idx[t] < |q.v|
  {
    PackPrefixVertices(corners, format, v, idx);
    PackPrefixRecorded(corners, format, v, idx);
    PackPrefixIndexBound(corners, format, v, idx);
    forall t | n <= t < |idx|
      ensures q.idx[t] < |q.v|
    {
      assert q.idx[t] == q.idx[..|idx|][t];
    }
  }

  /** Packing more shapes only appends to the vertex buffer. */
  lemma {:induction false} ShapesUpToVertexPrefix(lists: seq<seq<Corner>>, s: nat, t: nat, format: VertexFormat, v0: seq<real>, i0: seq<nat>)
    requires s <= t <= |lists|
    ensures |PackShapesUpTo(lists, s, format, v0, i0).v| <= |PackShapesUpTo(lists, t, format, v0, i0).v|
    ensures PackShapesUpTo(lists, t, format, v0, i0).v[..|PackShapesUpTo(lists, s, format, v0, i0).v|]
            == PackShapesUpTo(lists, s, format, v0, i0).v
    decreases t
  {
    if s < t {
      ShapesUpToVertexPrefix(lists, s, t - 1, format, v0, i0);
      var a := PackShapesUpTo(lists, s, format, v0, i0);
      var b := PackShapesUpTo(lists, t - 1, format, v0, i0);
      var q := PackShapesUpTo(lists, t, format, v0, i0);
      PackPrefixVertices(lists[t - 1], format, b.v, b.idx);
      assert q.v[..|a.v|] == q.v[..|b.v|][..|a.v|];
    }
  }

  /** Packing more shapes only appends to the index buffer. */
  lemma {:induction false} ShapesUpToIndexPrefix(lists: seq<seq<Corner>>, s: nat, t: nat, format: VertexFormat, v0: seq<real>, i0: seq<nat>)
    requires s <= t <= |lists|
    ensures |PackShapesUpTo(lists, s, format, v0, i0).idx| <= |PackShapesUpTo(lists, t, format, v0, i0).idx|
    ensures PackShapesUpTo(lists, t, format, v0, i0).idx[..|PackShapesUpTo(lists, s, format, v0, i0).idx|]
            == PackShapesUpTo(lists, s, format, v0, i0).idx
    decreases t
  {
    if s < t {
      ShapesUpToIndexPrefix(lists, s, t - 1, format, v0, i0);
      var a := PackShapesUpTo(lists, s, format, v0, i0);
      var b := PackShapesUpTo(lists, t - 1, format, v0, i0);
      var q := PackShapesUpTo(lists, t, format, v0, i0);
      PackPrefixRecorded(lists[t - 1], format, b.v, b.idx);
      assert q.idx[..|a.idx|] == q.idx[..|b.idx|][..|a.idx|];
    }
  }

  /** Reading back through the whole file's index buffer: corner `k` of
      shape `s` finds its own attributes, provided the vertex buffer stays
      within `unsigned int` range. */
  lemma ShapesReadBack(lists: seq<seq<Corner>>, format: VertexFormat, v0: seq<real>, i0: seq<nat>, s: nat, k: nat)
    requires s < |lists| && k < |lists[s]| && Stride(format) > 0
    requires |PackAll(lists, format, v0, i0).v| <= UInt32Modulus
    ensures |i0| + Offset(lists, s) + k < |PackAll(lists, format, v0, i0).idx|
    ensures BlockAt(PackAll(lists, format, v0, i0).v,
                    PackAll(lists, format, v0, i0).idx[|i0| + Offset(lists, s) + k],
                    Emit(lists[s][k], format))
  {
    var b := PackShapesUpTo(lists, s, format, v0, i0);
    var q := PackShapesUpTo(lists, s + 1, format, v0, i0);
    var z := PackAll(lists, format, v0, i0);
    ShapesUpToBuffers(lists, s, format, v0, i0);
    ShapesUpToVertexPrefix(lists, s + 1, |lists|, format, v0, i0);
    ShapesUpToIndexPrefix(lists, s + 1, |lists|, format, v0, i0);
    ReadBackCarry(lists[s], format, b.v, b.idx, q, z.v, z.idx, k, |i0| + Offset(lists, s));
  }

  /** A corner's read-back survives appending the entries of later shapes. */
  lemma ReadBackCarry(corners: seq<Corner>, format: VertexFormat, v: seq<real>, idx: seq<nat>, q: Packed,
                      zv: seq<real>, zidx: seq<nat>, k: nat, n: nat)
    requires k < |corners| && Stride(format) > 0
    requires q == PackPrefix(corners, format, v, idx) && |idx| == n
    requires |q.v| <= |zv| && zv[..|q.v|] == q.v && |zv| <= UInt32Modulus
    requires |q.idx| <= |zidx| && zidx[..|q.idx|] == q.idx
    ensures n + k < |zidx| && BlockAt(zv, zidx[n + k], Emit(corners[k], format))
  {
    PackedReadBack(corners, format, v, idx, k);
    assert zidx[n + k] == zidx[..|q.idx|][n + k];
    BlockAtExtend(q.v, zv, q.idx[n + k], Emit(corners[k], format));
  }

  /** `ShapesReadBack` for a corner named by the caller. */
  lemma ShapesReadBackKey(lists: seq<seq<Corner>>, format: VertexFormat, v0: seq<real>, i0: seq<nat>, s: nat, k: nat, key: Corner)
    requires s < |lists| && k < |lists[s]| && Stride(format) > 0 && lists[s][k] == key
    requires |PackAll(lists, format, v0, i0).v| <= UInt32Modulus
    ensures |i0| + Offset(lists, s) + k < |PackAll(lists, format, v0, i0).idx|
    ensures BlockAt(PackAll(lists, format, v0, i0).v,
                    PackAll(lists, format, v0, i0).idx[|i0| + Offset(lists, s) + k],
                    Emit(key, format))
  {
    ShapesReadBack(lists, format, v0, i0, s, k);
  }

  const CornerA := Corner(Vec3(0.0, 0.0, 0.0), Zero2, Zero3)
  const CornerB := Corner(Vec3(1.0, 0.0, 0.0), Zero2, Zero3)
  const CornerC := Corner(Vec3(0.0, 1.0, 0.0), Zero2, Zero3)

  /** A single triangle with three different positions and only
      `Position3` set packs to indices 2, 5, 8: each index is the offset of
      the last float of its vertex, not the vertex's ordinal. */
  lemma ThreePositionsExample()
    ensures |PackPrefix([CornerA, CornerB, CornerC], {Position3}, [], []).v| == 9
    ensures PackPrefix([CornerA, CornerB, CornerC], {Position3}, [], []).idx == [2, 5, 8]
  {
    var corners := [CornerA, CornerB, CornerC];
    assert Stride({Position3}) == 3;
    PackPrefixSnoc(corners, 0, {Position3}, [], []);
    PackPrefixSnoc(corners, 1, {Position3}, [], []);
    PackPrefixSnoc(corners, 2, {Position3}, [], []);
    assert corners[..0] == [] && corners[..3] == corners;
  }

  /** A repeated corner reuses the index of its first occurrence and adds
      no floats. */
  lemma RepeatedCornerExample()
    ensures |PackPrefix([CornerA, CornerB, CornerA], {Position3}, [], []).v| == 6
    ensures PackPrefix([CornerA, CornerB, CornerA], {Position3}, [], []).idx == [2, 5, 2]
  {
    var corners := [CornerA, CornerB, CornerA];
    assert Stride({Position3}) == 3;
    PackPrefixSnoc(corners, 0, {Position3}, [], []);
    PackPrefixSnoc(corners, 1, {Position3}, [], []);
    PackPrefixSnoc(corners, 2, {Position3}, [], []);
    assert corners[..0] == [] && corners[..3] == corners;
  }
}
