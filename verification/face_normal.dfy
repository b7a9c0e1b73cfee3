/** `CheckTriangle` and `CalculateNormal`, identical in both asset loaders:
    the flat normal of a triangle, or the zero vector for a triangle the
    check rejects. `normalize` stands for `glm::normalize`. */
module FaceNormal {
  import opened Glm

  /** `CheckTriangle` as written: compares two products of x and y edge
      components, so it looks only at the triangle's projection onto the
      xy plane. */
  predicate CheckTriangle(v1: Vec3, v2: Vec3, v3: Vec3) {
    (v2.x - v1.x) * (v3.y - v2.y) != (v3.x - v2.x) * (v2.y - v1.y)
  }

  /** The unnormalised face normal: the cross product of the edges v1->v2 and v2->v3. */
  function EdgeCross(v1: Vec3, v2: Vec3, v3: Vec3): Vec3 {
    Cross(Sub3(v2, v1), Sub3(v3, v2))
  }

  /** `CalculateNormal` as written. */
  function CalculateNormalAsWritten(v1: Vec3, v2: Vec3, v3: Vec3, normalize: Vec3 -> Vec3): (n: Vec3)
    ensures !CheckTriangle(v1, v2, v3) ==> n == Zero3
    ensures CheckTriangle(v1, v2, v3) ==> n == normalize(EdgeCross(v1, v2, v3))
  {
    if !CheckTriangle(v1, v2, v3) then Zero3 else normalize(EdgeCross(v1, v2, v3))
  }

  /** The as-written check accepts a triangle exactly when the z component of
      its face normal is non-zero. */
  lemma CheckTriangleIsNormalZ(v1: Vec3, v2: Vec3, v3: Vec3)
    ensures CheckTriangle(v1, v2, v3) <==> EdgeCross(v1, v2, v3).z != 0.0
  {
  }

  /** A triangle is degenerate when its edges are parallel, that is, when
      the edge cross product vanishes. */
  predicate IsNonDegenerate(v1: Vec3, v2: Vec3, v3: Vec3) {
    EdgeCross(v1, v2, v3) != Zero3
  }

  /** The as-written check never accepts a degenerate triangle. */
  lemma CheckTriangleSound(v1: Vec3, v2: Vec3, v3: Vec3)
    ensures CheckTriangle(v1, v2, v3) ==> IsNonDegenerate(v1, v2, v3)
  {
    CheckTriangleIsNormalZ(v1, v2, v3);
  }

  /** `normalize` maps non-zero vectors to non-zero vectors. */
  ghost predicate KeepsNonZero(normalize: Vec3 -> Vec3) {
    forall v :: v != Zero3 ==> normalize(v) != Zero3
  }

  /** With a `normalize` that keeps non-zero vectors non-zero, the written
      normal is zero exactly when the check rejects the triangle. */
  lemma CalculateNormalAsWrittenZeroIff(v1: Vec3, v2: Vec3, v3: Vec3, normalize: Vec3 -> Vec3)
    requires KeepsNonZero(normalize)
    ensures CalculateNormalAsWritten(v1, v2, v3, normalize) == Zero3 <==> !CheckTriangle(v1, v2, v3)
  {
    if CheckTriangle(v1, v2, v3) {
      CheckTriangleSound(v1, v2, v3);
      assert EdgeCross(v1, v2, v3) != Zero3;
    }
  }

  /** Corners of a triangle standing perpendicular to the xy plane. */
  const VerticalA: Vec3 := Zero3
  const VerticalB: Vec3 := Vec3(1.0, 0.0, 0.0)
  const VerticalC: Vec3 := Vec3(1.0, 0.0, 1.0)

  lemma UnitXCrossUnitZ()
    ensures Cross(Vec3(1.0, 0.0, 0.0), Vec3(0.0, 0.0, 1.0)) == Vec3(0.0, -1.0, 0.0)
  {
  }

  lemma VerticalTriangleNormal()
    ensures EdgeCross(VerticalA, VerticalB, VerticalC) == Vec3(0.0, -1.0, 0.0)
  {
    assert Sub3(VerticalB, VerticalA) == Vec3(1.0, 0.0, 0.0);
    assert Sub3(VerticalC, VerticalB) == Vec3(0.0, 0.0, 1.0);
    UnitXCrossUnitZ();
  }

  lemma VerticalTriangleFailsCheck()
    ensures !CheckTriangle(VerticalA, VerticalB, VerticalC)
  {
  }

  lemma VerticalTriangleNonDegenerate()
    ensures IsNonDegenerate(VerticalA, VerticalB, VerticalC)
  {
    VerticalTriangleNormal();
  }

  lemma VerticalTriangleZeroNormal(normalize: Vec3 -> Vec3)
    ensures CalculateNormalAsWritten(VerticalA, VerticalB, VerticalC, normalize) == Zero3
  {
    VerticalTriangleFailsCheck();
  }

  /** But it rejects every triangle standing perpendicular to the xy plane:
      the triangle (0,0,0), (1,0,0), (1,0,1) is non-degenerate, with face
      normal (0,-1,0), and its normal comes out as the zero vector. */
  lemma CheckTriangleRejectsVerticalTriangle(normalize: Vec3 -> Vec3)
    ensures IsNonDegenerate(VerticalA, VerticalB, VerticalC)
    ensures !CheckTriangle(VerticalA, VerticalB, VerticalC)
    ensures CalculateNormalAsWritten(VerticalA, VerticalB, VerticalC, normalize) == Zero3
  {
    VerticalTriangleNonDegenerate();
    VerticalTriangleZeroNormal(normalize);
  }

  /** `CalculateNormal` with the degeneracy test on the whole edge cross
      product instead of its z component. */
  function CalculateNormal(v1: Vec3, v2: Vec3, v3: Vec3, normalize: Vec3 -> Vec3): (n: Vec3)
    ensures CheckTriangle(v1, v2, v3) ==> n == CalculateNormalAsWritten(v1, v2, v3, normalize)
  {
    CheckTriangleSound(v1, v2, v3);
    if !IsNonDegenerate(v1, v2, v3) then Zero3 else normalize(EdgeCross(v1, v2, v3))
  }

  /** The written and the corrected normal part only on triangles the
      written check rejects although their edges are not parallel: those
      standing perpendicular to the xy plane. */
  lemma AsWrittenDiffersOnlyWhenVertical(v1: Vec3, v2: Vec3, v3: Vec3, normalize: Vec3 -> Vec3)
    ensures CalculateNormalAsWritten(v1, v2, v3, normalize) != CalculateNormal(v1, v2, v3, normalize) ==>
              IsNonDegenerate(v1, v2, v3) && EdgeCross(v1, v2, v3).z == 0.0
  {
    CheckTriangleIsNormalZ(v1, v2, v3);
  }

  function Dot3(a: Vec3, b: Vec3): real {
    a.x * b.x + a.y * b.y + a.z * b.z
  }

  /** The corrected normal is zero exactly for degenerate triangles, and
      before normalisation it is perpendicular to both edges of the face. */
  lemma CalculateNormalZeroIffDegenerate(v1: Vec3, v2: Vec3, v3: Vec3, normalize: Vec3 -> Vec3)
    requires KeepsNonZero(normalize)
    ensures CalculateNormal(v1, v2, v3, normalize) == Zero3 <==> !IsNonDegenerate(v1, v2, v3)
    ensures Dot3(EdgeCross(v1, v2, v3), Sub3(v2, v1)) == 0.0
    ensures Dot3(EdgeCross(v1, v2, v3), Sub3(v3, v2)) == 0.0
  {
    var a, b := Sub3(v2, v1), Sub3(v3, v2);
    assert Dot3(Cross(a, b), a) == 0.0;
    assert Dot3(Cross(a, b), b) == 0.0;
  }
}
