# RenderFlow asset-loading core in Dafny

This project models the parts of the RenderFlow renderer (the rendering side of CubbyFlow) that turn imported data into GPU-ready values.

**The OBJ packer.** `LoadObjFile` appears twice, in the Common and GL3 asset loaders. It walks every triangle of every shape and builds one key per face corner. A key holds a position, a texture coordinate and a normal. Each key either reuses the index of an equal key seen earlier in the same shape, or appends its floats to an interleaved vertex buffer. In the second case it records `static_cast<unsigned int>(vertices.size() - 1)` as its index.
- That recorded index is the offset of the vertex's *last float*, not a vertex number. The model keeps this as written.
- It states where a reader finds the vertex from such an index: the block of `Stride(format)` floats that ends there.

The model is split by stage:
- `ObjTypes`: the parsed data.
- `ObjFace`: one face's three corner keys.
- `FaceNormal`: the flat face normal.
- `ObjPacker`: the de-duplicating packer, for one shape and for a whole file.
- `ObjLoad`: every shape's corner keys, packed shape after shape.
- `CommonAssetLoader` and `Gl3AssetLoader`: the two entry points. The GL3 loader adds smoothing-group normals.

**The other parts:**
- `Vertex` and `CoreVertex`: the vertex-size helpers, in both their copies.
- `Interpolation`: the keyframe samplers `Lerp`, `Step` and `SLerp`.
- `GltfMaterial` and `GltfScene`: the glTF records, with their default values, their integer enum codes and the required-extension check.

The parser, `glm::normalize` and the trigonometric functions are parameters. Floats are modelled as reals.

## Model

| member | source | states |
|---|---|---|
| ObjPacker.ToUInt32 | Sources/Common/AssetLoader.cpp:236-237 | The recorded index is the size expression reduced into `unsigned int` range. It is unchanged when it is already in range, and `0 - 1` wraps to 2^32 - 1. |
| ObjPacker.ToUInt32IsMod | Sources/Common/AssetLoader.cpp:236-237 | The `unsigned int` conversion is exactly the remainder modulo 2^32, for every integer. |
| ObjPacker.StrideIsNumberOfFloats | Sources/Common/AssetLoader.cpp:222-235 | The floats appended per new corner equal `GetNumberOfFloats` of the format restricted to position, normal and 2D texture coordinate. |
| ObjPacker.UnpackEmit | Sources/Common/AssetLoader.cpp:222-235 | Reading back an appended block (position, then normal, then texture coordinate) recovers every attribute the format asks for. |
| ObjPacker.ReadVertexOfBlock | Sources/Common/AssetLoader.cpp:222-239 | A corner's block, located at the offset of its last float, reads back as that corner's attributes. |
| ObjPacker.DedupIsDistinct | Sources/Common/AssetLoader.cpp:216-244 | The vertices a shape appends are its distinct corner keys in first-occurrence order: every corner appears exactly once. |
| ObjPacker.PackPrefixKeys | Sources/Common/AssetLoader.cpp:218-244 | After any number of corners, the corner map holds exactly the distinct keys seen so far. |
| ObjPacker.PackPrefixVertices | Sources/Common/AssetLoader.cpp:218-244 | A shape appends exactly the floats of its distinct corners, in first-occurrence order, after what the buffer already held. |
| ObjPacker.PackPrefixRecorded | Sources/Common/AssetLoader.cpp:218-244 | The index buffer gains one entry per corner and keeps its old contents. Each corner's entry is its key's map value. |
| ObjPacker.PackCorners | Sources/Common/AssetLoader.cpp:214-245 | The per-shape loop, from an empty map, appends the floats of each distinct corner once, in first-occurrence order. It adds one index entry per corner: the index of that corner's vertex, below the grown buffer's size. Earlier entries are kept. The GL3 loop (GL3 AssetLoader.cpp lines 271-294) is the same. |
| ObjPacker.PackPrefixIndices | Sources/Common/AssetLoader.cpp:214-245 | Every corner's index is the last-float offset of the vertex its key first created. |
| ObjPacker.EqualCornersShareIndex | Sources/Common/AssetLoader.cpp:218-244 | Within one shape, equal corner keys receive the same index. |
| ObjPacker.PackedReadBack | Sources/Common/AssetLoader.cpp:214-245 | While the buffer stays within `unsigned int` range, reading the vertex buffer through a corner's index gives exactly that corner's floats. |
| ObjPacker.PackedIndexInRange | Sources/Common/AssetLoader.cpp:220-239 | With a non-zero stride, every index a shape records is below the size of the vertex buffer it leaves, at any size, because the `unsigned int` conversion never increases an offset. |
| ObjPacker.PackPrefixIndexBound | Sources/Common/AssetLoader.cpp:214-245 | A shape adds exactly one index entry per corner, and each new entry lies inside the vertex buffer. |
| ObjPacker.PackShapes | Sources/Common/AssetLoader.cpp:94-247 | The whole-file loop (a fresh map per shape) appends each shape's distinct corners in shape order and one index per corner. Earlier buffer contents are kept. |
| ObjPacker.ShapesUpToBuffers | Sources/Common/AssetLoader.cpp:94-247 | After any number of shapes, the vertex buffer is the old contents followed by the shapes' distinct corners, and the index buffer gained one entry per corner. |
| ObjPacker.ShapesIndices | Sources/Common/AssetLoader.cpp:94-247 | In the whole file, a corner's index is the last-float offset of its vertex, counted after the floats of all earlier shapes. |
| ObjPacker.ShapesReadBack | Sources/Common/AssetLoader.cpp:94-247 | In the whole file, reading the final vertex buffer through any corner's index gives exactly that corner's floats. |
| ObjPacker.ShapesIndexBound | Sources/Common/AssetLoader.cpp:94-247 | After any number of shapes, every appended index entry is below the vertex buffer's size. Later shapes only grow the buffer, so earlier entries stay in range. |
| ObjPacker.BoundStep | Sources/Common/AssetLoader.cpp:214-245 | Packing one more shape keeps every index entry already in range inside the grown vertex buffer, and adds its own entries in range too. |
| ObjPacker.ThreePositionsExample | Sources/Common/AssetLoader.cpp:214-245 | A position-only triangle with three different corners yields 9 floats and indices 2, 5, 8. |
| ObjPacker.RepeatedCornerExample | Sources/Common/AssetLoader.cpp:214-245 | A repeated corner reuses its first index: indices 2, 5, 2 and only 6 floats. |
| ObjTypes.FlipV | Sources/Common/AssetLoader.cpp:193-202 | A texture coordinate from the file keeps its u, and its v becomes 1 - v. |
| ObjTypes.FlipVInvolution | Sources/Common/AssetLoader.cpp:193-202 | Flipping twice restores the file's coordinate, so the flip loses nothing. |
| ObjFace.ShapeCorners | Sources/Common/AssetLoader.cpp:97-211 | The shape's corner keys come in face order, three per face: corner `c` of face `f` is key `3f + c`. |
| ObjFace.FlatNormalAt | Sources/Common/AssetLoader.cpp:135-171 | Without smoothing, a corner's normal is the file's when every corner of the face has one. Otherwise all three corners get the face normal as `CalculateNormal` writes it, which is zero when the xy-only triangle check rejects the face. |
| ObjFace.TexCoordAt | Sources/Common/AssetLoader.cpp:173-211 | A corner's texture coordinate is the file's, flipped, when every corner of the face has one. Otherwise it is zero. The GL3 loader (lines 237-269) reads them the same way. |
| ObjFace.SmoothedNormal | Sources/GL3/AssetLoader.cpp:213-227 | With a smoothing map and no file normals, each corner's normal is the map's value at its own vertex index. |
| ObjLoad.LoadedCorner | Sources/Common/AssetLoader.cpp:65-250 | Reading the loaded buffers through corner `c` of face `f` of shape `s` gives that corner's key. |
| ObjLoad.CornerCount | Sources/Common/AssetLoader.cpp:97-98 | The shapes' corner lists hold exactly three keys per whole face. |
| ObjLoad.LoadedIndexCount | Sources/Common/AssetLoader.cpp:94-247 | A load appends exactly three index entries per whole face and keeps the earlier entries. One or two trailing indices add nothing. |
| ObjLoad.LoadedVertices | Sources/Common/AssetLoader.cpp:94-247 | A load appends, after the old contents, each shape's distinct corner keys in shape order, so a corner repeated in a later shape is appended again. |
| ObjLoad.LoadedIndexBound | Sources/Common/AssetLoader.cpp:220-239 | With a non-zero stride, every index entry a load appends is below the final vertex-buffer size. |
| CommonAssetLoader.NoSmoothing | Sources/Common/AssetLoader.cpp:94-171 | This loader gives no shape a smoothing map, so every face without file normals uses its flat normal. |
| CommonAssetLoader.LoadObjFile | Sources/Common/AssetLoader.cpp:65-250 | Failure leaves both buffers unchanged, and it happens exactly when parsing fails or there are no shapes. On success every shape is packed after the old buffer contents, with three new index entries per whole face, each below the final vertex-buffer size. |
| CommonAssetLoader.LoadedPosition | Sources/Common/AssetLoader.cpp:120-133 | A loaded vertex's position is the file position at the corner's vertex index. |
| CommonAssetLoader.LoadedTexCoord | Sources/Common/AssetLoader.cpp:173-211 | A loaded texture coordinate is the file's, flipped, when the face has them. Otherwise it is zero. |
| CommonAssetLoader.LoadedNormal | Sources/Common/AssetLoader.cpp:135-171 | A loaded normal is the file's when the face has them. Otherwise it is the written `CalculateNormal` of the corner's triangle. |
| Gl3AssetLoader.HasSmoothingGroup | Sources/GL3/AssetLoader.cpp:10-20 | True exactly when some face has a non-zero smoothing group id. |
| Gl3AssetLoader.AccumulateKeys | Sources/GL3/AssetLoader.cpp:42-78 | The accumulated map's keys are exactly the vertex indices the faces touch. |
| Gl3AssetLoader.AccumulateIsNormalSum | Sources/GL3/AssetLoader.cpp:42-78 | Insert-or-add computes, at every vertex, the sum of the written `CalculateNormal` face normals of the faces around it, counted once per corner. |
| Gl3AssetLoader.ComputeSmoothingNormals | Sources/GL3/AssetLoader.cpp:37-85 | The result maps exactly the touched vertex indices. Each maps to the normalised sum of its surrounding face normals, as the written `CalculateNormal` computes them. |
| Gl3AssetLoader.AddFaceNormal | Sources/GL3/AssetLoader.cpp:62-77 | One face's inner loop adds exactly its three vertex indices as keys. |
| Gl3AssetLoader.SmoothNormalsAreSums | Sources/GL3/AssetLoader.cpp:37-85 | The smoothing map's keys are the touched vertices, and each value is the normalised reference sum. |
| Gl3AssetLoader.SmoothingCoversCorners | Sources/GL3/AssetLoader.cpp:140-144 | In a shape with a smoothing group, every corner's vertex is a key, so the lookup never inserts a zero normal. The map is empty exactly when there is no group or no face. |
| Gl3AssetLoader.LoadObjFile | Sources/GL3/AssetLoader.cpp:115-299 | Fails, buffers unchanged, exactly when parsing fails or there are no shapes. Otherwise every shape, with its smoothing map when it has a group, is packed after the old contents, with three in-range index entries per whole face. |
| Gl3AssetLoader.LoadShapes | Sources/GL3/AssetLoader.cpp:138-296 | The shape loop appends each shape's distinct corners in file order after the old contents. It adds one index entry per corner of every shape, each below the final vertex-buffer size, and keeps the old entries. |
| Gl3AssetLoader.LoadShape | Sources/GL3/AssetLoader.cpp:138-294 | One pass of the shape loop packs the shape's corner keys, using its smoothing normals exactly when it has a smoothing group, from a fresh corner map. |
| Gl3AssetLoader.SameAsCommonWithoutSmoothing | Sources/GL3/AssetLoader.cpp:138-296 | Without any smoothing group, the GL3 loader's buffers equal the Common loader's. |
| Gl3AssetLoader.SmoothCornerNormal | Sources/GL3/AssetLoader.cpp:213-227 | A corner key of a face without file normals in a smoothing shape carries its vertex's normalised normal sum. |
| Gl3AssetLoader.LoadedSmoothNormal | Sources/GL3/AssetLoader.cpp:213-227 | Reading back such a corner gives the normalised sum of the face normals around its vertex, so all corners at one vertex agree. |
| FaceNormal.CalculateNormalAsWritten | Sources/Common/AssetLoader.cpp:18-29 | When the triangle check fails the normal is zero. Otherwise it is the normalised cross product of the two edges. |
| FaceNormal.CheckTriangleIsNormalZ | Sources/Common/AssetLoader.cpp:13-16 | The triangle check holds exactly when the z component of the edge cross product is non-zero. |
| FaceNormal.CheckTriangleSound | Sources/Common/AssetLoader.cpp:13-16 | The check never accepts a degenerate triangle. |
| FaceNormal.CheckTriangleRejectsVerticalTriangle | Sources/GL3/AssetLoader.cpp:22-35 | The non-degenerate triangle (0,0,0), (1,0,0), (1,0,1) fails the check, so its normal comes out zero. |
| FaceNormal.CalculateNormalAsWrittenZeroIff | Sources/Common/AssetLoader.cpp:13-29 | When `normalize` keeps non-zero vectors non-zero, the written normal is zero exactly when the triangle check fails. |
| FaceNormal.CalculateNormal | Sources/Common/AssetLoader.cpp:18-29 | The corrected normal agrees with the written one on every triangle the written check accepts. |
| FaceNormal.AsWrittenDiffersOnlyWhenVertical | Sources/Common/AssetLoader.cpp:13-29 | The written and the corrected normal differ only on non-degenerate triangles whose edge cross product has zero z: those perpendicular to the xy plane. |
| FaceNormal.CalculateNormalZeroIffDegenerate | Sources/Common/AssetLoader.cpp:18-29 | The corrected normal is zero exactly for degenerate triangles, and the edge cross product is perpendicular to both edges. |
| Vertex.NumberOfFloats | Sources/Common/Vertex.cpp:5-34 | At most 19 floats, and at least 3 whenever the format has a position. |
| Vertex.SizeInBytes | Sources/Common/Vertex.cpp:36-39 | The byte size is a whole number of floats, that number is `GetNumberOfFloats`, and it is at most 76. |
| Vertex.NumberOfFloatsIsWidthSum | Sources/Common/Vertex.cpp:5-34 | The float count equals the sum of the widths of the flags in the format. |
| Vertex.NumberOfFloatsZeroIffEmpty | Sources/Common/Vertex.cpp:5-34 | The float count is zero exactly for the empty format. |
| Vertex.NumberOfFloatsAdditive | Sources/Common/Vertex.cpp:5-34 | The float count of two disjoint formats combined is the sum of their counts. |
| CoreVertex.NumberOfFloats | Sources/Core/Vertex.cpp:5-28 | At most 19 floats. |
| CoreVertex.SizeInBytes | Sources/Core/Vertex.cpp:30-33 | The byte size is a whole number of floats, and that number is the Core float count. |
| CoreVertex.AgreesWithCommon | Sources/Core/Vertex.cpp:5-33 | The Core copy agrees with the Common copy on every format, in floats and in bytes. |
| Interpolation.Lerp | Includes/Common/MathUtils-Impl.hpp:15-19 | The offset from `prev` is `keyframe` times the span, so keyframe 0 gives `prev` and keyframe 1 gives `next`. |
| Interpolation.LerpVec | Includes/Common/MathUtils-Impl.hpp:15-19 | Each component is the scalar lerp of its endpoints. |
| Interpolation.LerpVecEndpoints | Includes/Common/MathUtils-Impl.hpp:15-19 | A vector lerp yields `prev` at keyframe 0 and `next` at keyframe 1. |
| Interpolation.LerpVecMidpoint | Includes/Common/MathUtils-Impl.hpp:15-19 | At keyframe 0.5 each component is the midpoint. |
| Interpolation.Step | Includes/Common/MathUtils-Impl.hpp:59-63 | The sample is one of the two. When they differ it is `next` exactly when the keyframe has reached 1. |
| Interpolation.StepHoldsPrev | Includes/Common/MathUtils-Impl.hpp:59-63 | Every keyframe in [0, 1) holds the earlier sample. |
| Interpolation.ShortestPath | Includes/Common/MathUtils-Impl.hpp:24-31 | After correction the dot product is the absolute value of the original and never negative. `next` is negated exactly when the original was negative. |
| Interpolation.SLerp | Includes/Common/MathUtils-Impl.hpp:21-48 | Above 0.9995 (absolute dot product) the result is the normalised lerp toward the corrected `next`. Otherwise it is the spherical blend. |
| Interpolation.SLerpAtZero | Includes/Common/MathUtils-Impl.hpp:21-48 | At keyframe 0 the result is `prev` on the spherical branch and `prev` normalised on the nearly-colinear branch. |
| GltfMaterial.CheckRequiredExtension | Sources/Common/GLTFMaterial.cpp:6-21 | True exactly for the nine listed Khronos extension names, each of which starts with `KHR_`. |
| GltfMaterial.SupportedExtensionCount | Sources/Common/GLTFMaterial.cpp:8-18 | The nine names are pairwise distinct, so the set has nine members. |
| GltfMaterial.CheckRequiredExtensionIsExact | Sources/Common/GLTFMaterial.cpp:20 | Matching is exact: a lower-case spelling and the empty name are rejected. |
| GltfMaterial.ShadingModelFromCode | Includes/Common/GLTFMaterial.hpp:92 | Codes 0 and 1 decode to the model they encode, and every other integer decodes to nothing. |
| GltfMaterial.AlphaModeFromCode | Includes/Common/GLTFMaterial.hpp:103 | Codes 0 to 2 decode to the mode they encode, and every other integer decodes to nothing. |
| GltfMaterial.EnumCodesRoundTrip | Includes/Common/GLTFMaterial.hpp:90-119 | Decoding the code of a shading model or alpha mode gives it back. |
| GltfMaterial.DefaultTextureTransform | Includes/Common/GLTFMaterial.hpp:65-74 | The default texture transform leaves coordinates where they are. |
| GltfMaterial.DefaultMaterial | Includes/Common/GLTFMaterial.hpp:28-119 | A fresh material is metallic-roughness, has the glTF 2.0 core defaults, binds no texture and has inert extensions. |
| GltfScene.DracoIsNotSupported | Includes/Common/GLTFScene.hpp:18 | The Draco compression extension is declared but not accepted as a required extension. |
| GltfScene.DefaultNode | Includes/Common/GLTFScene.hpp:161-172 | A fresh node is a root with no meshes or children, zero translation and unit scale. |
| GltfScene.DefaultNodeTransforms | Includes/Common/GLTFScene.hpp:163-164 | A fresh node's world and local matrices are the identity. |
| GltfScene.DefaultNodeRotation | Includes/Common/GLTFScene.hpp:167 | A fresh node's rotation is the zero quaternion, not the identity rotation. |
| GltfScene.DefaultPrimMesh | Includes/Common/GLTFScene.hpp:174-185 | A fresh primitive mesh covers no indices or vertices and has a zero bounding box. |
| GltfScene.InterpolationFromCode | Includes/Common/GLTFScene.hpp:205-210 | Codes 0 to 2 decode to the interpolation they encode, and other integers decode to nothing. |
| GltfScene.PathFromCode | Includes/Common/GLTFScene.hpp:218-224 | Codes 0 to 3 decode to the path they encode, and other integers decode to nothing. |
| GltfScene.EnumCodesRoundTrip | Includes/Common/GLTFScene.hpp:203-228 | Decoding the code of an interpolation or a path gives it back. |
| GltfScene.DefaultSampler | Includes/Common/GLTFScene.hpp:203-214 | A fresh sampler is linear (code 0) with no keyframes. |
| GltfScene.DefaultChannel | Includes/Common/GLTFScene.hpp:216-228 | A fresh channel animates translation (code 0) of node 0 with sampler 0. |
| GltfScene.DefaultAnimation | Includes/Common/GLTFScene.hpp:230-237 | A fresh animation is unnamed and has no samplers or channels. |
| GltfScene.DefaultSceneDimension | Includes/Common/GLTFScene.hpp:239-250 | The minimum starts at the largest float on every axis. The maximum starts at the smallest positive normal float (2^-126) on every axis, not the lowest float. Size, center and radius start at zero. |
| GltfScene.SceneDimensionStartValues | Includes/Common/GLTFScene.hpp:239-250 | Illustrates the start values with a running minimum and maximum: any representable coordinate replaces the starting minimum, and a non-positive coordinate never replaces the starting maximum. Nothing in the struct computes these bounds. |

## Findings

| source | as written | input that shows it | evidently intended | confidence | as-written member | corrected member |
|---|---|---|---|---|---|---|
| Sources/Common/AssetLoader.cpp:13-29 (and Sources/GL3/AssetLoader.cpp:22-35) | `CheckTriangle` compares two products of x and y edge components, which is the z component of the edge cross product. A triangle perpendicular to the xy plane fails it, and `CalculateNormal` returns the zero vector for it. | the triangle (0,0,0), (1,0,0), (1,0,1): its face normal is (0,-1,0), yet it gets a zero normal | a zero normal only for degenerate triangles, whose edge cross product vanishes | not executed | FaceNormal.CheckTriangleRejectsVerticalTriangle | FaceNormal.CalculateNormalZeroIffDegenerate |

Both loaders use `CalculateNormal` as written (`FaceNormal.CalculateNormalAsWritten`), so in the model, as in the source, a triangle perpendicular to the xy plane gets a zero flat normal. It also adds nothing to the GL3 smoothing sums. The corrected `FaceNormal.CalculateNormal` stands beside it. `FaceNormal.AsWrittenDiffersOnlyWhenVertical` shows the two can differ only on such triangles.

## Left out

- Parsing the OBJ file (`tinyobj::LoadObj`), file I/O and the console messages: the parse result is a parameter, and `None` stands for a parse failure.
- The loaders' tolerance-based `operator<` on corner keys: keys are compared by exact equality, since floats are modelled as reals.
- Float rounding: positions, normals and interpolation are computed over the reals.
- `glm::normalize`, `std::sin`, `std::cos` and `std::acos` are function parameters, because the reals have no such functions. Only the facts about them that the proofs use are stated as preconditions.
- Uninitialised values: when the format lacks position, texture coordinate or normal, the source leaves those local values uninitialised. The model reads them as zero.
- Debug `assert`s on index ranges are preconditions (`ObjLoad.Readable`, `Gl3AssetLoader.Gl3Readable`). The model does not describe what a release build does with an out-of-range index.
- Each shape's corner keys are computed before its packing loop rather than interleaved with it. The order of corners, and so the result, is the same.
- ObjPacker.ShapesReadBack: holds only while the whole vertex buffer stays within `unsigned int` range, because larger offsets wrap in the index buffer. The same limit applies to ObjPacker.PackedReadBack, ObjLoad.LoadedCorner and the `Loaded*` lemmas.
- `CubicSpline`: it has no implementation in the source.
- `GLTFScene` import, scene traversal, the dimension computation and the camera and light records: they work on the tinygltf document, which is not part of this model.
- Interpolation.SLerp: the spherical branch is stated as its blend formula, not as a unit quaternion, because that depends on properties of the trigonometric parameters beyond those assumed.
