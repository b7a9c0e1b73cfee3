/** The records `GLTFScene` keeps for an imported glTF document: nodes,
    primitive meshes, animation samplers, channels and animations, and the
    scene dimension, with the values each holds when created. The scene's
    import and animation code is not part of this model. */
module GltfScene {
  import opened Glm
  import opened Options
  import GltfMaterial

  /** `KHR_DRACO_MESH_EXTENSION_NAME`: declared beside the other extension names. */
  const KhrDracoMeshCompression: string := "KHR_draco_mesh_compression"

  /** Draco mesh compression is named but not in the supported list. */
  lemma DracoIsNotSupported()
    ensures !GltfMaterial.CheckRequiredExtension(KhrDracoMeshCompression)
  {
  }

  /** The parent index a root node carries. */
  const NoParent: int := -1

  /** `GLTFNode`: 4x4 world and local matrices, the translation, scale and
      rotation the local matrix is built from, the primitive meshes and child
      nodes it refers to (as indices), its parent's index and its own. */
  datatype Node = Node(world: Matrix, local: Matrix, translation: Vec3, scale: Vec3, rotation: Quat,
                       primMeshes: seq<nat>, childNodes: seq<nat>, parentNode: int, nodeIndex: int)

  predicate IsRoot(n: Node) {
    n.parentNode == NoParent
  }

  /** A node as created: identity transforms, no translation, unit scale, no
      children or meshes, no parent. Its rotation is the all-zero quaternion,
      which is not the identity rotation and not a rotation at all. */
  function DefaultNode(): (n: Node)
    ensures n.translation == Zero3 && n.scale == One3
    ensures n.rotation == ZeroQuat
    ensures IsRoot(n) && n.nodeIndex == 0
    ensures n.primMeshes == [] && n.childNodes == []
  {
    Node(Identity4, Identity4, Zero3, One3, ZeroQuat, [], [], NoParent, 0)
  }

  /** A node as created has identity world and local matrices. */
  lemma DefaultNodeTransforms()
    ensures IsIdentity(DefaultNode().world, 4) && IsIdentity(DefaultNode().local, 4)
  {
  }

  /** A node as created has a rotation of norm 0: it differs from the
      identity rotation, and the local matrix built from it would not be a
      rotation either. */
  lemma DefaultNodeRotation()
    ensures QuatNorm2(DefaultNode().rotation) == 0.0
    ensures DefaultNode().rotation != IdentityQuat
  {
    assert QuatNorm2(ZeroQuat) == 0.0;
  }

  /** `GLTFPrimMesh`: the draw range of one primitive in the shared index and
      vertex pools, its material, its local bounds and its name. The four
      range fields are `unsigned int`. */
  datatype PrimMesh = PrimMesh(firstIndex: nat, indexCount: nat, vertexOffset: nat, vertexCount: nat,
                               materialIndex: int, min: Vec3, max: Vec3, name: string)

  /** A primitive mesh as created: an empty draw range at the start of both
      pools, material 0, degenerate bounds at the origin. */
  function DefaultPrimMesh(): (p: PrimMesh)
    ensures p.indexCount == 0 && p.vertexCount == 0
    ensures p.firstIndex == 0 && p.vertexOffset == 0
    ensures p.materialIndex == 0
    ensures p.min == p.max == Zero3
    ensures p.name == ""
  {
    PrimMesh(0, 0, 0, 0, 0, Zero3, Zero3, "")
  }

  /** `GLTFSampler::Interpolation`. */
  datatype Interpolation = Linear | Step | Cubicspline

  function InterpolationCode(i: Interpolation): nat {
    match i
    case Linear => 0
    case Step => 1
    case Cubicspline => 2
  }

  function InterpolationFromCode(c: int): (r: Option<Interpolation>)
    ensures r.Some? ==> InterpolationCode(r.value) == c
    ensures r.None? <==> !(0 <= c <= 2)
  {
    if c == 0 then Some(Linear)
    else if c == 1 then Some(Step)
    else if c == 2 then Some(Cubicspline)
    else None
  }

  /** `GLTFChannel::Path`. */
  datatype Path = Translation | Rotation | Scale | Weights

  function PathCode(p: Path): nat {
    match p
    case Translation => 0
    case Rotation => 1
    case Scale => 2
    case Weights => 3
  }

  function PathFromCode(c: int): (r: Option<Path>)
    ensures r.Some? ==> PathCode(r.value) == c
    ensures r.None? <==> !(0 <= c <= 3)
  {
    if c == 0 then Some(Translation)
    else if c == 1 then Some(Rotation)
    else if c == 2 then Some(Scale)
    else if c == 3 then Some(Weights)
    else None
  }

  /** Decoding an encoded interpolation mode or path gives it back. */
  lemma EnumCodesRoundTrip(i: Interpolation, p: Path)
    ensures InterpolationFromCode(InterpolationCode(i)) == Some(i)
    ensures PathFromCode(PathCode(p)) == Some(p)
  {
  }

  /** `GLTFSampler`: the keyframe times and the sampled values (packed as vec4). */
  datatype Sampler = Sampler(interpolation: Interpolation, inputs: seq<real>, outputs: seq<Vec4>)

  /** `GLTFChannel`: which property of which node a sampler drives. */
  datatype Channel = Channel(path: Path, samplerIndex: int, nodeIndex: int)

  /** `GLTFAnimation`: a name and a start index and a count into the scene's
      shared sampler pool and shared channel pool. */
  datatype Animation = Animation(name: string, samplerIndex: nat, samplerCount: nat,
                                 channelIndex: nat, channelCount: nat)

  function DefaultSampler(): (s: Sampler)
    ensures InterpolationCode(s.interpolation) == 0
    ensures s.inputs == [] && s.outputs == []
  {
    Sampler(Linear, [], [])
  }

  function DefaultChannel(): (c: Channel)
    ensures PathCode(c.path) == 0
    ensures c.samplerIndex == 0 && c.nodeIndex == 0
  {
    Channel(Translation, 0, 0)
  }

  /** An animation as created owns no sampler and no channel. */
  function DefaultAnimation(): (a: Animation)
    ensures a.samplerCount == 0 && a.channelCount == 0
    ensures a.samplerIndex == 0 && a.channelIndex == 0
    ensures a.name == ""
  {
    Animation("", 0, 0, 0, 0)
  }

  /** `std::numeric_limits<float>::max()`, (2 - 2^-23) * 2^127. */
  const FloatMax: real := 340282346638528859811704183484516925440.0

  /** `std::numeric_limits<float>::min()`: the smallest positive normal float,
      2^-126, not the most negative float. */
  const FloatMinPositive: real := 1.0 / 85070591730234615865843651857942052864.0

  /** `SceneDimension`: the aggregate bounds of the scene. */
  datatype SceneDimension = SceneDimension(min: Vec3, max: Vec3, size: Vec3, center: Vec3, radius: real)

  function DefaultSceneDimension(): (d: SceneDimension)
    ensures d.min == Vec3(FloatMax, FloatMax, FloatMax)
    ensures d.max == Vec3(FloatMinPositive, FloatMinPositive, FloatMinPositive)
    ensures d.size == Zero3 && d.center == Zero3 && d.radius == 0.0
  {
    SceneDimension(Vec3(FloatMax, FloatMax, FloatMax),
                   Vec3(FloatMinPositive, FloatMinPositive, FloatMinPositive),
                   Zero3, Zero3, 0.0)
  }

  function Min(a: real, b: real): real {
    if a <= b then a else b
  }

  function Max(a: real, b: real): real {
    if a >= b then a else b
  }

  /** What the start values mean for a running minimum and maximum: the
      minimum start gives way to any coordinate a float can hold, but the
      maximum start (a tiny positive number) is never replaced by a
      coordinate at or below it, so a scene lying entirely at negative x
      would keep the start value as its maximum x. */
  lemma SceneDimensionStartValues(p: Vec3)
    ensures var d := DefaultSceneDimension();
            (-FloatMax <= p.x <= FloatMax ==> Min(d.min.x, p.x) == p.x)
            && (-FloatMax <= p.y <= FloatMax ==> Min(d.min.y, p.y) == p.y)
            && (-FloatMax <= p.z <= FloatMax ==> Min(d.min.z, p.z) == p.z)
    ensures var d := DefaultSceneDimension();
            (p.x <= 0.0 ==> Max(d.max.x, p.x) == FloatMinPositive != p.x)
            && (p.y <= 0.0 ==> Max(d.max.y, p.y) == FloatMinPositive != p.y)
            && (p.z <= 0.0 ==> Max(d.max.z, p.z) == FloatMinPositive != p.z)
  {
  }
}
