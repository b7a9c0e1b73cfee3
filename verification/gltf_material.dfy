/** `Common::GLTFMaterial` and the `GLTFExtension` records: the material as
    imported from a glTF document, with the values it holds before any field
    is read, and the check of an extension name against the supported list. */
module GltfMaterial {
  import opened Glm
  import opened Options

  // Khronos extension names, as the `KHR_*_EXTENSION_NAME` macros spell them.
  const KhrLightsPunctual: string := "KHR_lights_punctual"
  const KhrMaterialsClearcoat: string := "KHR_materials_clearcoat"
  const KhrMaterialsPbrSpecularGlossiness: string := "KHR_materials_pbrSpecularGlossiness"
  const KhrMaterialsSheen: string := "KHR_materials_sheen"
  const KhrMaterialsTransmission: string := "KHR_materials_transmission"
  const KhrMaterialsUnlit: string := "KHR_materials_unlit"
  const KhrMaterialsVariants: string := "KHR_materials_variants"
  const KhrMeshQuantization: string := "KHR_mesh_quantization"
  const KhrTextureTransform: string := "KHR_texture_transform"

  /** The function-local static set `kSupportedExtensions`: built once from
      the nine names and never changed, so the check depends only on its
      argument. */
  const SupportedExtensions: set<string> := {
    KhrLightsPunctual, KhrMaterialsClearcoat, KhrMaterialsPbrSpecularGlossiness,
    KhrMaterialsSheen, KhrMaterialsTransmission, KhrMaterialsUnlit,
    KhrMaterialsVariants, KhrMeshQuantization, KhrTextureTransform
  }

  /** `GLTFExtension::CheckRequiredExtension`: whole-string, case-sensitive
      membership in the supported list. */
  function CheckRequiredExtension(extension: string): (supported: bool)
    ensures supported <==>
      || extension == KhrLightsPunctual
      || extension == KhrMaterialsClearcoat
      || extension == KhrMaterialsPbrSpecularGlossiness
      || extension == KhrMaterialsSheen
      || extension == KhrMaterialsTransmission
      || extension == KhrMaterialsUnlit
      || extension == KhrMaterialsVariants
      || extension == KhrMeshQuantization
      || extension == KhrTextureTransform
    ensures supported ==> |extension| > 4 && extension[..4] == "KHR_"
  {
    extension in SupportedExtensions
  }

  /** The nine names are pairwise distinct. */
  lemma SupportedExtensionCount()
    ensures |SupportedExtensions| == 9
  {
    var s0: set<string> := {};
    var s1 := s0 + {KhrLightsPunctual};
    var s2 := s1 + {KhrMaterialsClearcoat};
    assert KhrMaterialsClearcoat !in s1 by { assert KhrMaterialsClearcoat[4] != KhrLightsPunctual[4]; }
    var s3 := s2 + {KhrMaterialsPbrSpecularGlossiness};
    assert KhrMaterialsPbrSpecularGlossiness !in s2 by {
      assert KhrMaterialsPbrSpecularGlossiness[4] != KhrLightsPunctual[4];
      assert |KhrMaterialsPbrSpecularGlossiness| != |KhrMaterialsClearcoat|;
    }
    var s4 := s3 + {KhrMaterialsSheen};
    assert KhrMaterialsSheen !in s3 by {
      assert KhrMaterialsSheen[4] != KhrLightsPunctual[4];
      assert |KhrMaterialsSheen| != |KhrMaterialsClearcoat|;
      assert |KhrMaterialsSheen| != |KhrMaterialsPbrSpecularGlossiness|;
    }
    var s5 := s4 + {KhrMaterialsTransmission};
    assert KhrMaterialsTransmission !in s4 by {
      assert KhrMaterialsTransmission[4] != KhrLightsPunctual[4];
      assert |KhrMaterialsTransmission| != |KhrMaterialsClearcoat|;
      assert |KhrMaterialsTransmission| != |KhrMaterialsPbrSpecularGlossiness|;
      assert |KhrMaterialsTransmission| != |KhrMaterialsSheen|;
    }
    var s6 := s5 + {KhrMaterialsUnlit};
    assert KhrMaterialsUnlit !in s5 by {
      assert KhrMaterialsUnlit[4] != KhrLightsPunctual[4];
      assert KhrMaterialsUnlit[14] != KhrMaterialsClearcoat[14];
      assert |KhrMaterialsUnlit| != |KhrMaterialsPbrSpecularGlossiness|;
      assert KhrMaterialsUnlit[14] != KhrMaterialsSheen[14];
      assert |KhrMaterialsUnlit| != |KhrMaterialsTransmission|;
    }
    var s7 := s6 + {KhrMaterialsVariants};
    assert KhrMaterialsVariants !in s6 by {
      assert KhrMaterialsVariants[4] != KhrLightsPunctual[4];
      assert KhrMaterialsVariants[14] != KhrMaterialsClearcoat[14];
      assert |KhrMaterialsVariants| != |KhrMaterialsPbrSpecularGlossiness|;
      assert |KhrMaterialsVariants| != |KhrMaterialsSheen|;
      assert |KhrMaterialsVariants| != |KhrMaterialsTransmission|;
      assert |KhrMaterialsVariants| != |KhrMaterialsUnlit|;
    }
    var s8 := s7 + {KhrMeshQuantization};
    assert KhrMeshQuantization !in s7 by {
      assert KhrMeshQuantization[4] != KhrLightsPunctual[4];
      assert KhrMeshQuantization[5] != KhrMaterialsClearcoat[5];
      assert KhrMeshQuantization[5] != KhrMaterialsPbrSpecularGlossiness[5];
      assert KhrMeshQuantization[5] != KhrMaterialsSheen[5];
      assert KhrMeshQuantization[5] != KhrMaterialsTransmission[5];
      assert KhrMeshQuantization[5] != KhrMaterialsUnlit[5];
      assert KhrMeshQuantization[5] != KhrMaterialsVariants[5];
    }
    var s9 := s8 + {KhrTextureTransform};
    assert KhrTextureTransform !in s8 by {
      assert KhrTextureTransform[4] != KhrLightsPunctual[4];
      assert KhrTextureTransform[4] != KhrMaterialsClearcoat[4];
      assert KhrTextureTransform[4] != KhrMaterialsPbrSpecularGlossiness[4];
      assert KhrTextureTransform[4] != KhrMaterialsSheen[4];
      assert KhrTextureTransform[4] != KhrMaterialsTransmission[4];
      assert KhrTextureTransform[4] != KhrMaterialsUnlit[4];
      assert KhrTextureTransform[4] != KhrMaterialsVariants[4];
      assert KhrTextureTransform[4] != KhrMeshQuantization[4];
    }
    assert s9 == SupportedExtensions;
  }

  /** Matching is exact: a lower-cased supported name and the empty name are rejected. */
  lemma CheckRequiredExtensionIsExact()
    ensures !CheckRequiredExtension("khr_lights_punctual")
    ensures !CheckRequiredExtension("")
    ensures CheckRequiredExtension(KhrTextureTransform)
  {
  }

  /** The value a texture slot holds when no texture is bound. */
  const NoTexture: int := -1

  /** Values of the `shadingModel` field. */
  datatype ShadingModel = MetallicRoughness | SpecularGlossinessModel

  /** Values of the `alphaMode` field. */
  datatype AlphaMode = Opaque | Mask | Blend

  function ShadingModelCode(m: ShadingModel): int {
    match m
    case MetallicRoughness => 0
    case SpecularGlossinessModel => 1
  }

  function ShadingModelFromCode(c: int): (r: Option<ShadingModel>)
    ensures r.Some? ==> ShadingModelCode(r.value) == c
    ensures r.None? <==> c != 0 && c != 1
  {
    if c == 0 then Some(MetallicRoughness)
    else if c == 1 then Some(SpecularGlossinessModel)
    else None
  }

  function AlphaModeCode(a: AlphaMode): int {
    match a
    case Opaque => 0
    case Mask => 1
    case Blend => 2
  }

  function AlphaModeFromCode(c: int): (r: Option<AlphaMode>)
    ensures r.Some? ==> AlphaModeCode(r.value) == c
    ensures r.None? <==> !(0 <= c <= 2)
  {
    if c == 0 then Some(Opaque)
    else if c == 1 then Some(Mask)
    else if c == 2 then Some(Blend)
    else None
  }

  /** Decoding an encoded shading model or alpha mode gives it back. */
  lemma EnumCodesRoundTrip(m: ShadingModel, a: AlphaMode)
    ensures ShadingModelFromCode(ShadingModelCode(m)) == Some(m)
    ensures AlphaModeFromCode(AlphaModeCode(a)) == Some(a)
  {
  }

  datatype Clearcoat = Clearcoat(factor: real, texture: int, roughnessFactor: real,
                                 roughnessTexture: int, normalTexture: int)

  datatype SpecularGlossiness = SpecularGlossiness(diffuseFactor: Vec4, diffuseTexture: int,
                                                   specularFactor: Vec3, glossinessFactor: real,
                                                   specularGlossinessTexture: int)

  datatype Sheen = Sheen(colorFactor: Vec3, colorTexture: int, roughnessFactor: real, roughnessTexture: int)

  datatype Transmission = Transmission(factor: real, texture: int)

  datatype Unlit = Unlit(active: int)

  /** `uvTransform` is the 3x3 matrix computed from offset, rotation and scale. */
  datatype TextureTransform = TextureTransform(offset: Vec2, rotation: real, scale: Vec2,
                                               texCoord: int, uvTransform: Matrix)

  datatype Material = Material(
    shadingModel: int,
    baseColorFactor: Vec4,
    baseColorTexture: int,
    metallicFactor: real,
    roughnessFactor: real,
    metallicRoughnessTexture: int,
    emissiveTexture: int,
    emissiveFactor: Vec3,
    alphaMode: int,
    alphaCutoff: real,
    doubleSided: int,
    normalTexture: int,
    normalTextureScale: real,
    occlusionTexture: int,
    occlusionTextureStrength: real,
    specularGlossiness: SpecularGlossiness,
    textureTransform: TextureTransform,
    clearcoat: Clearcoat,
    sheen: Sheen,
    transmission: Transmission,
    unlit: Unlit)

  /** The defaults section 3.9 of the glTF 2.0 specification gives for a
      material that states none of its properties. */
  ghost predicate GltfCoreDefaults(m: Material) {
    && m.baseColorFactor == Vec4(1.0, 1.0, 1.0, 1.0)
    && m.metallicFactor == 1.0
    && m.roughnessFactor == 1.0
    && m.emissiveFactor == Zero3
    && AlphaModeFromCode(m.alphaMode) == Some(Opaque)
    && m.alphaCutoff == 0.5
    && m.doubleSided == 0
    && m.normalTextureScale == 1.0
    && m.occlusionTextureStrength == 1.0
  }

  /** No texture slot of the material or its extensions refers to a texture. */
  ghost predicate NoTextureBound(m: Material) {
    && m.baseColorTexture == NoTexture
    && m.metallicRoughnessTexture == NoTexture
    && m.emissiveTexture == NoTexture
    && m.normalTexture == NoTexture
    && m.occlusionTexture == NoTexture
    && m.specularGlossiness.diffuseTexture == NoTexture
    && m.specularGlossiness.specularGlossinessTexture == NoTexture
    && m.clearcoat.texture == NoTexture
    && m.clearcoat.roughnessTexture == NoTexture
    && m.clearcoat.normalTexture == NoTexture
    && m.sheen.colorTexture == NoTexture
    && m.sheen.roughnessTexture == NoTexture
    && m.transmission.texture == NoTexture
  }

  /** The layered extensions contribute nothing: no clearcoat, sheen or
      transmission layer, unlit inactive. */
  ghost predicate ExtensionsInert(m: Material) {
    && m.clearcoat.factor == 0.0 && m.clearcoat.roughnessFactor == 0.0
    && m.sheen.colorFactor == Zero3 && m.sheen.roughnessFactor == 0.0
    && m.transmission.factor == 0.0
    && m.unlit.active == 0
  }

  /** The texture transform leaves texture coordinates where they are. */
  ghost predicate IsIdentityTransform(t: TextureTransform) {
    && t.offset == Zero2
    && t.rotation == 0.0
    && t.scale == Vec2(1.0, 1.0)
    && t.texCoord == 0
    && IsIdentity(t.uvTransform, 3)
  }

  /** The specular-glossiness block is neutral: white diffuse and specular, full glossiness. */
  ghost predicate NeutralSpecularGlossiness(s: SpecularGlossiness) {
    && s.diffuseFactor == Vec4(1.0, 1.0, 1.0, 1.0)
    && s.specularFactor == One3
    && s.glossinessFactor == 1.0
  }

  function DefaultTextureTransform(): (t: TextureTransform)
    ensures IsIdentityTransform(t)
  {
    TextureTransform(Zero2, 0.0, Vec2(1.0, 1.0), 0, Identity3)
  }

  /** A `GLTFMaterial` as value-initialised, before any field of the source
      material is read. */
  function DefaultMaterial(): (m: Material)
    ensures ShadingModelFromCode(m.shadingModel) == Some(MetallicRoughness)
    ensures GltfCoreDefaults(m)
    ensures NoTextureBound(m)
    ensures ExtensionsInert(m)
    ensures NeutralSpecularGlossiness(m.specularGlossiness)
    ensures IsIdentityTransform(m.textureTransform)
  {
    Material(
      shadingModel := 0,
      baseColorFactor := Vec4(1.0, 1.0, 1.0, 1.0),
      baseColorTexture := NoTexture,
      metallicFactor := 1.0,
      roughnessFactor := 1.0,
      metallicRoughnessTexture := NoTexture,
      emissiveTexture := NoTexture,
      emissiveFactor := Zero3,
      alphaMode := 0,
      alphaCutoff := 0.5,
      doubleSided := 0,
      normalTexture := NoTexture,
      normalTextureScale := 1.0,
      occlusionTexture := NoTexture,
      occlusionTextureStrength := 1.0,
      specularGlossiness := SpecularGlossiness(Vec4(1.0, 1.0, 1.0, 1.0), NoTexture, One3, 1.0, NoTexture),
      textureTransform := DefaultTextureTransform(),
      clearcoat := Clearcoat(0.0, NoTexture, 0.0, NoTexture, NoTexture),
      sheen := Sheen(Zero3, NoTexture, 0.0, NoTexture),
      transmission := Transmission(0.0, NoTexture),
      unlit := Unlit(0))
  }
}
