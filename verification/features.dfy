/** The inputs of one draw call and the feature flags the shader derives
    from them before it either records static state or sets dynamic state. */
module Features {
  import opened Util
  import opened Params

  /** The console variables the shader reads, as a read-only record:
      `mat_fullbright`, `mat_pbr_force_20b`, `mat_pbr_parallaxmap`,
      `mat_pbr_parallaxmap_quality`, `mat_allow_parallax_cubemaps`,
      `mat_pbr_parallax_dither_amount`, and the engine configuration's
      shadow-depth-texture switch. */
  datatype Config = Config(
    fullbright: int,
    force20b: bool,
    parallaxMap: bool,
    parallaxQuality: int,
    allowParallaxCubemaps: bool,
    parallaxDitherAmount: real,
    shadowDepthTexture: bool)

  /** The hardware queries the shader makes. */
  datatype Hardware = Hardware(
    fastVertexTextures: bool,
    shadowFilterMode: int,
    hdrNone: bool)

  /** What the engine's blend evaluation reports for the base texture. */
  datatype BlendType = BtNone | BtBlend | BtAdd | BtBlendAdd

  /** A material using the shader: its parameters (as they stand when the
      shader draws), the parameters whose texture loaded successfully, and
      the material flags the shader tests. */
  datatype Material = Material(
    params: ParamSet,
    loaded: set<ParamId>,
    isModel: bool,
    alphaTest: bool,
    noDebugOverride: bool)

  /** A parameter holds a usable texture: it is defined and its texture
      loaded. */
  predicate IsTexture(m: Material, k: ParamId) {
    IsDefined(m.params, k) && k in m.loaded
  }

  /** The booleans computed at the top of every draw. */
  datatype FeatureFlags = FeatureFlags(
    hasBaseTexture: bool,
    isWvt: bool,
    hasNormal: bool,
    hasNormal2: bool,
    hasMrao: bool,
    hasMrao2: bool,
    hasEmission: bool,
    hasEmission2: bool,
    hasEnv: bool,
    isAlphaTested: bool,
    hasFlashlight: bool,
    lightMapped: bool,
    hasMraoScale: bool,
    hasMraoScale2: bool,
    hasEmissionScale: bool,
    hasEmissionScale2: bool,
    hasEmissionFresnel: bool,
    hasHsv: bool,
    blendHsv: bool,
    hasParallaxCorrection: bool,
    blendTintByMraoAlpha: bool,
    fullyOpaque: bool,
    useParallax: bool,
    parallaxDither: bool)

  /** An integer parameter read as a boolean (`!!GetIntValue()`). */
  predicate IsSet(p: ParamSet, k: ParamId) {
    IntOf(p, k) != 0
  }

  /** A scale vector is in use when its first component is non-negative. */
  predicate HasScale(p: ParamSet, k: ParamId) {
    VecOf(p, k, 0) >= 0.0
  }

  /** World-vertex-transition blending: a brush with a second base texture. */
  predicate IsWvt(m: Material) {
    !m.isModel && IsTexture(m, BaseTexture2)
  }

  /** Emissive fresnel needs fast vertex textures, an emission texture, no
      flashlight, and a non-negative exponent in the fresnel ranges. */
  predicate EmissionFresnelOn(m: Material, hw: Hardware, flashlight: bool) {
    hw.fastVertexTextures && IsTexture(m, EmissionTexture) && !flashlight
    && VecOf(m.params, EmissionFresnel, 3) >= 0.0
  }

  predicate BlendHsv(m: Material) {
    HasScale(m.params, Hsv) && IsSet(m.params, HsvBlend)
  }

  predicate HasParallaxCorrection(m: Material) {
    IsTexture(m, Envmap) && IsSet(m.params, EnvmapParallax)
  }

  /** Neither blended nor alpha tested. */
  predicate FullyOpaque(m: Material, blend: BlendType) {
    blend != BtBlendAdd && blend != BtBlend && !m.alphaTest
  }

  /** Parallax occlusion: the global switch, fast vertex textures, 2.0b not
      forced, and `$parallax` set. */
  predicate UseParallax(m: Material, hw: Hardware, cfg: Config) {
    cfg.parallaxMap && hw.fastVertexTextures && !cfg.force20b && IsSet(m.params, Parallax)
  }

  predicate DitherParallax(m: Material, hw: Hardware, cfg: Config) {
    UseParallax(m, hw, cfg) && IsSet(m.params, ParallaxDither)
  }

  /** Flag derivation. `flashlight` is the engine's answer to whether this
      pass draws the flashlight; `blend` is its blend evaluation. */
  function Derive(m: Material, hw: Hardware, cfg: Config, flashlight: bool, blend: BlendType)
    : (f: FeatureFlags)
    ensures f.lightMapped <==> !m.isModel
    ensures f.isWvt ==> f.lightMapped
    ensures f.blendHsv ==> f.hasHsv
    ensures f.hasEmissionFresnel ==> hw.fastVertexTextures && f.hasEmission && !f.hasFlashlight
    ensures f.useParallax ==>
              hw.fastVertexTextures && !cfg.force20b && cfg.parallaxMap && IntOf(m.params, Parallax) != 0
    ensures f.parallaxDither ==> f.useParallax
    ensures f.hasParallaxCorrection ==> f.hasEnv
    ensures f.fullyOpaque ==> !f.isAlphaTested && blend != BtBlend && blend != BtBlendAdd
  {
    var p := m.params;
    FeatureFlags(
      hasBaseTexture := IsTexture(m, BaseTexture),
      isWvt := IsWvt(m),
      hasNormal := IsTexture(m, Bumpmap),
      hasNormal2 := IsTexture(m, Bumpmap2),
      hasMrao := IsTexture(m, MraoTexture),
      hasMrao2 := IsTexture(m, MraoTexture2),
      hasEmission := IsTexture(m, EmissionTexture),
      hasEmission2 := IsTexture(m, EmissionTexture2),
      hasEnv := IsTexture(m, Envmap),
      isAlphaTested := m.alphaTest,
      hasFlashlight := flashlight,
      lightMapped := !m.isModel,
      hasMraoScale := HasScale(p, MraoScale),
      hasMraoScale2 := HasScale(p, MraoScale2),
      hasEmissionScale := HasScale(p, EmissionScale),
      hasEmissionScale2 := HasScale(p, EmissionScale2),
      hasEmissionFresnel := EmissionFresnelOn(m, hw, flashlight),
      hasHsv := HasScale(p, Hsv),
      blendHsv := BlendHsv(m),
      hasParallaxCorrection := HasParallaxCorrection(m),
      blendTintByMraoAlpha := IsSet(p, BlendTintByMraoAlpha),
      fullyOpaque := FullyOpaque(m, blend),
      useParallax := UseParallax(m, hw, cfg),
      parallaxDither := DitherParallax(m, hw, cfg))
  }

  /** The shader pair a draw selects: the shader model 2.0b pair when the
      hardware lacks fast vertex textures or 2.0b is forced, else the
      shader model 3.0 pair. */
  datatype Tier = Ps20b | Ps30

  function ChooseTier(hw: Hardware, cfg: Config): Tier {
    if !hw.fastVertexTextures || cfg.force20b then Ps20b else Ps30
  }

  /** Parallax occlusion is only ever used on the shader model 3.0 pair. */
  lemma ParallaxOnlyOnPs30(m: Material, hw: Hardware, cfg: Config, flashlight: bool, blend: BlendType)
    ensures Derive(m, hw, cfg, flashlight, blend).useParallax ==> ChooseTier(hw, cfg) == Ps30
  {
  }

  /** The material as the shader sees it at draw time: its raw parameters
      prepared by parameter and shader initialisation. */
  predicate PreparedFrom(m: Material, raw: ParamSet, cfg: Config) {
    m.params == Prepare(raw, cfg.allowParallaxCubemaps)
  }

  /** Parallax-corrected cubemaps are on exactly when the cubemap loaded,
      the global switch allows them, the material defined all five inputs
      and its `$envmapparallax` is non-zero. */
  lemma ParallaxCorrectionNeedsEveryInput(
    m: Material, raw: ParamSet, hw: Hardware, cfg: Config, flashlight: bool, blend: BlendType)
    requires PreparedFrom(m, raw, cfg)
    ensures Derive(m, hw, cfg, flashlight, blend).hasParallaxCorrection <==>
              Envmap in m.loaded && cfg.allowParallaxCubemaps
              && raw.envmapParallax.Some? && raw.envmapParallaxObb1.Some?
              && raw.envmapParallaxObb2.Some? && raw.envmapParallaxObb3.Some?
              && raw.envmapOrigin.Some? && IntOf(raw, EnvmapParallax) != 0
  {
    PrepareGate(raw, cfg.allowParallaxCubemaps);
    InitParamsDefinesTextures(raw);
  }

  /** The flag that reports whether scale parameter `k` is in use. */
  function ScaleFlag(f: FeatureFlags, k: ParamId): bool {
    match k
    case MraoScale => f.hasMraoScale
    case MraoScale2 => f.hasMraoScale2
    case EmissionScale => f.hasEmissionScale
    case EmissionScale2 => f.hasEmissionScale2
    case Hsv => f.hasHsv
    case _ => false
  }

  /** A scale (or the HSV triple) is in use exactly when the material
      defined it with a non-negative first component: an unset one reads
      as the "no scale" sentinel. */
  lemma UnsetScalesReadAsNoScale(
    m: Material, raw: ParamSet, k: ParamId, hw: Hardware, cfg: Config, flashlight: bool, blend: BlendType)
    requires PreparedFrom(m, raw, cfg)
    requires k in {MraoScale, MraoScale2, EmissionScale, EmissionScale2, Hsv}
    ensures ScaleFlag(Derive(m, hw, cfg, flashlight, blend), k) <==>
              IsDefined(raw, k) && VecOf(raw, k, 0) >= 0.0
  {
    if IsDefined(raw, k) {
      PrepareKeepsDefined(raw, cfg.allowParallaxCubemaps, k);
    } else {
      InitParamsSentinels(raw, k);
    }
  }

  /** The same for the emissive fresnel ranges, whose exponent (the fourth
      component) is the one tested, and which also need fast vertex
      textures, an emission texture and no flashlight. */
  lemma UnsetFresnelReadsAsOff(
    m: Material, raw: ParamSet, hw: Hardware, cfg: Config, flashlight: bool, blend: BlendType)
    requires PreparedFrom(m, raw, cfg)
    ensures Derive(m, hw, cfg, flashlight, blend).hasEmissionFresnel <==>
              hw.fastVertexTextures && IsTexture(m, EmissionTexture) && !flashlight
              && IsDefined(raw, EmissionFresnel) && VecOf(raw, EmissionFresnel, 3) >= 0.0
  {
    if IsDefined(raw, EmissionFresnel) {
      PrepareKeepsDefined(raw, cfg.allowParallaxCubemaps, EmissionFresnel);
    } else {
      InitParamsSentinels(raw, EmissionFresnel);
    }
  }
}
