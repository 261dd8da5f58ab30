/** The dynamic half of a draw: the textures bound, the shader constants
    set and the dynamic shader combos chosen on every draw call. */
module Dynamic {
  import opened Util
  import opened Params
  import opened Features
  import opened Samplers
  import EnvLod
  import ParallaxSamples

  /** The engine's built-in textures the shader binds as placeholders. */
  datatype StandardTexture =
    | Grey | Black | NormalMapFlat | White | LightmapBumped | ShadowNoise2D

  /** What a sampler is bound to: a material texture parameter (with the
      parameter that selects its frame, if any), a built-in texture, or one
      of the two textures of the current flashlight. */
  datatype Binding =
    | ParamTexture(param: ParamId, frame: Option<ParamId>)
    | Standard(texture: StandardTexture)
    | FlashlightCookie
    | FlashlightShadowDepth

  type Bindings = map<nat, Binding>

  /** The material texture when it is usable, else the placeholder. */
  function TextureOr(has: bool, k: ParamId, frame: ParamId, placeholder: StandardTexture): (b: Binding)
    ensures b.ParamTexture? <==> has
    ensures has ==> b == ParamTexture(k, Some(frame))
    ensures !has ==> b == Standard(placeholder)
  {
    if has then ParamTexture(k, Some(frame)) else Standard(placeholder)
  }

  /** The material's own samplers: base texture, cubemap, emission, normal
      map and MRAO, then the four second-layer samplers for WVT. The second
      base texture is bound without a fallback. */
  function MaterialBindings(f: FeatureFlags): Bindings {
    var b := map[
      SamplerBaseTexture := TextureOr(f.hasBaseTexture, BaseTexture, Frame, Grey),
      SamplerEnvmap := TextureOr(f.hasEnv, Envmap, EnvmapFrame, Black),
      SamplerEmissive := TextureOr(f.hasEmission, EmissionTexture, EmissionFrame, Black),
      SamplerNormal := TextureOr(f.hasNormal, Bumpmap, BumpFrame, NormalMapFlat),
      SamplerMrao := TextureOr(f.hasMrao, MraoTexture, MraoFrame, White)];
    if f.isWvt then
      b[SamplerBaseTexture2 := ParamTexture(BaseTexture2, Some(Frame2))]
       [SamplerEmissive2 := TextureOr(f.hasEmission2, EmissionTexture2, EmissionFrame2, Black)]
       [SamplerNormal2 := TextureOr(f.hasNormal2, Bumpmap2, BumpFrame2, NormalMapFlat)]
       [SamplerMrao2 := TextureOr(f.hasMrao2, MraoTexture2, MraoFrame2, White)]
    else b
  }

  /** Each material sampler holds its texture exactly when the flag says
      the texture is usable, and its placeholder otherwise. */
  lemma MaterialBindingsPlaceholders(f: FeatureFlags)
    ensures var b := MaterialBindings(f);
            && b[SamplerBaseTexture] == TextureOr(f.hasBaseTexture, BaseTexture, Frame, Grey)
            && b[SamplerEnvmap] == TextureOr(f.hasEnv, Envmap, EnvmapFrame, Black)
            && b[SamplerEmissive] == TextureOr(f.hasEmission, EmissionTexture, EmissionFrame, Black)
            && b[SamplerNormal] == TextureOr(f.hasNormal, Bumpmap, BumpFrame, NormalMapFlat)
            && b[SamplerMrao] == TextureOr(f.hasMrao, MraoTexture, MraoFrame, White)
            && (SamplerBaseTexture2 in b <==> f.isWvt)
            && (f.isWvt ==> b[SamplerBaseTexture2] == ParamTexture(BaseTexture2, Some(Frame2))
                            && b[SamplerNormal2] == TextureOr(f.hasNormal2, Bumpmap2, BumpFrame2, NormalMapFlat)
                            && b[SamplerMrao2] == TextureOr(f.hasMrao2, MraoTexture2, MraoFrame2, White)
                            && b[SamplerEmissive2] ==
                                 TextureOr(f.hasEmission2, EmissionTexture2, EmissionFrame2, Black))
  {
  }

  lemma MaterialBindingsKeys(f: FeatureFlags)
    ensures MaterialBindings(f).Keys ==
              {SamplerBaseTexture, SamplerEnvmap, SamplerEmissive, SamplerNormal, SamplerMrao}
              + (if f.isWvt then {SamplerBaseTexture2, SamplerEmissive2, SamplerNormal2, SamplerMrao2}
                 else {})
  {
  }

  /** What the engine reports about the current flashlight. */
  datatype FlashlightInfo = FlashlightInfo(enableShadows: bool, hasDepthTexture: bool)

  /** Flashlight shadows need shadows enabled on the flashlight and a depth
      texture to read them from. */
  predicate FlashlightShadows(f: FeatureFlags, fl: FlashlightInfo) {
    f.hasFlashlight && fl.enableShadows && fl.hasDepthTexture
  }

  /** The depth texture and the rotation noise are bound only when the
      engine configuration also uses shadow depth textures. */
  predicate BindsShadowDepth(f: FeatureFlags, fl: FlashlightInfo, cfg: Config) {
    f.hasFlashlight && fl.hasDepthTexture && cfg.shadowDepthTexture && fl.enableShadows
  }

  /** The samplers set from engine state: the flashlight cookie, the
      shadow depth texture and its rotation noise, the lightmap, and the
      BRDF lookup table (a material parameter without a frame). */
  function LightingBindings(b: Bindings, f: FeatureFlags, fl: FlashlightInfo, cfg: Config): Bindings {
    var c := if f.hasFlashlight then b[SamplerFlashlight := FlashlightCookie] else b;
    var d := if BindsShadowDepth(f, fl, cfg)
             then c[SamplerShadowDepth := FlashlightShadowDepth]
                   [SamplerRandomRotation := Standard(ShadowNoise2D)]
             else c;
    var l := if f.lightMapped then d[SamplerLightmap := Standard(LightmapBumped)] else d;
    l[SamplerBrdfIntegration := ParamTexture(BrdfIntegration, None)]
  }

  /** The engine-state samplers are bound exactly under their conditions
      and every other sampler keeps its binding. */
  lemma LightingBindingsShape(b: Bindings, f: FeatureFlags, fl: FlashlightInfo, cfg: Config)
    ensures var r := LightingBindings(b, f, fl, cfg);
            && (f.hasFlashlight ==> r[SamplerFlashlight] == FlashlightCookie)
            && (BindsShadowDepth(f, fl, cfg) ==>
                  r[SamplerShadowDepth] == FlashlightShadowDepth
                  && r[SamplerRandomRotation] == Standard(ShadowNoise2D))
            && (f.lightMapped ==> r[SamplerLightmap] == Standard(LightmapBumped))
            && r[SamplerBrdfIntegration] == ParamTexture(BrdfIntegration, None)
            && r.Keys == b.Keys + {SamplerBrdfIntegration}
                         + (if f.hasFlashlight then {SamplerFlashlight} else {})
                         + (if BindsShadowDepth(f, fl, cfg)
                            then {SamplerShadowDepth, SamplerRandomRotation} else {})
                         + (if f.lightMapped then {SamplerLightmap} else {})
  {
  }

  lemma LightingBindingsKeepOthers(b: Bindings, f: FeatureFlags, fl: FlashlightInfo, cfg: Config, n: nat)
    requires n in b
    requires n !in {SamplerFlashlight, SamplerShadowDepth, SamplerRandomRotation,
                    SamplerLightmap, SamplerBrdfIntegration}
    ensures LightingBindings(b, f, fl, cfg)[n] == b[n]
  {
  }

  /** `mat_fullbright 2` shows lighting only, unless the material opts
      out of debug overrides. */
  predicate LightingOnly(m: Material, cfg: Config) {
    cfg.fullbright == 2 && !m.noDebugOverride
  }

  /** Every binding of the draw, in source order; the lighting-only grey
      base texture is bound last and so wins. */
  function BindingsFor(m: Material, f: FeatureFlags, fl: FlashlightInfo, cfg: Config): Bindings {
    var b := LightingBindings(MaterialBindings(f), f, fl, cfg);
    if LightingOnly(m, cfg) then b[SamplerBaseTexture := Standard(Grey)] else b
  }

  /** The base-texture sampler ends up grey whenever lighting-only is on,
      whatever the material's base texture; otherwise it holds the base
      texture or the grey placeholder. */
  lemma LightingOnlyOverridesBase(m: Material, f: FeatureFlags, fl: FlashlightInfo, cfg: Config)
    ensures var b := BindingsFor(m, f, fl, cfg);
            && SamplerBaseTexture in b
            && (LightingOnly(m, cfg) ==> b[SamplerBaseTexture] == Standard(Grey))
            && (!LightingOnly(m, cfg) ==>
                  b[SamplerBaseTexture] == TextureOr(f.hasBaseTexture, BaseTexture, Frame, Grey))
  {
    MaterialBindingsPlaceholders(f);
    LightingBindingsKeepOthers(MaterialBindings(f), f, fl, cfg, SamplerBaseTexture);
  }

  /** One component of a 4-float shader constant, by where it comes from. */
  datatype Comp =
    | Lit(value: real)
    | ParamComp(param: ParamId, index: nat)
    | ParamFloat(param: ParamId)
    | LightmapScale
    | CameraPos(axis: nat)
    | FlashlightColor(channel: nat)

  /** Pixel shader constant registers: numbered ones, and the ones the
      source names from the engine's register map. */
  datatype Register =
    | PsConst(n: nat)
    | PsSelfIllumTint
    | PsEyePosSpecExponent
    | PsFlashlightColor

  type Constants = map<Register, seq<Comp>>

  const Ones3: seq<Comp> := [Lit(1.0), Lit(1.0), Lit(1.0)]

  /** The first three components of a vector parameter. */
  function ParamXyz(k: ParamId): (c: seq<Comp>)
    ensures |c| == 3
    ensures forall i :: 0 <= i < 3 ==> c[i] == ParamComp(k, i)
  {
    [ParamComp(k, 0), ParamComp(k, 1), ParamComp(k, 2)]
  }

  /** All four components of a vector parameter. */
  function ParamXyzw(k: ParamId): (c: seq<Comp>)
    ensures |c| == 4
    ensures forall i :: 0 <= i < 4 ==> c[i] == ParamComp(k, i)
  {
    ParamXyz(k) + [ParamComp(k, 3)]
  }

  /** A scale triple: the parameter's when in use, else ones. */
  function ScaleOrOnes(has: bool, k: ParamId): seq<Comp> {
    if has then ParamXyz(k) else Ones3
  }

  /** `GetFloatParam(k, params, d)`: the parameter when defined, else `d`. */
  function FloatParamOr(p: ParamSet, k: ParamId, d: real): (c: Comp)
    ensures IsDefined(p, k) <==> c == ParamFloat(k)
    ensures !IsDefined(p, k) ==> c == Lit(d)
  {
    if IsDefined(p, k) then ParamFloat(k) else Lit(d)
  }

  /** Constants 3 and 26 to 29 for parallax-corrected cubemaps: the cubemap
      origin, then a 4x4 matrix whose first three rows are the OBB rows and
      whose last row is (0, 0, 0, 1). */
  function CorrectionConstants(c: Constants, f: FeatureFlags): Constants {
    if f.hasParallaxCorrection then
      c[PsConst(3) := ParamXyzw(EnvmapOrigin)]
       [PsConst(26) := ParamXyzw(EnvmapParallaxObb1)]
       [PsConst(27) := ParamXyzw(EnvmapParallaxObb2)]
       [PsConst(28) := ParamXyzw(EnvmapParallaxObb3)]
       [PsConst(29) := [Lit(0.0), Lit(0.0), Lit(0.0), Lit(1.0)]]
    else c
  }

  /** The OBB matrix occupies four consecutive registers: row i (i < 3) is
      `$envmapparallaxobb(i+1)` component by component, and the last row is
      the homogeneous (0, 0, 0, 1). Nothing is set without correction. */
  lemma CorrectionMatrix(c: Constants, f: FeatureFlags)
    ensures var r := CorrectionConstants(c, f);
            && (f.hasParallaxCorrection ==>
                  (forall i, j :: 0 <= i < 3 && 0 <= j < 4 ==>
                     r[PsConst(26 + i)][j] == ParamComp(ObbRow(i), j))
                  && r[PsConst(29)] == [Lit(0.0), Lit(0.0), Lit(0.0), Lit(1.0)]
                  && r[PsConst(3)] == ParamXyzw(EnvmapOrigin))
            && (!f.hasParallaxCorrection ==> r == c)
  {
    if f.hasParallaxCorrection {
      var r := CorrectionConstants(c, f);
      forall i, j | 0 <= i < 3 && 0 <= j < 4
        ensures r[PsConst(26 + i)][j] == ParamComp(ObbRow(i), j)
      {
        if i == 0 {
          assert r[PsConst(26)] == ParamXyzw(EnvmapParallaxObb1);
        } else if i == 1 {
          assert r[PsConst(27)] == ParamXyzw(EnvmapParallaxObb2);
        } else {
          assert r[PsConst(28)] == ParamXyzw(EnvmapParallaxObb3);
        }
      }
    }
  }

  /** The OBB parameter that fills row `i` of the correction matrix. */
  function ObbRow(i: nat): ParamId {
    if i == 0 then EnvmapParallaxObb1 else if i == 1 then EnvmapParallaxObb2 else EnvmapParallaxObb3
  }

  /** The scale and tint constants. Constant 31 carries the HSV triple and
      the parallax depth; 33 (fast vertex textures only) the MRAO scale and
      the lightmap scale; the self-illumination tint the emission scale and
      the parallax dither amount; 35 the emissive fresnel ranges; 36 (WVT
      on fast vertex textures) the second emission scale; 34 (fast vertex
      textures only) the second MRAO scale, used only for WVT, and the
      parallax centre. */
  function ScaleConstants(c: Constants, m: Material, f: FeatureFlags, hw: Hardware, cfg: Config): Constants {
    var p := m.params;
    var c31 := c[PsConst(31) := ScaleOrOnes(f.hasHsv, Hsv) + [FloatParamOr(p, ParallaxDepth, 3.0)]];
    var c33 := if hw.fastVertexTextures
               then c31[PsConst(33) := ScaleOrOnes(f.hasMraoScale, MraoScale) + [LightmapScale]]
               else c31;
    var cTint := c33[PsSelfIllumTint :=
                       ScaleOrOnes(f.hasEmissionScale, EmissionScale) + [Lit(cfg.parallaxDitherAmount)]];
    var c35 := if f.hasEmissionFresnel then cTint[PsConst(35) := ParamXyzw(EmissionFresnel)] else cTint;
    var c36 := if f.isWvt && hw.fastVertexTextures
               then c35[PsConst(36) := ScaleOrOnes(f.hasEmissionScale2, EmissionScale2) + [Lit(0.0)]]
               else c35;
    if hw.fastVertexTextures
    then c36[PsConst(34) := ScaleOrOnes(f.isWvt && f.hasMraoScale2, MraoScale2)
                            + [FloatParamOr(p, ParallaxCenter, 3.0)]]
    else c36
  }

  /** Registers 31, 33 and 34 hold the HSV triple, the MRAO scale and the
      second MRAO scale when in use (the second only for WVT) and ones
      otherwise, followed by the parallax depth, the lightmap scale and
      the parallax centre; 33 and 34 exist only with fast vertex
      textures. */
  lemma ScaleConstantsShape(c: Constants, m: Material, f: FeatureFlags, hw: Hardware, cfg: Config)
    ensures var r := ScaleConstants(c, m, f, hw, cfg);
            && r[PsConst(31)][..3] == (if f.hasHsv then ParamXyz(Hsv) else Ones3)
            && r[PsConst(31)][3] == FloatParamOr(m.params, ParallaxDepth, 3.0)
            && (PsConst(33) in r <==> hw.fastVertexTextures || PsConst(33) in c)
            && (hw.fastVertexTextures ==>
                  r[PsConst(33)][..3] == (if f.hasMraoScale then ParamXyz(MraoScale) else Ones3)
                  && r[PsConst(33)][3] == LightmapScale)
            && (hw.fastVertexTextures ==>
                  r[PsConst(34)][..3] == (if f.isWvt && f.hasMraoScale2 then ParamXyz(MraoScale2) else Ones3)
                  && r[PsConst(34)][3] == FloatParamOr(m.params, ParallaxCenter, 3.0))
  {
  }

  /** The self-illumination tint and register 36 hold the emission scale
      and the second emission scale (WVT on fast vertex textures) when in
      use and ones otherwise, followed by the parallax dither amount and 0;
      register 35 holds the emissive fresnel ranges when fresnel is on. */
  lemma ScaleConstantsTint(c: Constants, m: Material, f: FeatureFlags, hw: Hardware, cfg: Config)
    ensures var r := ScaleConstants(c, m, f, hw, cfg);
            && r[PsSelfIllumTint][..3] == (if f.hasEmissionScale then ParamXyz(EmissionScale) else Ones3)
            && r[PsSelfIllumTint][3] == Lit(cfg.parallaxDitherAmount)
            && (f.hasEmissionFresnel ==> r[PsConst(35)] == ParamXyzw(EmissionFresnel))
            && (f.isWvt && hw.fastVertexTextures ==>
                  r[PsConst(36)][..3] == (if f.hasEmissionScale2 then ParamXyz(EmissionScale2) else Ones3)
                  && r[PsConst(36)][3] == Lit(0.0))
  {
  }

  /** The light state the shader uses: what the engine reports, except
      that brushes report no dynamic lights (the `NUM_LIGHTS` combos are 0).
      The ambient flag is cleared for brushes too, but nothing reads it
      afterwards: the ambient cube is set up by the snapshot's command
      buffer, which does not look at this state. */
  datatype LightState = LightState(ambientLight: bool, numLights: int)

  function EffectiveLightState(reported: LightState, isModel: bool): (l: LightState)
    ensures !isModel ==> !l.ambientLight && l.numLights == 0
    ensures isModel ==> l == reported
  {
    if !isModel then reported.(ambientLight := false, numLights := 0) else reported
  }

  datatype FogMode = FogNone | FogLinear | FogLinearBelowFogZ

  /** The water-fog combo: 1 below the fog plane, else 0. */
  function FogIndex(fog: FogMode): (i: int)
    ensures 0 <= i <= 1
    ensures i == 1 <==> fog == FogLinearBelowFogZ
  {
    if fog == FogLinearBelowFogZ then 1 else 0
  }

  /** Engine state read during a draw. */
  datatype FrameInputs = FrameInputs(
    lights: LightState,
    flashlightInfo: FlashlightInfo,
    fog: FogMode,
    numBones: int,
    fixedLighting: int,
    vertexCompression: int,
    shouldWriteDepthToDestAlpha: bool,
    envmapWidth: nat)

  datatype VsDynamic = VsDynamic(
    doWaterFog: int,
    skinning: bool,
    lightingPreview: bool,
    compressedVerts: int,
    numLights: int)

  datatype PsDynamic = PsDynamic(
    numLights: int,
    writeDepthToDestAlpha: bool,
    flashlightShadows: bool)

  /** Both shader pairs declare the same dynamic combos; `tier` says which
      pair they are set on. */
  datatype DynamicCombos = DynamicCombos(tier: Tier, vs: VsDynamic, ps: PsDynamic)

  /** Depth goes to destination alpha only for fully opaque materials, and
      then when the engine asks for it. */
  predicate WriteDepthToAlpha(f: FeatureFlags, fr: FrameInputs) {
    f.fullyOpaque && fr.shouldWriteDepthToDestAlpha
  }

  function CombosFor(m: Material, f: FeatureFlags, hw: Hardware, cfg: Config, fr: FrameInputs)
    : (d: DynamicCombos)
    ensures d.tier == ChooseTier(hw, cfg)
    ensures d.vs.numLights == d.ps.numLights
    ensures !m.isModel ==> d.ps.numLights == 0
    ensures m.isModel ==> d.ps.numLights == fr.lights.numLights
    ensures d.ps.writeDepthToDestAlpha <==> f.fullyOpaque && fr.shouldWriteDepthToDestAlpha
    ensures d.ps.flashlightShadows <==>
              f.hasFlashlight && fr.flashlightInfo.enableShadows && fr.flashlightInfo.hasDepthTexture
    ensures d.vs.doWaterFog == 1 <==> fr.fog == FogLinearBelowFogZ
    ensures d.vs.doWaterFog == 0 <==> fr.fog != FogLinearBelowFogZ
    ensures d.vs.skinning <==> fr.numBones > 0
    ensures d.vs.lightingPreview <==> fr.fixedLighting != 0
    ensures d.vs.compressedVerts == fr.vertexCompression
  {
    var light := EffectiveLightState(fr.lights, m.isModel);
    DynamicCombos(
      ChooseTier(hw, cfg),
      VsDynamic(FogIndex(fr.fog), fr.numBones > 0, fr.fixedLighting != 0, fr.vertexCompression,
                light.numLights),
      PsDynamic(light.numLights, WriteDepthToAlpha(f, fr), FlashlightShadows(f, fr.flashlightInfo)))
  }

  /** Integer constant 32 holds the parallax sample count, uploaded only
      when parallax occlusion is used. */
  function IntConstantsFor(m: Material, f: FeatureFlags, cfg: Config): (ic: map<nat, seq<int>>)
    ensures 32 in ic <==> f.useParallax
    ensures ic.Keys <= {32}
    ensures f.useParallax ==> |ic[32]| == 4 && ic[32][1..] == [0, 0, 0]
                              && 0 <= ic[32][0] <= ParallaxSamples.MaxSamples
  {
    if f.useParallax then
      var scale := if IsDefined(m.params, ParallaxScale)
                   then Some(FloatOr(m.params, ParallaxScale, 1.0)) else None;
      map[32 := [ParallaxSamples.SampleCount(cfg.parallaxQuality, scale), 0, 0, 0]]
    else map[]
  }

  /** Everything a draw sets. */
  datatype DynamicState = DynamicState(
    bindings: Bindings,
    constants: Constants,
    intConstants: map<nat, seq<int>>,
    light: LightState,
    envMapLod: int,
    combos: DynamicCombos)

  /** All constants of the draw, in source order. */
  function ConstantsFor(m: Material, f: FeatureFlags, hw: Hardware, cfg: Config, lod: int): Constants {
    var c := ScaleConstants(CorrectionConstants(map[], f), m, f, hw, cfg);
    var cf := if f.hasFlashlight
              then c[PsFlashlightColor := [FlashlightColor(0), FlashlightColor(1), FlashlightColor(2),
                                          FlashlightColor(3)]]
              else c;
    cf[PsEyePosSpecExponent := [CameraPos(0), CameraPos(1), CameraPos(2), Lit(lod as real)]]
  }

  function Draw(m: Material, hw: Hardware, cfg: Config, flashlight: bool, blend: BlendType, fr: FrameInputs)
    : (d: DynamicState)
    ensures EnvLod.MinLod <= d.envMapLod <= EnvLod.MaxLod
    ensures d.combos.tier == ChooseTier(hw, cfg)
  {
    var f := Derive(m, hw, cfg, flashlight, blend);
    var lod := EnvLod.EnvMapLod(f.hasEnv, fr.envmapWidth);
    DynamicState(
      BindingsFor(m, f, fr.flashlightInfo, cfg),
      ConstantsFor(m, f, hw, cfg, lod),
      IntConstantsFor(m, f, cfg),
      EffectiveLightState(fr.lights, m.isModel),
      lod,
      CombosFor(m, f, hw, cfg, fr))
  }

  /** The eye-position register carries the cubemap level of detail in its
      last component: 6 without a cubemap, else within [4, 12]. */
  lemma EyePosCarriesLod(m: Material, hw: Hardware, cfg: Config, flashlight: bool, blend: BlendType,
                         fr: FrameInputs)
    ensures var d := Draw(m, hw, cfg, flashlight, blend, fr);
            && d.constants[PsEyePosSpecExponent][3] == Lit(d.envMapLod as real)
            && (!IsTexture(m, Envmap) ==> d.envMapLod == EnvLod.DefaultLod)
  {
  }
}
