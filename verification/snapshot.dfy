/** The static ("snapshot") half of a draw: the render state the shader
    records once per material and flag combination. */
module Snapshot {
  import opened Util
  import opened Params
  import opened Features
  import opened Samplers

  /** The static vertex shader combos. */
  datatype VsStatic = VsStatic(wvt: bool, lightmapped: bool)

  /** The static pixel shader combos, in the order the source sets them. */
  datatype PsStatic = PsStatic(
    flashlight: bool,
    flashlightDepthFilterMode: int,
    lightmapped: bool,
    emissive: bool,
    parallaxOcclusion: bool,
    wvt: bool,
    hsv: bool,
    hsvBlend: bool,
    parallaxCorrect: bool,
    blendTintByMraoAlpha: bool,
    parallaxDither: bool,
    emissiveFresnel: bool)

  /** Both shader pairs declare the same static combos; `tier` says which
      pair they are set on. */
  datatype StaticCombos = StaticCombos(tier: Tier, vs: VsStatic, ps: PsStatic)

  /** The shadow filter mode the pixel shader is built for: the hardware's
      mode when drawing the flashlight, else 0. */
  function ShadowFilterMode(f: FeatureFlags, hw: Hardware): (r: int)
    ensures !f.hasFlashlight ==> r == 0
    ensures f.hasFlashlight ==> r == hw.shadowFilterMode
  {
    if f.hasFlashlight then hw.shadowFilterMode else 0
  }

  function CombosFor(f: FeatureFlags, hw: Hardware, cfg: Config): StaticCombos {
    StaticCombos(
      ChooseTier(hw, cfg),
      VsStatic(f.isWvt, f.lightMapped),
      PsStatic(
        flashlight := f.hasFlashlight,
        flashlightDepthFilterMode := ShadowFilterMode(f, hw),
        lightmapped := f.lightMapped,
        emissive := f.hasEmission,
        parallaxOcclusion := f.useParallax,
        wvt := f.isWvt,
        hsv := f.hasHsv,
        hsvBlend := f.blendHsv,
        parallaxCorrect := f.hasParallaxCorrection,
        blendTintByMraoAlpha := f.blendTintByMraoAlpha,
        parallaxDither := f.parallaxDither,
        emissiveFresnel := f.hasEmissionFresnel))
  }

  /** The static combos of a draw agree with one another: the vertex and
      pixel shaders are built for the same blend and lighting mode, the
      filter mode is 0 without a flashlight, and the combos that depend on
      others only appear with them. */
  lemma CombosConsistent(m: Material, hw: Hardware, cfg: Config, flashlight: bool, blend: BlendType)
    ensures var c := CombosFor(Derive(m, hw, cfg, flashlight, blend), hw, cfg);
            && c.vs.wvt == c.ps.wvt && c.vs.lightmapped == c.ps.lightmapped
            && (c.vs.lightmapped <==> !m.isModel)
            && (!c.ps.flashlight ==> c.ps.flashlightDepthFilterMode == 0)
            && (c.ps.parallaxOcclusion ==> c.tier == Ps30)
            && (c.ps.parallaxDither ==> c.ps.parallaxOcclusion)
            && (c.ps.hsvBlend ==> c.ps.hsv)
            && (c.ps.emissiveFresnel ==> c.ps.emissive && !c.ps.flashlight)
            && (c.ps.parallaxCorrect ==> Envmap in m.loaded)
  {
  }

  /** How the output is blended. */
  datatype Blending = AdditiveBlending | DefaultBlending

  datatype Fog = FogToBlack | DefaultFog

  /** The output-merger part of the snapshot. */
  datatype OutputState = OutputState(
    depthWritesDisabled: bool,
    alphaWrites: bool,
    blending: Blending,
    fog: Fog,
    srgbWrite: bool)

  /** A flashlight pass adds on top of the lit surface: no depth or alpha
      writes, additive blending, fog to black. Otherwise alpha is written
      whenever translucency does not use it. */
  function OutputFor(f: FeatureFlags): (o: OutputState)
    ensures o.alphaWrites <==> !f.hasFlashlight && f.fullyOpaque
    ensures o.depthWritesDisabled <==> f.hasFlashlight
    ensures o.blending == AdditiveBlending <==> f.hasFlashlight
    ensures o.fog == FogToBlack <==> f.hasFlashlight
    ensures o.srgbWrite
  {
    if f.hasFlashlight
    then OutputState(true, false, AdditiveBlending, FogToBlack, true)
    else OutputState(false, f.fullyOpaque, DefaultBlending, DefaultFog, true)
  }

  /** The vertex attributes the shader asks for. */
  datatype VertexFlag = Position | Normal | FormatCompressed | ColorStream1 | Color

  datatype VertexFormat = VertexFormat(flags: set<VertexFlag>, texCoordCount: nat)

  function VertexFormatFor(f: FeatureFlags): VertexFormat {
    var base := {Position, Normal, FormatCompressed};
    var withStream := if !f.lightMapped then base + {ColorStream1} else base;
    var texCoords := if f.lightMapped then 1 + 2 else 1;
    VertexFormat(if f.isWvt then withStream + {Color} else withStream, texCoords)
  }

  /** Every draw asks for position, normal and compressed vertices; models
      (not lightmapped) add the static-prop colour stream, brushes add the
      two lightmap texture coordinates, and WVT brushes add the vertex
      colour that carries the blend amount. The two colour inputs never
      appear together. */
  lemma VertexFormatShape(m: Material, hw: Hardware, cfg: Config, flashlight: bool, blend: BlendType)
    ensures var f := Derive(m, hw, cfg, flashlight, blend);
            var v := VertexFormatFor(f);
            && {Position, Normal, FormatCompressed} <= v.flags
            && (ColorStream1 in v.flags <==> m.isModel)
            && (Color in v.flags <==> IsWvt(m))
            && !(Color in v.flags && ColorStream1 in v.flags)
            && v.texCoordCount == (if m.isModel then 1 else 3)
            && v.flags <= {Position, Normal, FormatCompressed, ColorStream1, Color}
  {
  }

  /** Which samplers are enabled, which have had their sRGB-read flag set
      (and to what), and which have shadow-depth filtering. */
  datatype SamplerState = SamplerState(
    enabled: set<nat>,
    srgbRead: map<nat, bool>,
    shadowFiltered: set<nat>)

  const NoSamplers: SamplerState := SamplerState({}, map[], {})

  function Enable(s: SamplerState, n: nat): SamplerState {
    s.(enabled := s.enabled + {n})
  }

  function SetSrgbRead(s: SamplerState, n: nat, on: bool): SamplerState {
    s.(srgbRead := s.srgbRead[n := on])
  }

  function SetShadowDepthFiltering(s: SamplerState, n: nat): SamplerState {
    s.(shadowFiltered := s.shadowFiltered + {n})
  }

  /** The samplers every snapshot enables, whatever the material. */
  const AlwaysEnabled: set<nat> :=
    {SamplerBaseTexture, SamplerNormal, SamplerEnvmap, SamplerRandomRotation,
     SamplerFlashlight, SamplerLightmap, SamplerBrdfIntegration, SamplerMrao}

  /** The unconditional sampler calls of the snapshot, in source order. The
      call meant for the flashlight depth map enables sampler 5 (the
      random-rotation sampler, enabled again just after) while the
      filtering and sRGB calls next to it name sampler 4, so sampler 4 is
      never enabled. */
  function FixedSamplers(hw: Hardware): SamplerState {
    var s1 := SetSrgbRead(Enable(NoSamplers, SamplerBaseTexture), SamplerBaseTexture, true);
    var s2 := SetSrgbRead(Enable(s1, SamplerNormal), SamplerNormal, false);
    var s3 := SetSrgbRead(Enable(s2, SamplerEnvmap), SamplerEnvmap, true);
    var s4 := SetShadowDepthFiltering(Enable(s3, SamplerRandomRotation), SamplerShadowDepth);
    var s5 := SetSrgbRead(s4, SamplerShadowDepth, false);
    var s6 := SetSrgbRead(Enable(s5, SamplerRandomRotation), SamplerRandomRotation, false);
    var s7 := SetSrgbRead(Enable(s6, SamplerFlashlight), SamplerFlashlight, false);
    var s8 := SetSrgbRead(Enable(s7, SamplerLightmap), SamplerLightmap, hw.hdrNone);
    var s9 := SetSrgbRead(Enable(s8, SamplerBrdfIntegration), SamplerBrdfIntegration, false);
    SetSrgbRead(Enable(s9, SamplerMrao), SamplerMrao, false)
  }

  /** The fixed samplers: exactly `AlwaysEnabled` is enabled, sampler 4
      alone is filtered and has an sRGB flag without being enabled, and
      sRGB reads are on for the base texture and the cubemap, on for the
      lightmap exactly without HDR, and off for the data textures. */
  lemma FixedSamplersState(hw: Hardware)
    ensures var s := FixedSamplers(hw);
            && s.enabled == AlwaysEnabled
            && SamplerShadowDepth !in s.enabled
            && s.shadowFiltered == {SamplerShadowDepth}
            && s.srgbRead.Keys == AlwaysEnabled + {SamplerShadowDepth}
  {
  }

  lemma FixedSamplersSrgb(hw: Hardware)
    ensures var s := FixedSamplers(hw);
            && s.srgbRead[SamplerBaseTexture] && s.srgbRead[SamplerEnvmap]
            && !s.srgbRead[SamplerNormal] && !s.srgbRead[SamplerMrao]
            && !s.srgbRead[SamplerBrdfIntegration] && !s.srgbRead[SamplerFlashlight]
            && !s.srgbRead[SamplerRandomRotation] && !s.srgbRead[SamplerShadowDepth]
            && (s.srgbRead[SamplerLightmap] <==> hw.hdrNone)
  {
  }

  /** The conditional calls: the emissive sampler with an emission texture,
      then for WVT the second base texture, normal map and MRAO texture,
      and the second emissive sampler with an emission texture. Normal
      map 2 is read as sRGB while normal map 1 is not. */
  function MaterialSamplers(s: SamplerState, f: FeatureFlags): SamplerState {
    var e := if f.hasEmission then SetSrgbRead(Enable(s, SamplerEmissive), SamplerEmissive, true) else s;
    if !f.isWvt then e
    else
      var w1 := SetSrgbRead(Enable(e, SamplerBaseTexture2), SamplerBaseTexture2, true);
      var w2 := SetSrgbRead(Enable(w1, SamplerNormal2), SamplerNormal2, true);
      var w3 := SetSrgbRead(Enable(w2, SamplerMrao2), SamplerMrao2, false);
      if f.hasEmission then SetSrgbRead(Enable(w3, SamplerEmissive2), SamplerEmissive2, true) else w3
  }

  /** The conditional calls add exactly the samplers their conditions
      select, with the sRGB flags of colour textures on (normal map 2
      included) and of MRAO 2 off, and touch no filtering. */
  lemma MaterialSamplersState(s: SamplerState, f: FeatureFlags)
    ensures var r := MaterialSamplers(s, f);
            && r.shadowFiltered == s.shadowFiltered
            && r.enabled == s.enabled
                            + (if f.hasEmission then {SamplerEmissive} else {})
                            + (if f.isWvt then {SamplerBaseTexture2, SamplerNormal2, SamplerMrao2} else {})
                            + (if f.isWvt && f.hasEmission then {SamplerEmissive2} else {})
            && (f.hasEmission ==> r.srgbRead[SamplerEmissive])
            && (f.isWvt ==> r.srgbRead[SamplerBaseTexture2] && r.srgbRead[SamplerNormal2]
                            && !r.srgbRead[SamplerMrao2])
            && (f.isWvt && f.hasEmission ==> r.srgbRead[SamplerEmissive2])
  {
  }

  /** The conditional calls only name their own samplers, so every other
      sampler keeps its sRGB flag. */
  lemma MaterialSamplersKeepOthers(s: SamplerState, f: FeatureFlags, n: nat)
    requires n !in {SamplerEmissive, SamplerBaseTexture2, SamplerNormal2, SamplerMrao2, SamplerEmissive2}
    ensures n in MaterialSamplers(s, f).srgbRead <==> n in s.srgbRead
    ensures n in s.srgbRead ==> MaterialSamplers(s, f).srgbRead[n] == s.srgbRead[n]
  {
  }

  /** All sampler calls of the snapshot. */
  function SamplersFor(f: FeatureFlags, hw: Hardware): SamplerState {
    MaterialSamplers(FixedSamplers(hw), f)
  }

  /** Sampler 4 is bound for shadows later but never enabled, whatever the
      material; every enabled sampler has had its sRGB flag set. */
  lemma SamplersForShape(f: FeatureFlags, hw: Hardware)
    ensures var s := SamplersFor(f, hw);
            && AlwaysEnabled <= s.enabled
            && SamplerShadowDepth !in s.enabled
            && s.shadowFiltered == {SamplerShadowDepth}
            && (forall n :: n in s.enabled ==> n in s.srgbRead)
  {
    FixedSamplersState(hw);
    MaterialSamplersState(FixedSamplers(hw), f);
  }

  /** Everything the snapshot records. `alphaFunc` is the reference of the
      greater-or-equal alpha test, when one is set. */
  datatype ShadowState = ShadowState(
    combos: StaticCombos,
    alphaTest: bool,
    alphaFunc: Option<real>,
    output: OutputState,
    vertexFormat: VertexFormat,
    samplers: SamplerState)

  /** The alpha function is set from `$alphatestreference` when it is
      positive, whether or not alpha testing is enabled. */
  function AlphaFuncFor(p: ParamSet): (r: Option<real>)
    ensures r.Some? <==> FloatOf(p, AlphaTestReference) > 0.0
    ensures r.Some? ==> r.value == FloatOf(p, AlphaTestReference)
  {
    var reference := FloatOf(p, AlphaTestReference);
    if reference > 0.0 then Some(reference) else None
  }

  function Snapshot(m: Material, hw: Hardware, cfg: Config, flashlight: bool, blend: BlendType)
    : (st: ShadowState)
    ensures st.alphaTest == m.alphaTest
    ensures st.output.alphaWrites <==> !flashlight && FullyOpaque(m, blend)
    ensures st.output.alphaWrites ==> !m.alphaTest
    ensures st.combos.tier == ChooseTier(hw, cfg)
  {
    var f := Derive(m, hw, cfg, flashlight, blend);
    ShadowState(
      CombosFor(f, hw, cfg),
      f.isAlphaTested,
      AlphaFuncFor(m.params),
      OutputFor(f),
      VertexFormatFor(f),
      SamplersFor(f, hw))
  }
}
