/** Facts that relate the static and the dynamic half of a draw, and worked
    examples of whole draws. */
module Scenarios {
  import opened Util
  import opened Params
  import opened Features
  import opened Samplers
  import Snapshot
  import Dynamic
  import ParallaxSamples

  /** The snapshot and the dynamic state of one draw select the same
      shader pair. */
  lemma SameTierBothPhases(m: Material, hw: Hardware, cfg: Config, flashlight: bool, blend: BlendType,
                           fr: Dynamic.FrameInputs)
    ensures Snapshot.Snapshot(m, hw, cfg, flashlight, blend).combos.tier
            == Dynamic.Draw(m, hw, cfg, flashlight, blend, fr).combos.tier
  {
  }

  /** The samplers a snapshot enables, written out. */
  function EnabledSamplers(f: FeatureFlags): set<nat> {
    Snapshot.AlwaysEnabled
    + (if f.hasEmission then {SamplerEmissive} else {})
    + (if f.isWvt then {SamplerBaseTexture2, SamplerNormal2, SamplerMrao2} else {})
    + (if f.isWvt && f.hasEmission then {SamplerEmissive2} else {})
  }

  lemma SnapshotEnables(f: FeatureFlags, hw: Hardware)
    ensures Snapshot.SamplersFor(f, hw).enabled == EnabledSamplers(f)
  {
    Snapshot.FixedSamplersState(hw);
    Snapshot.MaterialSamplersState(Snapshot.FixedSamplers(hw), f);
  }

  /** The samplers a draw binds, written out. */
  function BoundSamplers(f: FeatureFlags, fl: Dynamic.FlashlightInfo, cfg: Config): set<nat> {
    {SamplerBaseTexture, SamplerEnvmap, SamplerEmissive, SamplerNormal, SamplerMrao,
     SamplerBrdfIntegration}
    + (if f.isWvt then {SamplerBaseTexture2, SamplerEmissive2, SamplerNormal2, SamplerMrao2} else {})
    + (if f.hasFlashlight then {SamplerFlashlight} else {})
    + (if Dynamic.BindsShadowDepth(f, fl, cfg) then {SamplerShadowDepth, SamplerRandomRotation} else {})
    + (if f.lightMapped then {SamplerLightmap} else {})
  }

  lemma DrawBinds(m: Material, f: FeatureFlags, fl: Dynamic.FlashlightInfo, cfg: Config)
    ensures Dynamic.BindingsFor(m, f, fl, cfg).Keys == BoundSamplers(f, fl, cfg)
  {
    Dynamic.MaterialBindingsKeys(f);
    Dynamic.LightingBindingsShape(Dynamic.MaterialBindings(f), f, fl, cfg);
  }

  /** The difference of the two written-out sets, sampler by sampler. */
  lemma BoundMinusEnabled(f: FeatureFlags, fl: Dynamic.FlashlightInfo, cfg: Config, n: nat)
    ensures n in BoundSamplers(f, fl, cfg) && n !in EnabledSamplers(f)
            <==> || (n == SamplerShadowDepth && Dynamic.BindsShadowDepth(f, fl, cfg))
                 || (n == SamplerEmissive && !f.hasEmission)
                 || (n == SamplerEmissive2 && f.isWvt && !f.hasEmission)
  {
  }

  /** Which samplers a draw binds but its snapshot never enabled: sampler
      4, bound to the shadow depth texture under flashlight shadows although
      the snapshot enabled sampler 5 in its place; sampler 11, bound to
      black without `$emissiontexture`; and sampler 14 of a WVT brush whose
      first layer has no emission texture, whatever it holds, because the
      snapshot tests the first layer's emission texture before enabling
      it. */
  lemma BoundButNotEnabled(f: FeatureFlags, hw: Hardware, m: Material, fl: Dynamic.FlashlightInfo,
                           cfg: Config, n: nat)
    ensures n in Dynamic.BindingsFor(m, f, fl, cfg) && n !in Snapshot.SamplersFor(f, hw).enabled
            <==> || (n == SamplerShadowDepth && Dynamic.BindsShadowDepth(f, fl, cfg))
                 || (n == SamplerEmissive && !f.hasEmission)
                 || (n == SamplerEmissive2 && f.isWvt && !f.hasEmission)
  {
    SnapshotEnables(f, hw);
    DrawBinds(m, f, fl, cfg);
    BoundMinusEnabled(f, fl, cfg, n);
  }

  /** The second-layer emissive sampler can hold a real texture and still
      be disabled: a WVT brush with `$emissiontexture2` but no
      `$emissiontexture` binds that texture to sampler 14, while the
      snapshot, testing the first layer, never enables sampler 14. */
  lemma SecondEmissiveBoundButDisabled(f: FeatureFlags, hw: Hardware, m: Material,
                                       fl: Dynamic.FlashlightInfo, cfg: Config)
    requires f.isWvt && f.hasEmission2 && !f.hasEmission
    ensures Dynamic.BindingsFor(m, f, fl, cfg)[SamplerEmissive2]
              == Dynamic.ParamTexture(EmissionTexture2, Some(EmissionFrame2))
    ensures SamplerEmissive2 !in Snapshot.SamplersFor(f, hw).enabled
  {
    SecondEmissiveBound(f, m, fl, cfg);
    SecondEmissiveDisabled(f, hw);
  }

  /** The draw binds the second emission texture to sampler 14. */
  lemma SecondEmissiveBound(f: FeatureFlags, m: Material, fl: Dynamic.FlashlightInfo, cfg: Config)
    requires f.isWvt && f.hasEmission2
    ensures Dynamic.BindingsFor(m, f, fl, cfg)[SamplerEmissive2]
              == Dynamic.ParamTexture(EmissionTexture2, Some(EmissionFrame2))
  {
    var b := Dynamic.MaterialBindings(f);
    assert b[SamplerEmissive2] == Dynamic.ParamTexture(EmissionTexture2, Some(EmissionFrame2));
    Dynamic.LightingBindingsKeepOthers(b, f, fl, cfg, SamplerEmissive2);
  }

  /** The snapshot leaves sampler 14 disabled without a first-layer
      emission texture. */
  lemma SecondEmissiveDisabled(f: FeatureFlags, hw: Hardware)
    requires !f.hasEmission
    ensures SamplerEmissive2 !in Snapshot.SamplersFor(f, hw).enabled
  {
    SnapshotEnables(f, hw);
  }

  /** The shadow combo and the shadow-depth binding test different
      things: the combo needs shadows enabled and a depth texture, the
      binding also needs the engine's shadow-depth switch. With the switch
      off, a flashlight pass compiles the shadowed shader while sampler 4
      is left unbound. */
  lemma ShadowComboWithoutShadowSampler(m: Material, f: FeatureFlags, hw: Hardware, cfg: Config,
                                        fr: Dynamic.FrameInputs)
    requires f.hasFlashlight && fr.flashlightInfo.enableShadows && fr.flashlightInfo.hasDepthTexture
    requires !cfg.shadowDepthTexture
    ensures Dynamic.CombosFor(m, f, hw, cfg, fr).ps.flashlightShadows
    ensures SamplerShadowDepth !in Dynamic.BindingsFor(m, f, fr.flashlightInfo, cfg)
  {
    DrawBinds(m, f, fr.flashlightInfo, cfg);
  }

  /** The same gap for a whole draw with the flashlight on. */
  lemma DrawShadowComboWithoutShadowSampler(m: Material, hw: Hardware, cfg: Config, blend: BlendType,
                                            fr: Dynamic.FrameInputs)
    requires fr.flashlightInfo.enableShadows && fr.flashlightInfo.hasDepthTexture
    requires !cfg.shadowDepthTexture
    ensures Dynamic.Draw(m, hw, cfg, true, blend, fr).combos.ps.flashlightShadows
    ensures SamplerShadowDepth !in Dynamic.Draw(m, hw, cfg, true, blend, fr).bindings
  {
    var f := Derive(m, hw, cfg, true, blend);
    ShadowComboWithoutShadowSampler(m, f, hw, cfg, fr);
    var d := Dynamic.Draw(m, hw, cfg, true, blend, fr);
    assert d.combos == Dynamic.CombosFor(m, f, hw, cfg, fr);
    assert d.bindings == Dynamic.BindingsFor(m, f, fr.flashlightInfo, cfg);
  }

  /** A brush material that leaves every optional feature undefined or
      unusable: no second base texture, no emission texture, no parallax,
      no HSV, no cubemap correction, no tint blending. (HSV blending and
      the emissive fresnel need HSV and emission, so they are off too.) */
  predicate PlainBrush(m: Material, raw: ParamSet, cfg: Config) {
    && PreparedFrom(m, raw, cfg)
    && !m.isModel
    && !IsTexture(m, BaseTexture2) && !IsTexture(m, EmissionTexture)
    && raw.parallax.None? && raw.hsv.None?
    && raw.envmapParallax.None? && raw.blendTintByMraoAlpha.None?
  }

  /** Outside the flashlight a plain brush is lightmapped, single-layer,
      and has no emission. */
  lemma PlainBrushLayers(m: Material, raw: ParamSet, hw: Hardware, cfg: Config, blend: BlendType)
    requires PlainBrush(m, raw, cfg)
    ensures var f := Derive(m, hw, cfg, false, blend);
            f.lightMapped && !f.isWvt && !f.hasEmission && !f.hasFlashlight && !f.hasEmissionFresnel
  {
  }

  /** A plain brush uses neither parallax occlusion nor parallax-corrected
      cubemaps. */
  lemma PlainBrushNoParallax(m: Material, raw: ParamSet, hw: Hardware, cfg: Config, blend: BlendType)
    requires PlainBrush(m, raw, cfg)
    ensures var f := Derive(m, hw, cfg, false, blend);
            !f.useParallax && !f.parallaxDither && !f.hasParallaxCorrection
  {
    PrepareGate(raw, cfg.allowParallaxCubemaps);
    InitParamsSlot(raw, Parallax);
  }

  /** A plain brush applies no HSV adjustment: the defaulted `$hsv`
      carries the unset sentinel. */
  lemma PlainBrushNoHsv(m: Material, raw: ParamSet, hw: Hardware, cfg: Config, blend: BlendType)
    requires PlainBrush(m, raw, cfg)
    ensures var f := Derive(m, hw, cfg, false, blend);
            !f.hasHsv && !f.blendHsv
  {
    InitParamsSentinels(raw, Hsv);
  }

  /** A plain brush does not blend its tint by the MRAO alpha. */
  lemma PlainBrushNoTint(m: Material, raw: ParamSet, hw: Hardware, cfg: Config, blend: BlendType)
    requires PlainBrush(m, raw, cfg)
    ensures !Derive(m, hw, cfg, false, blend).blendTintByMraoAlpha
  {
    InitParamsSlot(raw, BlendTintByMraoAlpha);
  }

  /** The normal map, MRAO texture and cubemap, which initialisation
      defaults, are usable exactly when they loaded. */
  lemma PlainBrushTextures(m: Material, raw: ParamSet, hw: Hardware, cfg: Config, blend: BlendType)
    requires PlainBrush(m, raw, cfg)
    ensures var f := Derive(m, hw, cfg, false, blend);
            && (f.hasNormal <==> Bumpmap in m.loaded)
            && (f.hasMrao <==> MraoTexture in m.loaded)
            && (f.hasEnv <==> Envmap in m.loaded)
  {
    InitParamsDefinesTextures(raw);
  }

  /** The static combos of a plain brush outside the flashlight:
      lightmapped, and every optional feature off; the tier follows the
      hardware. */
  lemma PlainBrushCombos(m: Material, raw: ParamSet, hw: Hardware, cfg: Config, blend: BlendType)
    requires PlainBrush(m, raw, cfg)
    ensures var c := Snapshot.CombosFor(Derive(m, hw, cfg, false, blend), hw, cfg);
            && c.vs == Snapshot.VsStatic(false, true)
            && c.ps == Snapshot.PsStatic(
                         flashlight := false, flashlightDepthFilterMode := 0, lightmapped := true,
                         emissive := false, parallaxOcclusion := false, wvt := false, hsv := false,
                         hsvBlend := false, parallaxCorrect := false, blendTintByMraoAlpha := false,
                         parallaxDither := false, emissiveFresnel := false)
            && c.tier == (if hw.fastVertexTextures && !cfg.force20b then Ps30 else Ps20b)
  {
    PlainBrushLayers(m, raw, hw, cfg, blend);
    PlainBrushNoParallax(m, raw, hw, cfg, blend);
    PlainBrushNoHsv(m, raw, hw, cfg, blend);
    PlainBrushNoTint(m, raw, hw, cfg, blend);
  }

  /** A plain brush binds black for the emissive sampler, the bumped
      lightmap, and the normal map, MRAO texture and cubemap that
      initialisation defaulted, when those loaded. */
  lemma PlainBrushBindings(m: Material, raw: ParamSet, hw: Hardware, cfg: Config, blend: BlendType,
                           fl: Dynamic.FlashlightInfo)
    requires PlainBrush(m, raw, cfg) && !Dynamic.LightingOnly(m, cfg)
    requires {Bumpmap, MraoTexture, Envmap} <= m.loaded
    ensures var b := Dynamic.BindingsFor(m, Derive(m, hw, cfg, false, blend), fl, cfg);
            && b[SamplerNormal] == Dynamic.ParamTexture(Bumpmap, Some(BumpFrame))
            && b[SamplerMrao] == Dynamic.ParamTexture(MraoTexture, Some(MraoFrame))
            && b[SamplerEnvmap] == Dynamic.ParamTexture(Envmap, Some(EnvmapFrame))
            && b[SamplerEmissive] == Dynamic.Standard(Dynamic.Black)
            && b[SamplerLightmap] == Dynamic.Standard(Dynamic.LightmapBumped)
  {
    var f := Derive(m, hw, cfg, false, blend);
    PlainBrushLayers(m, raw, hw, cfg, blend);
    PlainBrushTextures(m, raw, hw, cfg, blend);
    Dynamic.MaterialBindingsPlaceholders(f);
    Dynamic.LightingBindingsShape(Dynamic.MaterialBindings(f), f, fl, cfg);
  }

  /** Initialisation defines `$parallaxscale` as 1, so at draw time the
      scaled branch is always taken; for a material that left the scale
      unset it multiplies by 1 and uploads the base count of the quality
      level unchanged. */
  lemma UnsetParallaxScaleKeepsBase(m: Material, raw: ParamSet, f: FeatureFlags, cfg: Config)
    requires PreparedFrom(m, raw, cfg) && !IsDefined(raw, ParallaxScale) && f.useParallax
    ensures Dynamic.IntConstantsFor(m, f, cfg)[32][0] == ParallaxSamples.BaseSamples(cfg.parallaxQuality)
  {
    InitParamsSlot(raw, ParallaxScale);
    assert m.params.parallaxScale == Some(FloatVal(1.0));
    ParallaxSamples.ScaleOneKeepsBase(ParallaxSamples.BaseSamples(cfg.parallaxQuality));
  }

  /** A material that defines `$parallaxscale` keeps its value through
      initialisation, so the uploaded count is the base count of the
      quality level scaled by it, read as a float (an integer such as
      `"2"` counts as 2.0), truncated and capped at 256. */
  lemma DefinedParallaxScaleScalesBase(m: Material, raw: ParamSet, f: FeatureFlags, cfg: Config)
    requires PreparedFrom(m, raw, cfg) && raw.parallaxScale.Some? && f.useParallax
    ensures Dynamic.IntConstantsFor(m, f, cfg)[32][0]
              == ParallaxSamples.ScaledSamples(ParallaxSamples.BaseSamples(cfg.parallaxQuality),
                                               FloatValue(raw.parallaxScale.value))
  {
    InitParamsSlot(raw, ParallaxScale);
    assert m.params.parallaxScale == raw.parallaxScale;
  }

  /** An integer-valued scale of 2 at quality 1 doubles 32 samples to 64. */
  lemma IntegerParallaxScaleExample(m: Material, raw: ParamSet, f: FeatureFlags, cfg: Config)
    requires PreparedFrom(m, raw, cfg) && raw.parallaxScale == Some(IntVal(2)) && f.useParallax
    requires cfg.parallaxQuality == 1
    ensures Dynamic.IntConstantsFor(m, f, cfg)[32][0] == 64
  {
    DefinedParallaxScaleScalesBase(m, raw, f, cfg);
  }

  /** A brush material that defines only `$basetexture`. */
  const BaseOnly: ParamSet := NoParams.(baseTexture := Some(TexName("brick/brickwall001")))

  /** That material is a plain brush once prepared, whichever textures
      loaded: the emission and second base textures are undefined, so
      they are never usable. */
  lemma BaseOnlyIsPlain(cfg: Config, loaded: set<ParamId>)
    ensures PlainBrush(Material(Prepare(BaseOnly, cfg.allowParallaxCubemaps), loaded, false, false, false),
                       BaseOnly, cfg)
  {
  }
}
