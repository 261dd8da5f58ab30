# PBR shader decision logic, in Dafny

This project models the decision logic of the Source engine's physically
based rendering shader (`PBR`, `src/materialsystem/stdshaders/pbr_dx9.cpp`).
The shader runs in three stages. The model follows them and proves what the
shader promises at each one.

1. **Parameter initialisation** (`SHADER_INIT_PARAMS`). The deprecated
   `$normaltexture` is aliased onto `$bumpmap`. Default textures and frame
   numbers are filled in. Scale vectors the material left unset receive
   the "no scale" sentinel `[-1 -1 -1]`. At the end of `SHADER_INIT`,
   `$envmapparallax` is forced to 0 unless parallax-corrected cubemaps are
   allowed and all five correction inputs are defined (module `Params`).
2. **Feature flags**, computed on every draw from the material, the
   hardware, the console variables and the engine's blend evaluation
   (module `Features`).
3. **Snapshot** (static state, module `Snapshot`) and **dynamic state**
   (module `Dynamic`).
   - The snapshot covers the shader tier, the static combos, alpha and
     depth writes, blending, fog, the vertex format, and the samplers
     enabled with their sRGB flags.
   - The dynamic state covers texture bindings with their placeholders,
     pixel shader constants, the light state, the dynamic combos, the
     cubemap level of detail (module `EnvLod`) and the parallax sample
     count (module `ParallaxSamples`).

`Scenarios` relates the two halves of a draw and works through a plain
brush. `Samplers` names the sampler numbers. `Util` holds `Option`, the
clamps, truncation and powers of two.

All state is immutable. A draw is a pure function of its inputs:
- a `Material`: prepared parameters, the set of parameters whose texture
  loaded, and the model, alpha-test and no-debug-override flags;
- a `Hardware` record;
- a `Config` record of console variables;
- whether this pass draws the flashlight;
- the blend type;
- for the dynamic state, a `FrameInputs` record of what the engine
  reports.

Two quirks of the code are modelled as written:

- The snapshot enables sampler 5 on the line meant for the flashlight
  depth map (line 368). The shadow-filtering and sRGB calls next to it name
  sampler 4, so sampler 4 is never enabled, yet the dynamic state binds
  the shadow depth texture to it. `Snapshot.FixedSamplersState` and
  `Scenarios.BoundButNotEnabled` state this.
- Normal map 2 is read as sRGB (line 393) while normal map 1 is not (line
  365). `Snapshot.FixedSamplersSrgb` and `Snapshot.MaterialSamplersState`
  state this.

Five behaviours of the code are worth noting:

- **Parallax sample count.** The scaled count is converted to an integer
  by truncation (the float-to-int assignment at line 700). Quality 0 at
  scale 0.99 gives 15 samples (`ParallaxSamples.SampleCountExamples`).
  Because initialisation always defines `$parallaxscale`, the scaled
  branch is always taken (`Scenarios.UnsetParallaxScaleKeepsBase`,
  `Scenarios.DefinedParallaxScaleScalesBase`).
- **Defaulted textures are bound, not placeholders.** A brush that
  defines only `$basetexture` gets `$bumpmap`, `$mraotexture` and
  `$envmap` defaulted by initialisation (lines 107-126). When those
  textures load, the draw binds them rather than the flat-normal, white
  and black placeholders (lines 487-526, `Scenarios.PlainBrushBindings`).
- **Emissive fresnel on the 2.0b pair.** Emissive fresnel needs fast
  vertex textures (line 242) but does not test `mat_pbr_force_20b`, so
  forcing 2.0b (line 302) can select the 2.0b pair with fresnel on. The
  model proves no tier implication for it (`Snapshot.CombosConsistent`).
- **Second emissive sampler.** The snapshot enables sampler 14 only when
  the first layer has an emission texture (line 397). A WVT brush with
  only `$emissiontexture2` binds that texture to sampler 14 (line 538)
  without it being enabled (`Scenarios.SecondEmissiveBoundButDisabled`).
- **Shadow combo without a shadow map.** The `FLASHLIGHTSHADOWS` combo
  needs shadows enabled and a depth texture (line 590); binding the depth
  texture to sampler 4 also needs `g_pConfig->ShadowDepthTexture()`
  (line 594). With that switch off, a flashlight pass selects the shadowed
  shader with sampler 4 unbound
  (`Scenarios.DrawShadowComboWithoutShadowSampler`).

The functions that compute each stage are specified by the lemma rows
that cite the same lines:
- `Features.ChooseTier` by `Features.ParallaxOnlyOnPs30`,
  `Snapshot.Snapshot`, `Dynamic.CombosFor` and
  `Scenarios.SameTierBothPhases`;
- `Params.Prepare` by `Params.PrepareGate`, `Params.PrepareKeepsDefined`
  and `Params.PrepareIdempotent`;
- `Snapshot.CombosFor` by `Snapshot.CombosConsistent` and
  `Scenarios.PlainBrushCombos`;
- `Snapshot.VertexFormatFor` by `Snapshot.VertexFormatShape`;
- `Snapshot.FixedSamplers` by `Snapshot.FixedSamplersState` and
  `Snapshot.FixedSamplersSrgb`;
- `Snapshot.MaterialSamplers` by `Snapshot.MaterialSamplersState` and
  `Snapshot.MaterialSamplersKeepOthers`;
- `Snapshot.SamplersFor` by `Snapshot.SamplersForShape` and
  `Scenarios.SnapshotEnables`;
- `Dynamic.MaterialBindings` by `Dynamic.MaterialBindingsPlaceholders`
  and `Dynamic.MaterialBindingsKeys`;
- `Dynamic.LightingBindings` by `Dynamic.LightingBindingsShape` and
  `Dynamic.LightingBindingsKeepOthers`;
- `Dynamic.BindingsFor` by `Dynamic.LightingOnlyOverridesBase`,
  `Scenarios.DrawBinds` and `Scenarios.BoundButNotEnabled`;
- `Dynamic.CorrectionConstants` by `Dynamic.CorrectionMatrix`;
- `Dynamic.ScaleConstants` by `Dynamic.ScaleConstantsShape` and
  `Dynamic.ScaleConstantsTint`;
- `Dynamic.ConstantsFor` by those two and `Dynamic.EyePosCarriesLod`.

## Model

| member | source | states |
|---|---|---|
| Params.InitParams | src/materialsystem/stdshaders/pbr_dx9.cpp:104-109 | `$bumpmap` becomes `$normaltexture` when that is defined, else stays the material's own `$bumpmap`, else becomes `dev/flat_normal`; `$normaltexture` is untouched, and whenever it is defined `$bumpmap` equals it |
| Params.InitParamsSlot | src/materialsystem/stdshaders/pbr_dx9.cpp:111-162 | every other parameter keeps a value the material defined; an unset one receives its entry in the default table (flat normal, `dev/pbr_mraotexture`, `env_cubemap`, `dev/brdf_integration`, frame 0, parallax scale 1, the -1 sentinels, flag 0) or stays undefined when the table has none |
| Params.InitParamsDefinesTextures | src/materialsystem/stdshaders/pbr_dx9.cpp:107-126 | after initialisation both normal maps, both MRAO textures, the cubemap and the BRDF table are always defined |
| Params.InitParamsSentinels | src/materialsystem/stdshaders/pbr_dx9.cpp:149-160 | an unset MRAO scale, emission scale, HSV triple or emissive fresnel vector reads negative in the component the shader later tests (the first, or the fourth for fresnel) |
| Params.InitParamsIdempotent | src/materialsystem/stdshaders/pbr_dx9.cpp:101-163 | initialising an already initialised parameter set changes nothing |
| Params.GateParallaxCorrection | src/materialsystem/stdshaders/pbr_dx9.cpp:215-219 | only `$envmapparallax` can change; afterwards it is defined and reads non-zero exactly when the allow switch is on, the switch, all three OBB rows and the origin are defined, and it read non-zero before |
| Params.PrepareGate | src/materialsystem/stdshaders/pbr_dx9.cpp:216-219 | after initialisation and the gate, `$envmapparallax` is non-zero exactly when the allow switch is on and the material itself defined all five inputs with a non-zero switch (defaults cannot satisfy the gate) |
| Params.PrepareKeepsDefined | src/materialsystem/stdshaders/pbr_dx9.cpp:101-163 | preparation never overwrites a value the material defined, except `$bumpmap` (by `$normaltexture`) and `$envmapparallax` (by the gate) |
| Params.PrepareIdempotent | src/materialsystem/stdshaders/pbr_dx9.cpp:216-219 | preparing a prepared parameter set again changes nothing |
| Features.Derive | src/materialsystem/stdshaders/pbr_dx9.cpp:226-253 | lightmapped exactly for brushes; WVT only on brushes; HSV blending only with HSV; emissive fresnel only with fast vertex textures, an emission texture and no flashlight; parallax only with the switch, fast vertex textures, 2.0b not forced and `$parallax` set; dithering only with parallax; correction only with a cubemap; fully opaque only when neither blended nor alpha tested |
| Features.ParallaxOnlyOnPs30 | src/materialsystem/stdshaders/pbr_dx9.cpp:252 | a draw that uses parallax occlusion always selects the shader model 3.0 pair (the tier test at line 302 excludes it otherwise) |
| Features.ParallaxCorrectionNeedsEveryInput | src/materialsystem/stdshaders/pbr_dx9.cpp:245 | parallax-corrected cubemaps are on exactly when the cubemap loaded, the allow switch is on, and the material defined all five correction inputs with a non-zero switch |
| Features.UnsetScalesReadAsNoScale | src/materialsystem/stdshaders/pbr_dx9.cpp:238-243 | each of the four scale flags and the HSV flag is on exactly when the material defined that vector with a non-negative first component |
| Features.UnsetFresnelReadsAsOff | src/materialsystem/stdshaders/pbr_dx9.cpp:242 | emissive fresnel is on exactly when fast vertex textures, a loaded emission texture and no flashlight meet a fresnel vector the material defined with a non-negative exponent |
| Snapshot.ShadowFilterMode | src/materialsystem/stdshaders/pbr_dx9.cpp:282 | the filter-mode combo is the hardware's shadow filter mode in a flashlight pass and 0 otherwise |
| Snapshot.CombosConsistent | src/materialsystem/stdshaders/pbr_dx9.cpp:302-349 | the vertex and pixel shaders agree on WVT and lightmapping; lightmapped exactly for brushes; filter mode 0 without flashlight; parallax occlusion only on shader model 3.0; dither only with parallax; HSV blend only with HSV; fresnel only with emission and without flashlight; correction only with a loaded cubemap |
| Snapshot.OutputFor | src/materialsystem/stdshaders/pbr_dx9.cpp:265-360 | alpha writes are on exactly outside the flashlight for fully opaque materials; depth writes off, additive blending and fog to black exactly in a flashlight pass; sRGB writes always on |
| Snapshot.VertexFormatShape | src/materialsystem/stdshaders/pbr_dx9.cpp:284-300 | position, normal and compression always; the colour stream exactly for models; the vertex colour exactly for WVT; never both colours; 1 texture coordinate for models and 3 for brushes |
| Snapshot.FixedSamplersState | src/materialsystem/stdshaders/pbr_dx9.cpp:362-380 | the unconditional calls enable exactly samplers 0, 1, 2, 5, 6, 7, 8 and 10; sampler 4 gets filtering and an sRGB flag but is never enabled |
| Snapshot.FixedSamplersSrgb | src/materialsystem/stdshaders/pbr_dx9.cpp:362-380 | sRGB reads on for the base texture and cubemap, off for normal map, MRAO, BRDF table, cookie, rotation noise and depth map, and on for the lightmap exactly without HDR |
| Snapshot.MaterialSamplersState | src/materialsystem/stdshaders/pbr_dx9.cpp:382-402 | the conditional calls add sampler 11 with emission, samplers 3, 12 and 13 for WVT, and 14 for WVT with emission, and nothing else; colour textures and normal map 2 read as sRGB, MRAO 2 does not |
| Snapshot.MaterialSamplersKeepOthers | src/materialsystem/stdshaders/pbr_dx9.cpp:382-402 | the conditional calls leave the sRGB flag of every sampler they do not name as it was |
| Snapshot.SamplersForShape | src/materialsystem/stdshaders/pbr_dx9.cpp:362-402 | whatever the material, the always-on samplers are enabled, sampler 4 is not, only sampler 4 is filtered, and every enabled sampler has an sRGB flag |
| Snapshot.AlphaFuncFor | src/materialsystem/stdshaders/pbr_dx9.cpp:260-263 | a greater-or-equal alpha function is set exactly when `$alphatestreference` is positive, with that reference |
| Snapshot.Snapshot | src/materialsystem/stdshaders/pbr_dx9.cpp:255-300 | alpha testing follows the material flag; alpha writes exactly outside the flashlight for fully opaque materials, hence never with alpha testing; the tier is the hardware and console choice |
| EnvLod.Log2Floor | src/materialsystem/stdshaders/pbr_dx9.cpp:624-626 | the count of halvings satisfies `2^r <= n < 2^(r+1)` for positive `n`, and is 0 exactly for `n <= 1` |
| EnvLod.Log2FloorUnique | src/materialsystem/stdshaders/pbr_dx9.cpp:624-626 | any `r` with `2^r <= n < 2^(r+1)` is the count, so the count is the base-2 logarithm rounded down |
| EnvLod.Log2FloorMonotone | src/materialsystem/stdshaders/pbr_dx9.cpp:624-626 | a wider texture never has fewer mips |
| EnvLod.CountMips | src/materialsystem/stdshaders/pbr_dx9.cpp:624-626 | the shift-and-count loop returns the base-2 logarithm of the width rounded down |
| EnvLod.EnvMapLod | src/materialsystem/stdshaders/pbr_dx9.cpp:616-636 | the level of detail is always within [4, 12] and is 6 without a cubemap |
| EnvLod.ComputeEnvMapLod | src/materialsystem/stdshaders/pbr_dx9.cpp:616-636 | the loop-and-clamp procedure of the source computes the same level as the closed form |
| EnvLod.EnvMapLodMonotone | src/materialsystem/stdshaders/pbr_dx9.cpp:616-636 | a wider cubemap never gets a lower level |
| EnvLod.EnvMapLodOfPow2 | src/materialsystem/stdshaders/pbr_dx9.cpp:624-636 | a cubemap of width `2^k`, 4 <= k <= 12, gets level `k` |
| EnvLod.EnvMapLodSaturatesHigh | src/materialsystem/stdshaders/pbr_dx9.cpp:633-634 | cubemaps 4096 wide or wider get level 12 |
| EnvLod.EnvMapLodSaturatesLow | src/materialsystem/stdshaders/pbr_dx9.cpp:635-636 | cubemaps narrower than 32, including a missing one (width 0), get level 4 |
| ParallaxSamples.BaseSamples | src/materialsystem/stdshaders/pbr_dx9.cpp:696 | the base count is an entry of the table {16, 32, 64, 128}: 16 at or below quality 0, 128 at or above quality 3 |
| ParallaxSamples.BaseSamplesDouble | src/materialsystem/stdshaders/pbr_dx9.cpp:46-52 | the table entry for quality `q` is `2^(q+4)`, each level doubling the last |
| ParallaxSamples.ScaledSamples | src/materialsystem/stdshaders/pbr_dx9.cpp:700 | the scaled count lies in [0, 256], is the product truncated when the product is in range, 256 at or above the cap, and 0 at or below zero |
| ParallaxSamples.ScaleOneKeepsBase | src/materialsystem/stdshaders/pbr_dx9.cpp:700 | scale 1 leaves any count in [0, 256] unchanged |
| ParallaxSamples.ScaledSamplesMonotone | src/materialsystem/stdshaders/pbr_dx9.cpp:700 | a larger scale never gives fewer samples |
| ParallaxSamples.SampleCount | src/materialsystem/stdshaders/pbr_dx9.cpp:695-700 | the uploaded count lies in [0, 256]; it is the base count when no scale is defined and the base count scaled by the defined scale (truncated, capped at 256) otherwise, so a scale of 1 keeps the base count |
| ParallaxSamples.SampleCountExamples | src/materialsystem/stdshaders/pbr_dx9.cpp:695-700 | quality 2 at scale 1 gives 64; quality 3 at scale 5 is capped at 256; quality 0 at scale 0.99 gives 15; quality 7 unscaled gives 128 |
| Dynamic.TextureOr | src/materialsystem/stdshaders/pbr_dx9.cpp:425-432 | a sampler holds the material texture with its frame parameter exactly when the texture is usable, else the placeholder |
| Dynamic.MaterialBindingsPlaceholders | src/materialsystem/stdshaders/pbr_dx9.cpp:487-550 | base, cubemap, emission, normal and MRAO samplers hold their texture or grey, black, black, flat normal, white; the second-layer samplers exist exactly for WVT, base texture 2 bound without a fallback |
| Dynamic.MaterialBindingsKeys | src/materialsystem/stdshaders/pbr_dx9.cpp:425-550 | the material binds samplers 0, 1, 2, 10 and 11, plus 3, 12, 13 and 14 exactly for WVT |
| Dynamic.LightingBindingsShape | src/materialsystem/stdshaders/pbr_dx9.cpp:584-648 | the cookie is bound in a flashlight pass; the depth texture and rotation noise exactly with flashlight, enabled shadows, a depth texture and shadow depth textures configured; the bumped lightmap for brushes; the BRDF table always; nothing else is added |
| Dynamic.LightingBindingsKeepOthers | src/materialsystem/stdshaders/pbr_dx9.cpp:584-648 | the engine-state bindings leave every material sampler as it was |
| Dynamic.LightingOnlyOverridesBase | src/materialsystem/stdshaders/pbr_dx9.cpp:687-691 | under `mat_fullbright 2` without the no-debug-override flag the base sampler ends grey whatever the material; otherwise it holds the base texture or the grey placeholder |
| Dynamic.FloatParamOr | src/materialsystem/stdshaders/pbr_dx9.cpp:462 | a float parameter is read from the material exactly when it is defined, else the fallback is used |
| Dynamic.CorrectionMatrix | src/materialsystem/stdshaders/pbr_dx9.cpp:434-453 | with correction, register 3 holds the cubemap origin, rows 26 to 28 hold the three OBB rows component by component and row 29 is (0, 0, 0, 1); without it nothing is set |
| Dynamic.ScaleConstantsShape | src/materialsystem/stdshaders/pbr_dx9.cpp:455-569 | register 31 holds the HSV triple when in use, else ones, then the parallax depth; 33 exists exactly with fast vertex textures and holds the MRAO scale when in use, else ones, then the lightmap scale; 34 holds the second MRAO scale only for WVT with that scale in use, else ones, then the parallax centre |
| Dynamic.ScaleConstantsTint | src/materialsystem/stdshaders/pbr_dx9.cpp:478-561 | the self-illumination tint holds the emission scale when in use, else ones, then the parallax dither amount; 35 holds the fresnel vector when fresnel is on; on fast vertex textures a WVT brush's register 36 holds the second emission scale when in use, else ones, then 0 |
| Dynamic.EffectiveLightState | src/materialsystem/stdshaders/pbr_dx9.cpp:575-580 | brushes report no dynamic lights, so the `NUM_LIGHTS` combos are 0; their ambient flag is cleared too but nothing reads it afterwards (the ambient cube comes from the snapshot's command buffer, line 410); models keep what the engine reports |
| Dynamic.FogIndex | src/materialsystem/stdshaders/pbr_dx9.cpp:602-603 | the water-fog combo is 1 exactly below the fog plane, else 0 |
| Dynamic.CombosFor | src/materialsystem/stdshaders/pbr_dx9.cpp:575-685 | both shaders get the same light count, 0 for brushes and the engine's count for models; depth to alpha exactly for fully opaque materials when the engine asks for it (lines 609-613); flashlight shadows exactly in a flashlight pass with shadows enabled and a depth texture (line 590); water fog 1 exactly below the fog plane (line 603); skinning exactly with bones; lighting preview exactly with fixed lighting; the vertex compression as reported; the tier is the snapshot's |
| Dynamic.IntConstantsFor | src/materialsystem/stdshaders/pbr_dx9.cpp:693-703 | integer register 32 is uploaded exactly when parallax is used, as the sample count in [0, 256] followed by three zeros |
| Dynamic.Draw | src/materialsystem/stdshaders/pbr_dx9.cpp:420-705 | the level of detail of every draw lies in [4, 12] and the dynamic combos go to the tier the hardware and console select |
| Dynamic.EyePosCarriesLod | src/materialsystem/stdshaders/pbr_dx9.cpp:638-642 | the eye-position register's fourth component is the level of detail, which is 6 when the cubemap is not a usable texture |
| Scenarios.SameTierBothPhases | src/materialsystem/stdshaders/pbr_dx9.cpp:650 | the static and dynamic combos of one draw go to the same shader pair |
| Scenarios.SnapshotEnables | src/materialsystem/stdshaders/pbr_dx9.cpp:362-402 | the snapshot enables exactly the always-on samplers plus the emission and WVT samplers their conditions select |
| Scenarios.DrawBinds | src/materialsystem/stdshaders/pbr_dx9.cpp:425-648 | the draw binds exactly the material samplers, the BRDF table, and the cookie, shadow and lightmap samplers under their conditions |
| Scenarios.BoundButNotEnabled | src/materialsystem/stdshaders/pbr_dx9.cpp:362-402 | a sampler is bound by the draw but never enabled by the snapshot exactly when it is sampler 4 under shadow-depth binding (line 368 enables 5 instead), sampler 11 bound to black without `$emissiontexture`, or sampler 14 of a WVT brush whose first layer has no emission texture, whatever it holds (line 397 tests the first layer) |
| Scenarios.ShadowComboWithoutShadowSampler | src/materialsystem/stdshaders/pbr_dx9.cpp:589-597 | in a flashlight pass with shadows enabled and a depth texture but the engine's shadow-depth switch off, the `FLASHLIGHTSHADOWS` combo is on while sampler 4 is unbound |
| Scenarios.DrawShadowComboWithoutShadowSampler | src/materialsystem/stdshaders/pbr_dx9.cpp:589-597 | the same for a whole draw with the flashlight on: the pixel combo selects shadows and the draw's bindings lack sampler 4 |
| Scenarios.SecondEmissiveBoundButDisabled | src/materialsystem/stdshaders/pbr_dx9.cpp:397-400 | a WVT brush with `$emissiontexture2` usable but no `$emissiontexture` has sampler 14 bound to the second emission texture with its frame (line 538), yet the snapshot never enables it |
| Scenarios.PlainBrushLayers | src/materialsystem/stdshaders/pbr_dx9.cpp:227-242 | a brush without a usable second base or emission texture, outside the flashlight, is lightmapped, single-layer, non-emissive and without fresnel |
| Scenarios.PlainBrushNoParallax | src/materialsystem/stdshaders/pbr_dx9.cpp:245-253 | a brush that leaves `$parallax` and `$envmapparallax` unset uses no parallax occlusion, no dithering and no cubemap correction |
| Scenarios.PlainBrushNoHsv | src/materialsystem/stdshaders/pbr_dx9.cpp:243-244 | a brush that leaves `$hsv` unset gets neither HSV nor HSV blending |
| Scenarios.PlainBrushNoTint | src/materialsystem/stdshaders/pbr_dx9.cpp:246 | a brush that leaves `$blendtintbymraoalpha` unset does not blend its tint |
| Scenarios.PlainBrushTextures | src/materialsystem/stdshaders/pbr_dx9.cpp:228-234 | for such a brush the normal map, MRAO texture and cubemap are usable exactly when they loaded, since initialisation always defines them |
| Scenarios.PlainBrushCombos | src/materialsystem/stdshaders/pbr_dx9.cpp:302-349 | such a brush outside the flashlight gets vertex combos (no WVT, lightmapped) and every optional pixel combo off, filter mode 0, on the hardware-selected tier |
| Scenarios.PlainBrushBindings | src/materialsystem/stdshaders/pbr_dx9.cpp:487-526 | such a brush whose defaulted normal map, MRAO texture and cubemap loaded binds the defaulted normal map, MRAO texture and cubemap, black emission and the bumped lightmap |
| Scenarios.BaseOnlyIsPlain | src/materialsystem/stdshaders/pbr_dx9.cpp:101-163 | a brush material that defines only `$basetexture` is such a plain brush once prepared |
| Scenarios.UnsetParallaxScaleKeepsBase | src/materialsystem/stdshaders/pbr_dx9.cpp:699-700 | a material that left `$parallaxscale` unset uploads exactly the base count of its quality level |
| Scenarios.DefinedParallaxScaleScalesBase | src/materialsystem/stdshaders/pbr_dx9.cpp:699-700 | a material that defines `$parallaxscale` uploads the base count of its quality level scaled by that value read as a float (integers included), truncated and capped at 256 |
| Scenarios.IntegerParallaxScaleExample | src/materialsystem/stdshaders/pbr_dx9.cpp:695-700 | an integer `$parallaxscale` of 2 at quality 1 uploads 64 samples |

## Left out

- Texture loading (lines 171-195) is not modelled. Whether a parameter's texture loaded is an input, the `loaded` set of a `Material`, because the loader is engine code.
- The material flags set at lines 197-213 are left out. They are engine bookkeeping that no other part of the shader reads.
- The shader fallback (lines 165-169) is left out. It always returns no fallback.
- The per-snapshot command buffer (lines 407-418) is left out. It asks the engine to upload the ambient cube, the local lights and the modulation colour, none of which the shader computes.
- The texture transform at line 705 is left out. It forwards `$basetexturetransform` to the engine unchanged.
- The lightmap scale factor (line 405) is kept symbolic. The engine returns it, so register 33 holds `LightmapScale`.
- Parameter values and `mat_pbr_parallax_dither` are reals, not 32-bit floats. For finite values the comparisons at lines 238-243 and 260 agree, and so does the product at line 700: the base count is a power of two, so the product with a float scale is exact before the clamp and the truncation. NaN and infinity are not modelled, so a NaN scale or fresnel exponent is out of scope.
- Floating-point payloads of shader constants are symbolic (`Comp`: a literal, a parameter component, the camera position, the flashlight colour). The model states where each component comes from, not its float value.
- Registers named from the engine's register map (self-illumination tint, eye position, flashlight colour) are symbolic. That header is not part of this model.
- Dynamic.ConstantsFor: `PsSelfIllumTint`, `PsEyePosSpecExponent` and `PsFlashlightColor` are distinct map keys from the numbered registers 3, 26-29, 31 and 33-36. The model therefore assumes those named registers do not alias any numbered one. If one did (a flashlight colour landing on an OBB row, say), the later write would overwrite the earlier one and the model would miss it. The register header is not available, so this cannot be checked either way.
- The flashlight state, the fog mode, the bone count, the vertex compression and the lighting preview come from the engine. They are inputs in `FrameInputs`, and the cookie and depth textures are named bindings.
- The `NUM_LIGHTS` combo range is not checked. The light count is passed through as the engine reports it.
- EnvLod.EnvMapLod: the cubemap width is a `nat`. A negative width would make the source's signed shift loop run forever, and the model assumes the engine reports a non-negative width. The debug-only assertion that the width is non-zero (line 623) is not a runtime check, so width 0 gives level 4.
- Params.InitParams: `$normaltexture` is copied onto `$bumpmap` as the same value. The source copies its string form, which differs only for a non-string value.
- Features.Derive: the implications in its contract are one direction of each flag's definition. The iff forms that matter for callers are the lemmas `ParallaxCorrectionNeedsEveryInput`, `UnsetScalesReadAsNoScale`, `UnsetFresnelReadsAsOff` and `Snapshot.OutputFor`.
- Concurrency and the render thread are left out. A draw is a single synchronous call.
