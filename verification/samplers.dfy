/** The texture sampler slots the shader uses, by the names the source
    gives them. */
module Samplers {

  const SamplerBaseTexture: nat := 0
  const SamplerNormal: nat := 1
  const SamplerEnvmap: nat := 2
  const SamplerBaseTexture2: nat := 3
  const SamplerShadowDepth: nat := 4
  const SamplerRandomRotation: nat := 5
  const SamplerFlashlight: nat := 6
  const SamplerLightmap: nat := 7
  const SamplerBrdfIntegration: nat := 8
  const SamplerMrao: nat := 10
  const SamplerEmissive: nat := 11
  const SamplerNormal2: nat := 12
  const SamplerMrao2: nat := 13
  const SamplerEmissive2: nat := 14
}
