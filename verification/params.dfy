/** The PBR material's parameter set and its one-time normalisation:
    the defaulting done when parameters are initialised, and the
    cubemap-parallax gate applied when the shader is initialised. */
module Params {
  import opened Util

  /** Every material parameter the PBR shader reads. `BaseTexture`, `Frame`
      and `BaseTextureTransform` are the standard parameters every shader
      has; the rest are declared by the PBR shader itself. */
  datatype ParamId =
    | BaseTexture | Frame | BaseTextureTransform
    | BaseTexture2 | Frame2 | AlphaTestReference
    | Envmap | EnvmapFrame
    | MraoTexture | MraoFrame | MraoTexture2 | MraoFrame2
    | EmissionTexture | EmissionFrame | EmissionTexture2 | EmissionFrame2 | EmissionFresnel
    | NormalTexture | Bumpmap | BumpFrame | Bumpmap2 | BumpFrame2
    | Parallax | ParallaxDepth | ParallaxCenter
    | MraoScale | MraoScale2 | EmissionScale | EmissionScale2 | Hsv | HsvBlend
    | BrdfIntegration
    | EnvmapParallax | EnvmapParallaxObb1 | EnvmapParallaxObb2 | EnvmapParallaxObb3 | EnvmapOrigin
    | BlendTintByMraoAlpha | ParallaxDither | ParallaxScale

  /** The value a defined parameter holds: a texture name, an integer
      (booleans are integers), a float, or a vector of floats. */
  datatype Value =
    | TexName(name: string)
    | IntVal(i: int)
    | FloatVal(f: real)
    | VecVal(c: seq<real>)

  /** A material's parameters: one slot per parameter, `None` when the
      material leaves it undefined. */
  datatype ParamSet = ParamSet(
    baseTexture: Option<Value>,
    frame: Option<Value>,
    baseTextureTransform: Option<Value>,
    baseTexture2: Option<Value>,
    frame2: Option<Value>,
    alphaTestReference: Option<Value>,
    envmap: Option<Value>,
    envmapFrame: Option<Value>,
    mraoTexture: Option<Value>,
    mraoFrame: Option<Value>,
    mraoTexture2: Option<Value>,
    mraoFrame2: Option<Value>,
    emissionTexture: Option<Value>,
    emissionFrame: Option<Value>,
    emissionTexture2: Option<Value>,
    emissionFrame2: Option<Value>,
    emissionFresnel: Option<Value>,
    normalTexture: Option<Value>,
    bumpmap: Option<Value>,
    bumpFrame: Option<Value>,
    bumpmap2: Option<Value>,
    bumpFrame2: Option<Value>,
    parallax: Option<Value>,
    parallaxDepth: Option<Value>,
    parallaxCenter: Option<Value>,
    mraoScale: Option<Value>,
    mraoScale2: Option<Value>,
    emissionScale: Option<Value>,
    emissionScale2: Option<Value>,
    hsv: Option<Value>,
    hsvBlend: Option<Value>,
    brdfIntegration: Option<Value>,
    envmapParallax: Option<Value>,
    envmapParallaxObb1: Option<Value>,
    envmapParallaxObb2: Option<Value>,
    envmapParallaxObb3: Option<Value>,
    envmapOrigin: Option<Value>,
    blendTintByMraoAlpha: Option<Value>,
    parallaxDither: Option<Value>,
    parallaxScale: Option<Value>
  )

  /** The slot of parameter `k`. */
  function Get(p: ParamSet, k: ParamId): Option<Value> {
    match k
    case BaseTexture => p.baseTexture
    case Frame => p.frame
    case BaseTextureTransform => p.baseTextureTransform
    case BaseTexture2 => p.baseTexture2
    case Frame2 => p.frame2
    case AlphaTestReference => p.alphaTestReference
    case Envmap => p.envmap
    case EnvmapFrame => p.envmapFrame
    case MraoTexture => p.mraoTexture
    case MraoFrame => p.mraoFrame
    case MraoTexture2 => p.mraoTexture2
    case MraoFrame2 => p.mraoFrame2
    case EmissionTexture => p.emissionTexture
    case EmissionFrame => p.emissionFrame
    case EmissionTexture2 => p.emissionTexture2
    case EmissionFrame2 => p.emissionFrame2
    case EmissionFresnel => p.emissionFresnel
    case NormalTexture => p.normalTexture
    case Bumpmap => p.bumpmap
    case BumpFrame => p.bumpFrame
    case Bumpmap2 => p.bumpmap2
    case BumpFrame2 => p.bumpFrame2
    case Parallax => p.parallax
    case ParallaxDepth => p.parallaxDepth
    case ParallaxCenter => p.parallaxCenter
    case MraoScale => p.mraoScale
    case MraoScale2 => p.mraoScale2
    case EmissionScale => p.emissionScale
    case EmissionScale2 => p.emissionScale2
    case Hsv => p.hsv
    case HsvBlend => p.hsvBlend
    case BrdfIntegration => p.brdfIntegration
    case EnvmapParallax => p.envmapParallax
    case EnvmapParallaxObb1 => p.envmapParallaxObb1
    case EnvmapParallaxObb2 => p.envmapParallaxObb2
    case EnvmapParallaxObb3 => p.envmapParallaxObb3
    case EnvmapOrigin => p.envmapOrigin
    case BlendTintByMraoAlpha => p.blendTintByMraoAlpha
    case ParallaxDither => p.parallaxDither
    case ParallaxScale => p.parallaxScale
  }

  predicate IsDefined(p: ParamSet, k: ParamId) {
    Get(p, k).Some?
  }

  /** A material that defines no parameter at all. */
  const NoParams: ParamSet := ParamSet(None, None, None, None, None, None, None, None, None, None, None, None, None, None, None, None, None, None, None, None, None, None, None, None, None, None, None, None, None, None, None, None, None, None, None, None, None, None, None, None)

  /** Reading a value as an integer; floats truncate as a C cast does. */
  function IntValue(v: Value): int {
    match v
    case IntVal(i) => i
    case FloatVal(f) => Trunc(f)
    case VecVal(c) => if |c| > 0 then Trunc(c[0]) else 0
    case TexName(_) => 0
  }

  /** Reading a value as a float. */
  function FloatValue(v: Value): real {
    match v
    case IntVal(i) => i as real
    case FloatVal(f) => f
    case VecVal(c) => if |c| > 0 then c[0] else 0.0
    case TexName(_) => 0.0
  }

  /** Reading component `i` of a value as a vector; missing components read 0
      and a scalar reads as a vector with every component equal to it. */
  function VecComp(v: Value, i: nat): real {
    match v
    case VecVal(c) => if i < |c| then c[i] else 0.0
    case IntVal(n) => n as real
    case FloatVal(f) => f
    case TexName(_) => 0.0
  }

  /** Integer read of a parameter; every parameter the shader reads this way
      without a definedness test declares 0 as its default. */
  function IntOf(p: ParamSet, k: ParamId): int {
    match Get(p, k)
    case Some(v) => IntValue(v)
    case None => 0
  }

  /** Float read of a parameter, with the same declared default of 0. */
  function FloatOf(p: ParamSet, k: ParamId): real {
    match Get(p, k)
    case Some(v) => FloatValue(v)
    case None => 0.0
  }

  /** Float read that falls back to `d` when the parameter is undefined,
      as the shader helper `GetFloatParam` does. */
  function FloatOr(p: ParamSet, k: ParamId, d: real): real {
    match Get(p, k)
    case Some(v) => FloatValue(v)
    case None => d
  }

  /** Vector component read; undefined parameters read 0. */
  function VecOf(p: ParamSet, k: ParamId, i: nat): real {
    match Get(p, k)
    case Some(v) => VecComp(v, i)
    case None => 0.0
  }

  const FlatNormal: string := "dev/flat_normal"
  const DefaultMrao: string := "dev/pbr_mraotexture"
  const DefaultCubemap: string := "env_cubemap"
  const DefaultBrdf: string := "dev/brdf_integration"

  /** The "no scale" sentinel: a vector whose components are all -1. */
  const Sentinel3: Value := VecVal([-1.0, -1.0, -1.0])
  const Sentinel4: Value := VecVal([-1.0, -1.0, -1.0, -1.0])

  /** The textures that always end up defined after initialisation. */
  const DefaultedTextures: set<ParamId> :=
    {Bumpmap, Bumpmap2, MraoTexture, MraoTexture2, Envmap, BrdfIntegration}

  /** The value parameter initialisation gives `k` when the material leaves
      it undefined; `None` for the parameters it does not touch. */
  function DefaultFor(k: ParamId): Option<Value> {
    match k
    case Bumpmap => Some(TexName(FlatNormal))
    case Bumpmap2 => Some(TexName(FlatNormal))
    case MraoTexture => Some(TexName(DefaultMrao))
    case MraoTexture2 => Some(TexName(DefaultMrao))
    case Envmap => Some(TexName(DefaultCubemap))
    case BrdfIntegration => Some(TexName(DefaultBrdf))
    case Frame2 => Some(IntVal(0))
    case BumpFrame => Some(IntVal(0))
    case EnvmapFrame => Some(IntVal(0))
    case BumpFrame2 => Some(IntVal(0))
    case MraoFrame => Some(IntVal(0))
    case MraoFrame2 => Some(IntVal(0))
    case EmissionFrame => Some(IntVal(0))
    case EmissionFrame2 => Some(IntVal(0))
    case ParallaxScale => Some(FloatVal(1.0))
    case ParallaxDither => Some(IntVal(0))
    case MraoScale => Some(Sentinel3)
    case MraoScale2 => Some(Sentinel3)
    case EmissionFresnel => Some(Sentinel4)
    case EmissionScale => Some(Sentinel3)
    case EmissionScale2 => Some(Sentinel3)
    case Hsv => Some(Sentinel3)
    case BlendTintByMraoAlpha => Some(IntVal(0))
    case _ => None
  }

  /** A slot after defaulting: the value it holds, else `d`. */
  function OrElse(o: Option<Value>, d: Value): (r: Option<Value>)
    ensures r.Some?
    ensures o.Some? ==> r == o
  {
    if o.Some? then o else Some(d)
  }

  /** Parameter initialisation. The deprecated `$normaltexture`, when
      defined, overwrites `$bumpmap`; then every unset parameter that has a
      default receives it. */
  function InitParams(p: ParamSet): (r: ParamSet)
    ensures r.bumpmap == if p.normalTexture.Some? then p.normalTexture
                         else if p.bumpmap.Some? then p.bumpmap
                         else Some(TexName(FlatNormal))
    ensures r.normalTexture == p.normalTexture
    ensures r.normalTexture.Some? ==> r.bumpmap == r.normalTexture
  {
    p.(
      bumpmap := OrElse(if p.normalTexture.Some? then p.normalTexture else p.bumpmap,
                        TexName(FlatNormal)),
      bumpmap2 := OrElse(p.bumpmap2, TexName(FlatNormal)),
      mraoTexture := OrElse(p.mraoTexture, TexName(DefaultMrao)),
      mraoTexture2 := OrElse(p.mraoTexture2, TexName(DefaultMrao)),
      envmap := OrElse(p.envmap, TexName(DefaultCubemap)),
      brdfIntegration := OrElse(p.brdfIntegration, TexName(DefaultBrdf)),
      frame2 := OrElse(p.frame2, IntVal(0)),
      bumpFrame := OrElse(p.bumpFrame, IntVal(0)),
      envmapFrame := OrElse(p.envmapFrame, IntVal(0)),
      bumpFrame2 := OrElse(p.bumpFrame2, IntVal(0)),
      mraoFrame := OrElse(p.mraoFrame, IntVal(0)),
      mraoFrame2 := OrElse(p.mraoFrame2, IntVal(0)),
      emissionFrame := OrElse(p.emissionFrame, IntVal(0)),
      emissionFrame2 := OrElse(p.emissionFrame2, IntVal(0)),
      parallaxScale := OrElse(p.parallaxScale, FloatVal(1.0)),
      parallaxDither := OrElse(p.parallaxDither, IntVal(0)),
      mraoScale := OrElse(p.mraoScale, Sentinel3),
      mraoScale2 := OrElse(p.mraoScale2, Sentinel3),
      emissionFresnel := OrElse(p.emissionFresnel, Sentinel4),
      emissionScale := OrElse(p.emissionScale, Sentinel3),
      emissionScale2 := OrElse(p.emissionScale2, Sentinel3),
      hsv := OrElse(p.hsv, Sentinel3),
      blendTintByMraoAlpha := OrElse(p.blendTintByMraoAlpha, IntVal(0))
    )
  }

  /** Every parameter other than `$bumpmap` keeps the material's value when
      the material defined it, and otherwise receives its default (or stays
      undefined when it has none). */
  lemma InitParamsSlot(p: ParamSet, k: ParamId)
    requires k != Bumpmap
    ensures IsDefined(p, k) ==> Get(InitParams(p), k) == Get(p, k)
    ensures !IsDefined(p, k) ==> Get(InitParams(p), k) == DefaultFor(k)
  {
  }

  /** After initialisation every texture with a default is defined. */
  lemma InitParamsDefinesTextures(p: ParamSet)
    ensures forall k :: k in DefaultedTextures ==> IsDefined(InitParams(p), k)
  {
  }

  /** The vector parameters whose unset value is the "no scale" sentinel,
      with the component the shader tests: the first one of each scale,
      the exponent of the fresnel ranges. */
  function SentinelComponent(k: ParamId): Option<nat> {
    match k
    case MraoScale => Some(0)
    case MraoScale2 => Some(0)
    case EmissionScale => Some(0)
    case EmissionScale2 => Some(0)
    case Hsv => Some(0)
    case EmissionFresnel => Some(3)
    case _ => None
  }

  /** Each scale vector the material left unset reads as "no scale" after
      initialisation: the component the shader tests is negative. */
  lemma InitParamsSentinels(p: ParamSet, k: ParamId)
    requires SentinelComponent(k).Some? && !IsDefined(p, k)
    ensures VecOf(InitParams(p), k, SentinelComponent(k).value) < 0.0
  {
  }

  /** Running initialisation twice is the same as running it once. */
  lemma InitParamsIdempotent(p: ParamSet)
    ensures InitParams(InitParams(p)) == InitParams(p)
  {
  }

  /** Whether the five parameters parallax-corrected cubemaps need (the
      switch, the three OBB rows and the cubemap origin) are all defined. */
  predicate CorrectionDefined(p: ParamSet) {
    p.envmapParallax.Some? && p.envmapParallaxObb1.Some? && p.envmapParallaxObb2.Some?
    && p.envmapParallaxObb3.Some? && p.envmapOrigin.Some?
  }

  /** The gate at the end of shader initialisation: `$envmapparallax` is
      set to 0 unless the global allow switch is on and all five correction
      inputs are defined. */
  function GateParallaxCorrection(p: ParamSet, allowParallaxCubemaps: bool): (r: ParamSet)
    ensures r == p.(envmapParallax := r.envmapParallax)
    ensures r.envmapParallax.Some?
    ensures IntOf(r, EnvmapParallax) != 0 <==>
              allowParallaxCubemaps && CorrectionDefined(p) && IntOf(p, EnvmapParallax) != 0
  {
    if !allowParallaxCubemaps || !CorrectionDefined(p)
    then p.(envmapParallax := Some(IntVal(0)))
    else p
  }

  /** Everything done to the parameters before the first draw. */
  function Prepare(raw: ParamSet, allowParallaxCubemaps: bool): ParamSet {
    GateParallaxCorrection(InitParams(raw), allowParallaxCubemaps)
  }

  /** Preparation keeps every value the material defined, except that
      `$bumpmap` may be replaced by `$normaltexture` and `$envmapparallax`
      may be forced to 0. */
  lemma PrepareKeepsDefined(raw: ParamSet, allow: bool, k: ParamId)
    requires IsDefined(raw, k) && k != Bumpmap && k != EnvmapParallax
    ensures Get(Prepare(raw, allow), k) == Get(raw, k)
  {
    InitParamsSlot(raw, k);
  }

  /** After preparation `$envmapparallax` reads non-zero exactly when the
      allow switch is on, all five inputs were defined by the material and
      the material's own `$envmapparallax` was non-zero. */
  lemma PrepareGate(raw: ParamSet, allow: bool)
    ensures IntOf(Prepare(raw, allow), EnvmapParallax) != 0 <==>
              allow && CorrectionDefined(raw) && IntOf(raw, EnvmapParallax) != 0
  {
  }

  /** Preparing an already prepared parameter set changes nothing. */
  lemma PrepareIdempotent(raw: ParamSet, allow: bool)
    ensures Prepare(Prepare(raw, allow), allow) == Prepare(raw, allow)
  {
  }
}
