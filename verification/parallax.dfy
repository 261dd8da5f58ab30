/** The number of parallax occlusion samples the pixel shader takes: a
    quality level picks a base count from a table, and `$parallaxscale`
    scales it within [0, 256]. */
module ParallaxSamples {
  import opened Util

  const ParallaxQualityMax: int := 3

  /** Base sample counts for quality levels 0 to 3. */
  const SampleTable: seq<int> := [16, 32, 64, 128]

  const MaxSamples: int := 256

  /** The base count: the quality level is clamped into the table. The
      source clamps to `useParallax ? 3 : 0`, but only computes the count
      when `useParallax` holds, so the upper bound is always 3. */
  function BaseSamples(quality: int): (r: int)
    ensures r in SampleTable
    ensures quality <= 0 ==> r == 16
    ensures quality >= ParallaxQualityMax ==> r == 128
  {
    SampleTable[Clamp(quality, 0, ParallaxQualityMax)]
  }

  /** Each quality step doubles the base count, starting from 2^4. */
  lemma BaseSamplesDouble(quality: int)
    requires 0 <= quality <= ParallaxQualityMax
    ensures BaseSamples(quality) == Pow2(quality + 4)
  {
    assert Pow2(4) == 16;
    if quality >= 1 {
      assert Pow2(5) == 32;
    }
    if quality >= 2 {
      assert Pow2(6) == 64;
    }
    if quality == 3 {
      assert Pow2(7) == 128;
    }
  }

  /** The scaled count: the product is clamped to [0, 256] as a float and
      then converted to an integer, which truncates. */
  function ScaledSamples(base: int, scale: real): (r: int)
    ensures 0 <= r <= MaxSamples
    ensures 0.0 <= scale * base as real <= MaxSamples as real ==>
              r as real <= scale * base as real < r as real + 1.0
    ensures scale * base as real >= MaxSamples as real ==> r == MaxSamples
    ensures scale * base as real <= 0.0 ==> r == 0
  {
    Trunc(ClampReal(scale * base as real, 0.0, MaxSamples as real))
  }

  /** A scale of 1 leaves any count in range unchanged. */
  lemma ScaleOneKeepsBase(base: int)
    requires 0 <= base <= MaxSamples
    ensures ScaledSamples(base, 1.0) == base
  {
  }

  /** A larger scale never gives fewer samples. */
  lemma ScaledSamplesMonotone(base: nat, s1: real, s2: real)
    requires s1 <= s2
    ensures ScaledSamples(base, s1) <= ScaledSamples(base, s2)
  {
    var x1 := ClampReal(s1 * base as real, 0.0, MaxSamples as real);
    var x2 := ClampReal(s2 * base as real, 0.0, MaxSamples as real);
    assert s1 * base as real <= s2 * base as real;
    assert x1 <= x2;
  }

  /** The count uploaded for a draw: the base count for the quality level,
      scaled when `$parallaxscale` is defined. */
  function SampleCount(quality: int, scale: Option<real>): (r: int)
    ensures 0 <= r <= MaxSamples
    ensures scale.None? ==> r == BaseSamples(quality)
    ensures scale == Some(1.0) ==> r == BaseSamples(quality)
    ensures scale.Some? ==> r == ScaledSamples(BaseSamples(quality), scale.value)
  {
    var base := BaseSamples(quality);
    match scale
    case None => base
    case Some(s) => ScaledSamples(base, s)
  }

  /** Worked values: quality 2 at scale 1 takes 64 samples; quality 3 at
      scale 5 is capped at 256; quality 0 at scale 0.99 takes 15, not the
      16 that rounding would give. */
  lemma SampleCountExamples()
    ensures SampleCount(2, Some(1.0)) == 64
    ensures SampleCount(3, Some(5.0)) == 256
    ensures SampleCount(0, Some(0.99)) == 15
    ensures SampleCount(7, None) == 128
  {
  }
}
