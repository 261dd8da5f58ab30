/** The cubemap's maximum level of detail, sent to the pixel shader with
    the eye position: the number of mip levels of the cubemap, clamped to
    the range the shader handles. */
module EnvLod {
  import opened Util

  /** The number of times `n` can be halved before reaching 0, less one:
      the base-2 logarithm of `n` rounded down, and 0 for `n` = 0. */
  function Log2Floor(n: nat): (r: nat)
    ensures n >= 1 ==> Pow2(r) <= n < Pow2(r + 1)
    ensures n <= 1 <==> r == 0
  {
    if n <= 1 then 0 else 1 + Log2Floor(n / 2)
  }

  /** The bracket `Pow2(r) <= n < Pow2(r + 1)` determines `r`, so
      `Log2Floor` is the logarithm and nothing else. */
  lemma {:induction false} Log2FloorUnique(n: nat, r: nat)
    requires Pow2(r) <= n < Pow2(r + 1)
    ensures Log2Floor(n) == r
  {
    var l := Log2Floor(n);
    if l < r {
      Pow2Monotone(l + 1, r);
    } else if l > r {
      Pow2Monotone(r + 1, l);
    }
  }

  lemma {:induction false} Log2FloorMonotone(a: nat, b: nat)
    requires a <= b
    ensures Log2Floor(a) <= Log2Floor(b)
    decreases b
  {
    if a > 1 {
      Log2FloorMonotone(a / 2, b / 2);
    }
  }

  /** The mip-counting loop of the source: shift the width right until it
      is 0, counting the shifts that left it non-zero. */
  method CountMips(width: nat) returns (mips: nat)
    ensures mips == Log2Floor(width)
  {
    mips := 0;
    var w: nat := width / 2;
    while w != 0
      invariant w == 0 ==> mips == Log2Floor(width)
      invariant w != 0 ==> mips + 1 + Log2Floor(w) == Log2Floor(width)
      decreases w
    {
      mips := mips + 1;
      w := w / 2;
    }
  }

  const DefaultLod: int := 6
  const MinLod: int := 4
  const MaxLod: int := 12

  /** The level of detail for a draw: the mip count of the cubemap when
      there is one (`width` is its mapping width, 0 when the texture object
      is missing), 6 when there is none, clamped to [4, 12]. */
  function EnvMapLod(hasEnvTexture: bool, width: nat): (lod: int)
    ensures MinLod <= lod <= MaxLod
    ensures !hasEnvTexture ==> lod == DefaultLod
  {
    var mips := if hasEnvTexture then Log2Floor(width) else DefaultLod;
    Clamp(mips, MinLod, MaxLod)
  }

  /** The source computes the level with the loop; it agrees with
      `EnvMapLod`. */
  method ComputeEnvMapLod(hasEnvTexture: bool, width: nat) returns (lod: int)
    ensures lod == EnvMapLod(hasEnvTexture, width)
  {
    lod := DefaultLod;
    if hasEnvTexture {
      lod := CountMips(width);
    }
    if lod > MaxLod {
      lod := MaxLod;
    }
    if lod < MinLod {
      lod := MinLod;
    }
  }

  /** A wider cubemap never gets a lower level of detail. */
  lemma EnvMapLodMonotone(w1: nat, w2: nat)
    requires w1 <= w2
    ensures EnvMapLod(true, w1) <= EnvMapLod(true, w2)
  {
    Log2FloorMonotone(w1, w2);
  }

  /** Between the bounds the level is exactly the logarithm of the width:
      a cubemap of width 2^k with 4 <= k <= 12 gets level k. */
  lemma EnvMapLodOfPow2(k: nat)
    requires MinLod <= k <= MaxLod
    ensures EnvMapLod(true, Pow2(k)) == k
  {
    Log2FloorUnique(Pow2(k), k);
  }

  /** Cubemaps of width 4096 and above get level 12. */
  lemma EnvMapLodSaturatesHigh(width: nat)
    requires width >= 4096
    ensures EnvMapLod(true, width) == MaxLod
  {
    assert Pow2(12) == 4096 by {
      assert Pow2(4) == 16;
      assert Pow2(8) == 256;
    }
    Log2FloorMonotone(4096, width);
    Log2FloorUnique(4096, 12);
  }

  /** Cubemaps narrower than 32, including a missing texture (width 0),
      get level 4. */
  lemma EnvMapLodSaturatesLow(width: nat)
    requires width < 32
    ensures EnvMapLod(true, width) == MinLod
  {
    assert Pow2(5) == 32;
    if width >= 1 && Log2Floor(width) >= 5 {
      Pow2Monotone(5, Log2Floor(width));
    }
  }
}
