// Shadow mappers: the depth-map detail level that IncreaseDetail and DecreaseDetail step
// up and down, with the depth targets and the blur rebuilt at every step.

module ShadowMapping {
  import opened Geometry
  import opened Outcomes
  import opened Rendering
  import opened Blurs

  /** Largest side IncreaseDetail doubles up to. */
  const MaxTextureSize := 4096
  /** Smallest side DecreaseDetail halves down to. */
  const MinTextureSize := 128

  /** The side after IncreaseDetail: doubled below 4096, kept otherwise. */
  function IncreasedSize(textureSize: int): int
  {
    if textureSize < MaxTextureSize then textureSize * 2 else textureSize
  }

  /** The side after DecreaseDetail: halved above 128, kept otherwise. */
  function DecreasedSize(textureSize: int): int
  {
    if textureSize > MinTextureSize then textureSize / 2 else textureSize
  }

  predicate IsPowerOfTwo(n: int)
    decreases if n > 0 then n else 0
  {
    n == 1 || (n > 1 && n % 2 == 0 && IsPowerOfTwo(n / 2))
  }

  /** The detail levels the mappers move between: powers of two from 128 to 4096. */
  predicate DetailLevel(n: int)
  {
    IsPowerOfTwo(n) && MinTextureSize <= n <= MaxTextureSize
  }

  /** Both steps keep a detail level a detail level; the constructors start at 1024. */
  lemma DetailStepsKeepLevel(n: int)
    requires DetailLevel(n)
    ensures DetailLevel(IncreasedSize(n)) && DetailLevel(DecreasedSize(n))
    ensures IncreasedSize(n) >= n && DecreasedSize(n) <= n
  {
    assert (2 * n) / 2 == n;
    assert IsPowerOfTwo(2 * n);
    if n < MaxTextureSize {
      InitialSizeIsDetailLevel();
      PowersOfTwoAreApart(n, MaxTextureSize);
    }
    if n > MinTextureSize {
      assert IsPowerOfTwo(n / 2);
      InitialSizeIsDetailLevel();
      PowersOfTwoAreApart(MinTextureSize, n);
    }
  }

  /** Between two powers of two there is at least a factor of two. */
  lemma {:induction false} PowersOfTwoAreApart(a: int, b: int)
    requires IsPowerOfTwo(a) && IsPowerOfTwo(b) && a < b
    ensures 2 * a <= b
    decreases b
  {
    if a > 1 {
      assert a % 2 == 0 && b % 2 == 0 && IsPowerOfTwo(a / 2) && IsPowerOfTwo(b / 2);
      assert a / 2 < b / 2;
      PowersOfTwoAreApart(a / 2, b / 2);
    }
  }

  lemma InitialSizeIsDetailLevel()
    ensures DetailLevel(InitialShadowTextureSize)
    ensures IsPowerOfTwo(MinTextureSize) && IsPowerOfTwo(MaxTextureSize)
  {
    assert IsPowerOfTwo(1) && IsPowerOfTwo(2) && IsPowerOfTwo(4) && IsPowerOfTwo(8);
    assert IsPowerOfTwo(16) && IsPowerOfTwo(32) && IsPowerOfTwo(64) && IsPowerOfTwo(128);
    assert IsPowerOfTwo(256) && IsPowerOfTwo(512) && IsPowerOfTwo(1024) && IsPowerOfTwo(2048);
  }

  /** Decreasing after increasing gives back the original size exactly for sizes strictly
      between 64 and 4096, and for 0; any other size is left doubled, halved or (for a
      negative size) doubled for good. */
  lemma DecreaseUndoesIncrease(n: int)
    ensures DecreasedSize(IncreasedSize(n)) == n <==> (64 < n < MaxTextureSize || n == 0)
  {
    if 64 < n < MaxTextureSize {
      assert IncreasedSize(n) == 2 * n > MinTextureSize;
      assert (2 * n) / 2 == n;
    }
  }

  /** Increasing after decreasing gives back the original size exactly for even sizes
      strictly between 128 and 8192, and for 0: at most 128 the size is kept and then
      doubled, an odd size loses its low bit when halved. */
  lemma IncreaseUndoesDecrease(n: int)
    ensures IncreasedSize(DecreasedSize(n)) == n <==> (MinTextureSize < n < 2 * MaxTextureSize && n % 2 == 0) || n == 0
  {
    if MinTextureSize < n < 2 * MaxTextureSize && n % 2 == 0 {
      assert DecreasedSize(n) == n / 2 < MaxTextureSize;
      assert (n / 2) * 2 == n;
    } else if MinTextureSize < n {
      if n % 2 == 1 {
        assert DecreasedSize(n) == n / 2;
        assert (n / 2) * 2 == n - 1;
      }
    }
  }

  /** A depth map as ShadowMapper.IncreaseDetail and DecreaseDetail allocate it: square,
      mip-mapped, two 32-bit channels, a 24-bit depth buffer, not added to the profile. */
  ghost predicate DepthMapOfSize(t: RenderTarget, size: int)
    reads t
  {
    t.width == size && t.height == size && t.mipMap && t.surfaceFormat == Rg32
    && t.depthFormat == Depth24 && t.usage == DiscardContents && !t.disposed
  }

  /** The blur IncreaseDetail and DecreaseDetail build for a size: one texel of a
      (size - sampleCount)-wide map in each direction, unit step. */
  ghost predicate BlurForSize(blur: GaussianBlur, lib: Library, size: int, sampleCount: nat)
    reads blur, blur.sampleOffsetsH, blur.sampleOffsetsV, blur.sampleWeightsH, blur.sampleWeightsV
  {
    sampleCount % 2 == 1 && size != sampleCount && ExpAndSqrtPositive(lib)
    && blur.sampleCount == sampleCount && blur.stepDownsizeFactor == 1.0
    && (forall n :: blur.gaussian(n) == ComputeGaussian(lib, n))
    && CurvePositive(blur.gaussian)
    && blur.sampleWeightsH[..] == NormalizedWeights(blur.gaussian, sampleCount)
    && blur.sampleWeightsV[..] == NormalizedWeights(blur.gaussian, sampleCount)
    && blur.sampleOffsetsH[..] == TapOffsets(1.0 / (size - sampleCount) as real, 0.0, 1.0, sampleCount)
    && blur.sampleOffsetsV[..] == TapOffsets(0.0, 1.0 / (size - sampleCount) as real, 1.0, sampleCount)
  }

  /** `new GaussianBlur(size, size, 1, blurEffect)` for a blur effect of `sampleCount`
      samples. */
  method NewBlur(lib: Library, size: int, sampleCount: nat) returns (blur: GaussianBlur)
    requires sampleCount % 2 == 1 && size != sampleCount && ExpAndSqrtPositive(lib)
    ensures fresh(blur) && fresh(blur.sampleOffsetsH) && fresh(blur.sampleOffsetsV)
    ensures fresh(blur.sampleWeightsH) && fresh(blur.sampleWeightsV)
    ensures BlurForSize(blur, lib, size, sampleCount)
  {
    blur := new GaussianBlur(lib, size, size, 1.0, sampleCount);
  }

  /** ShadowMapper and its two subclasses. */
  class ShadowMapper {
    /** The BaseRenderer part, as the profile sees the pass. */
    const base: BaseRenderer
    /** The maths library the Gaussian blur evaluates its curve with. */
    const lib: Library
    /** The sample count of the blur effect (its "sampleWeights" parameter's length). */
    const blurSampleCount: nat
    var textureSize: int
    const depthRT: array<RenderTarget>
    /** The blur; PSShadowMapper never builds one until the detail changes. */
    var blur: GaussianBlur?

    ghost predicate Valid()
      reads this
    {
      depthRT.Length >= 2 && blurSampleCount % 2 == 1 && ExpAndSqrtPositive(lib)
      && DetailLevel(textureSize)
    }

    /** ExpShadowMapper: a back-buffer shadow target and two 1024-square depth maps, all
        from the profile; outputs are the shadow target and the first depth map. */
    constructor Exp(profile: RenderProfile, lib: Library, blurSampleCount: nat)
      requires blurSampleCount % 2 == 1 && ExpAndSqrtPositive(lib)
      modifies profile
      ensures Valid() && fresh(base) && fresh(depthRT)
      ensures PassCreated(base, ExpShadow, profile, old(profile.renderTaskTargets))
      ensures textureSize == InitialShadowTextureSize && depthRT.Length == 2
      ensures depthRT[0] == profile.renderTaskTargets[|old(profile.renderTaskTargets)| + 1]
      ensures depthRT[1] == profile.renderTaskTargets[|old(profile.renderTaskTargets)| + 2]
      ensures blur != null && fresh(blur)
      ensures BlurForSize(blur, lib, InitialShadowTextureSize, blurSampleCount)
    {
      var n := |profile.renderTaskTargets|;
      var pass := CreatePass(profile, ExpShadow);
      var ts := profile.renderTaskTargets;
      var b := NewBlur(lib, InitialShadowTextureSize, blurSampleCount);
      base := pass;
      this.lib := lib;
      this.blurSampleCount := blurSampleCount;
      textureSize := InitialShadowTextureSize;
      depthRT := new RenderTarget[2] [ts[n + 1], ts[n + 2]];
      blur := b;
      new;
      InitialSizeIsDetailLevel();
    }

    /** PSShadowMapper: a back-buffer shadow target and four 1024-square depth maps, all
        from the profile; no outputs and no blur. */
    constructor PS(profile: RenderProfile, lib: Library, blurSampleCount: nat)
      requires blurSampleCount % 2 == 1 && ExpAndSqrtPositive(lib)
      modifies profile
      ensures Valid() && fresh(base) && fresh(depthRT)
      ensures PassCreated(base, PSShadow, profile, old(profile.renderTaskTargets))
      ensures textureSize == InitialShadowTextureSize && depthRT.Length == 4
      ensures depthRT[..] == profile.renderTaskTargets[|old(profile.renderTaskTargets)| + 1..]
      ensures blur == null
    {
      var n := |profile.renderTaskTargets|;
      var pass := CreatePass(profile, PSShadow);
      base := pass;
      this.lib := lib;
      this.blurSampleCount := blurSampleCount;
      textureSize := InitialShadowTextureSize;
      var ts := profile.renderTaskTargets;
      depthRT := new RenderTarget[4] [ts[n + 1], ts[n + 2], ts[n + 3], ts[n + 4]];
      blur := null;
      new;
      InitialSizeIsDetailLevel();
      assert depthRT[..] == profile.renderTaskTargets[n + 1..];
    }

    /** IncreaseDetail: double the side (up to 4096), then rebuild. */
    method IncreaseDetail()
      requires Valid()
      modifies this, depthRT, depthRT[0], depthRT[1]
      ensures Valid()
      ensures textureSize == IncreasedSize(old(textureSize))
      ensures old(depthRT[0]).disposed && old(depthRT[1]).disposed
      ensures fresh(depthRT[0]) && fresh(depthRT[1])
      ensures DepthMapOfSize(depthRT[0], textureSize) && DepthMapOfSize(depthRT[1], textureSize)
      ensures depthRT[2..] == old(depthRT[2..])
      ensures blur != null && fresh(blur) && BlurForSize(blur, lib, textureSize, blurSampleCount)
    {
      DetailStepsKeepLevel(textureSize);
      textureSize := if textureSize < MaxTextureSize then textureSize * 2 else textureSize;
      Rebuild();
    }

    /** DecreaseDetail: halve the side (down to 128), then rebuild. */
    method DecreaseDetail()
      requires Valid()
      modifies this, depthRT, depthRT[0], depthRT[1]
      ensures Valid()
      ensures textureSize == DecreasedSize(old(textureSize))
      ensures old(depthRT[0]).disposed && old(depthRT[1]).disposed
      ensures fresh(depthRT[0]) && fresh(depthRT[1])
      ensures DepthMapOfSize(depthRT[0], textureSize) && DepthMapOfSize(depthRT[1], textureSize)
      ensures depthRT[2..] == old(depthRT[2..])
      ensures blur != null && fresh(blur) && BlurForSize(blur, lib, textureSize, blurSampleCount)
    {
      DetailStepsKeepLevel(textureSize);
      textureSize := if textureSize > MinTextureSize then textureSize / 2 else textureSize;
      Rebuild();
    }

    /** The part both detail changes share: dispose the first two depth maps, allocate
        two of the new size in their place and build a new blur for that size. */
    method Rebuild()
      requires Valid()
      modifies this, depthRT, depthRT[0], depthRT[1]
      ensures Valid() && textureSize == old(textureSize)
      ensures old(depthRT[0]).disposed && old(depthRT[1]).disposed
      ensures fresh(depthRT[0]) && fresh(depthRT[1])
      ensures DepthMapOfSize(depthRT[0], textureSize) && DepthMapOfSize(depthRT[1], textureSize)
      ensures depthRT[2..] == old(depthRT[2..])
      ensures blur != null && fresh(blur) && BlurForSize(blur, lib, textureSize, blurSampleCount)
    {
      depthRT[0].Dispose();
      depthRT[1].Dispose();
      var d0 := new RenderTarget(textureSize, textureSize, true, Rg32, Depth24, DiscardContents);
      var d1 := new RenderTarget(textureSize, textureSize, true, Rg32, Depth24, DiscardContents);
      depthRT[0] := d0;
      depthRT[1] := d1;
      // a power of two of at least 128 is even, so it differs from the odd sample count
      assert textureSize % 2 == 0;
      blur := NewBlur(lib, textureSize, blurSampleCount);
    }
  }
}
