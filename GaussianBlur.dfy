// The separable Gaussian blur the shadow mappers use on their depth maps: one
// centre tap and symmetric pairs of taps on either side, with weights taken from
// the Gaussian curve and normalised to sum to one, and texture offsets that step
// two texels at a time starting one and a half texels out.

module Blurs {
  import opened Geometry
  import opened Outcomes

  /** The blur amount of the Gaussian curve. */
  const Theta: real := 4.0
  const Pi: real := 3.141592653589793

  /** What the model asks of the library's square root and exponential. */
  ghost predicate ExpAndSqrtPositive(lib: Library) {
    lib.sqrt(2.0 * Pi * Theta) > 0.0 && forall x :: lib.exp(x) > 0.0
  }

  /** One point on the Gaussian falloff curve, 1 / sqrt(2 pi theta) * exp(-n^2 / (2 theta^2)). */
  function ComputeGaussian(lib: Library, n: real): (g: real)
    requires lib.sqrt(2.0 * Pi * Theta) != 0.0
    ensures ExpAndSqrtPositive(lib) ==> g > 0.0
  {
    var s := lib.sqrt(2.0 * Pi * Theta);
    var e := lib.exp(-(n * n) / (2.0 * Theta * Theta));
    assert ExpAndSqrtPositive(lib) ==> 1.0 / s > 0.0 && e > 0.0;
    (1.0 / s) * e
  }

  /** A curve that is positive everywhere. */
  ghost predicate CurvePositive(curve: real -> real) {
    forall n :: curve(n) > 0.0
  }

  /** The Gaussian curve is positive wherever the library's exponential and square root are. */
  lemma GaussianPositive(lib: Library)
    requires ExpAndSqrtPositive(lib)
    ensures CurvePositive(n => ComputeGaussian(lib, n))
  {
  }

  /** The unnormalised weight of tap k: the centre tap is 0 out, taps 2i+1 and 2i+2 are both i+1 out. */
  function TapWeight(curve: real -> real, k: nat): real {
    curve(((k + 1) / 2) as real)
  }

  /**
   * The step of pair i: (dx, dy, 1, 1) scaled by its distance in texels, 2i + 1.5,
   * over the downsize factor.
   */
  function PairDelta(dx: real, dy: real, stepDownsizeFactor: real, i: nat): Vec4
    requires stepDownsizeFactor != 0.0
  {
    Scale4(Vec4(dx, dy, 1.0, 1.0), ((i * 2) as real + 1.5) / stepDownsizeFactor)
  }

  /** The texture offset of tap k: zero at the centre, then +delta and -delta for each pair. */
  function TapOffset(dx: real, dy: real, stepDownsizeFactor: real, k: nat): Vec4
    requires stepDownsizeFactor != 0.0
  {
    if k == 0 then Vec4(0.0, 0.0, 0.0, 0.0)
    else
      var delta := PairDelta(dx, dy, stepDownsizeFactor, (k - 1) / 2);
      if k % 2 == 1 then delta else Neg4(delta)
  }

  /** The first n unnormalised weights, tap by tap. */
  function TapWeights(curve: real -> real, n: nat): (w: seq<real>)
    ensures |w| == n
  {
    if n == 0 then [] else TapWeights(curve, n - 1) + [TapWeight(curve, n - 1)]
  }

  /** The first n texture offsets, tap by tap, for a pass stepping by (dx, dy). */
  function TapOffsets(dx: real, dy: real, stepDownsizeFactor: real, n: nat): (o: seq<Vec4>)
    requires stepDownsizeFactor != 0.0
    ensures |o| == n
  {
    if n == 0 then [] else TapOffsets(dx, dy, stepDownsizeFactor, n - 1) + [TapOffset(dx, dy, stepDownsizeFactor, n - 1)]
  }

  /** The sum of the first n unnormalised weights. */
  function TotalWeight(curve: real -> real, n: nat): (t: real)
    ensures CurvePositive(curve) && n > 0 ==> t > 0.0
  {
    if n == 0 then 0.0 else TotalWeight(curve, n - 1) + TapWeight(curve, n - 1)
  }

  /** The n weights after normalisation. */
  function NormalizedWeights(curve: real -> real, n: nat): (w: seq<real>)
    requires CurvePositive(curve) && n > 0
    ensures |w| == n
  {
    seq(n, k requires 0 <= k < n => TapWeight(curve, k) / TotalWeight(curve, n))
  }

  function Sum(s: seq<real>): real {
    if |s| == 0 then 0.0 else Sum(s[..|s| - 1]) + s[|s| - 1]
  }

  /** Summing the first m normalised weights gives the first m raw weights over the total. */
  lemma {:induction false} NormalizedPrefixSum(curve: real -> real, n: nat, m: nat)
    requires CurvePositive(curve) && 0 < n && m <= n
    ensures Sum(NormalizedWeights(curve, n)[..m]) == TotalWeight(curve, m) / TotalWeight(curve, n)
  {
    var w := NormalizedWeights(curve, n);
    var t := TotalWeight(curve, n);
    if m == 0 {
      assert w[..0] == [];
      assert 0.0 / t == 0.0;
    } else {
      NormalizedPrefixSum(curve, n, m - 1);
      assert w[..m][..m - 1] == w[..m - 1];
      assert Sum(w[..m]) == Sum(w[..m - 1]) + w[m - 1];
      DivisionAdds(TotalWeight(curve, m - 1), TapWeight(curve, m - 1), t);
    }
  }

  lemma DivisionAdds(a: real, b: real, t: real)
    requires t != 0.0
    ensures a / t + b / t == (a + b) / t
  {
  }

  /** After normalisation the weights sum to one. */
  lemma NormalizedWeightsSumToOne(curve: real -> real, n: nat)
    requires CurvePositive(curve) && 0 < n
    ensures Sum(NormalizedWeights(curve, n)) == 1.0
  {
    var w := NormalizedWeights(curve, n);
    NormalizedPrefixSum(curve, n, n);
    assert w[..n] == w;
    var t := TotalWeight(curve, n);
    assert t / t == 1.0;
  }

  /**
   * Normalisation keeps the weights' ratios: any two normalised weights stand to
   * each other as the curve's values do.
   */
  lemma NormalizedWeightsKeepRatios(curve: real -> real, n: nat, a: nat, b: nat)
    requires CurvePositive(curve) && a < n && b < n
    ensures NormalizedWeights(curve, n)[a] * TapWeight(curve, b) == NormalizedWeights(curve, n)[b] * TapWeight(curve, a)
  {
    var w := NormalizedWeights(curve, n);
    var t := TotalWeight(curve, n);
    assert w[a] == TapWeight(curve, a) / t && w[b] == TapWeight(curve, b) / t;
    QuotientsCrossMultiply(TapWeight(curve, a), TapWeight(curve, b), t);
  }

  lemma QuotientsCrossMultiply(x: real, y: real, t: real)
    requires t != 0.0
    ensures (x / t) * y == (y / t) * x
  {
    var p := x / t;
    var q := y / t;
    assert p * t == x && q * t == y;
    assert (p * y) * t == x * y == (q * x) * t;
  }

  /** The two taps of each pair share a weight and lie at opposite offsets; the centre tap is at zero. */
  lemma TapPairsSymmetric(curve: real -> real, dx: real, dy: real, stepDownsizeFactor: real, i: nat)
    requires stepDownsizeFactor != 0.0
    ensures TapWeight(curve, 2 * i + 1) == TapWeight(curve, 2 * i + 2) == curve((i + 1) as real)
    ensures TapOffset(dx, dy, stepDownsizeFactor, 2 * i + 2) == Neg4(TapOffset(dx, dy, stepDownsizeFactor, 2 * i + 1))
    ensures TapWeight(curve, 0) == curve(0.0)
    ensures TapOffset(dx, dy, stepDownsizeFactor, 0) == Vec4(0.0, 0.0, 0.0, 0.0)
  {
    assert (2 * i + 1 + 1) / 2 == i + 1 && (2 * i + 2 + 1) / 2 == i + 1;
    assert (2 * i + 1 - 1) / 2 == i && (2 * i + 2 - 1) / 2 == i;
  }

  /** The offsets of pair i are its delta and the delta negated. */
  lemma PairOffsets(dx: real, dy: real, stepDownsizeFactor: real, i: nat)
    requires stepDownsizeFactor != 0.0
    ensures TapOffset(dx, dy, stepDownsizeFactor, 2 * i + 1) == PairDelta(dx, dy, stepDownsizeFactor, i)
    ensures TapOffset(dx, dy, stepDownsizeFactor, 2 * i + 2) == Neg4(PairDelta(dx, dy, stepDownsizeFactor, i))
  {
    assert (2 * i + 1 - 1) / 2 == i && (2 * i + 2 - 1) / 2 == i;
  }

  /** Tap k of the first n weights is the weight of tap k. */
  lemma {:induction false} TapWeightsAt(curve: real -> real, n: nat, k: nat)
    requires k < n
    ensures TapWeights(curve, n)[k] == TapWeight(curve, k)
  {
    if k < n - 1 {
      TapWeightsAt(curve, n - 1, k);
    }
  }

  /** One step of the pair loop: taps 2i+1 and 2i+2 and what they add to the total. */
  lemma PairStep(curve: real -> real, dx: real, dy: real, stepDownsizeFactor: real, i: nat)
    requires stepDownsizeFactor != 0.0
    ensures TotalWeight(curve, 2 * i + 3) == TotalWeight(curve, 2 * i + 1) + curve((i + 1) as real) * 2.0
    ensures TapWeights(curve, 2 * i + 3) == TapWeights(curve, 2 * i + 1) + [curve((i + 1) as real), curve((i + 1) as real)]
    ensures TapOffsets(dx, dy, stepDownsizeFactor, 2 * i + 3) == TapOffsets(dx, dy, stepDownsizeFactor, 2 * i + 1) +
      [PairDelta(dx, dy, stepDownsizeFactor, i), Neg4(PairDelta(dx, dy, stepDownsizeFactor, i))]
  {
    var g := curve((i + 1) as real);
    assert TapWeight(curve, 2 * i + 1) == g && TapWeight(curve, 2 * i + 2) == g by {
      assert (2 * i + 1 + 1) / 2 == i + 1 && (2 * i + 2 + 1) / 2 == i + 1;
    }
    assert TotalWeight(curve, 2 * i + 3) == TotalWeight(curve, 2 * i + 2) + g;
    assert TotalWeight(curve, 2 * i + 2) == TotalWeight(curve, 2 * i + 1) + g;
    assert TapWeights(curve, 2 * i + 3) == TapWeights(curve, 2 * i + 2) + [g];
    assert TapWeights(curve, 2 * i + 2) == TapWeights(curve, 2 * i + 1) + [g];
    var d := PairDelta(dx, dy, stepDownsizeFactor, i);
    PairOffsets(dx, dy, stepDownsizeFactor, i);
    assert TapOffsets(dx, dy, stepDownsizeFactor, 2 * i + 3) == TapOffsets(dx, dy, stepDownsizeFactor, 2 * i + 2) + [Neg4(d)];
    assert TapOffsets(dx, dy, stepDownsizeFactor, 2 * i + 2) == TapOffsets(dx, dy, stepDownsizeFactor, 2 * i + 1) + [d];
  }

  /** Where the pair loop over a count of n stops: past the end only for an even count. */
  lemma PairLoopBounds(n: int, i: int)
    requires 0 <= i < n / 2
    ensures 2 * i + 2 <= n
    ensures 2 * i + 2 == n ==> n % 2 == 0
    ensures 2 * i + 2 < n ==> 2 * (i + 1) + 1 <= n
  {
  }

  /** After the pair loop over an odd count, every tap has been written. */
  lemma PairLoopEnds(n: int, i: int)
    requires 0 <= i && i == n / 2 && 2 * i + 1 <= n
    ensures n % 2 == 1 && 2 * i + 1 == n
  {
  }

  /** The factor the tap offsets are divided by: the step, unless it is below 0.0001. */
  function DownsizeFactor(step: real): (f: real)
    ensures f >= 0.0001
    ensures step >= 0.0001 ==> f == step
    ensures step < 0.0001 ==> f == 1.0
  {
    if step < 0.0001 then 1.0 else step
  }

  class GaussianBlur {
    const sampleCount: int
    const sampleOffsetsH: array<Vec4>
    const sampleOffsetsV: array<Vec4>
    const sampleWeightsH: array<real>
    const sampleWeightsV: array<real>
    const stepDownsizeFactor: real
    /** ComputeGaussian over the library the blur was built with. */
    const gaussian: real -> real

    /**
     * Sizes the four tables to the effect's sample count and fills the
     * horizontal pass stepping by one texel of a (dx - sampleCount)-wide image
     * and the vertical pass likewise for dy. The effect's sample count must be
     * odd, as the class comment demands.
     */
    constructor (lib: Library, dx: int, dy: int, step: real, effectSampleCount: nat)
      requires effectSampleCount % 2 == 1
      requires dx != effectSampleCount && dy != effectSampleCount
      requires ExpAndSqrtPositive(lib)
      ensures fresh(sampleOffsetsH) && fresh(sampleOffsetsV) && fresh(sampleWeightsH) && fresh(sampleWeightsV)
      ensures sampleCount == effectSampleCount
      ensures stepDownsizeFactor == DownsizeFactor(step)
      ensures forall n :: gaussian(n) == ComputeGaussian(lib, n)
      ensures CurvePositive(gaussian)
      ensures sampleWeightsH[..] == NormalizedWeights(gaussian, sampleCount)
      ensures sampleWeightsV[..] == NormalizedWeights(gaussian, sampleCount)
      ensures sampleOffsetsH[..] == TapOffsets(1.0 / (dx - sampleCount) as real, 0.0, stepDownsizeFactor, sampleCount)
      ensures sampleOffsetsV[..] == TapOffsets(0.0, 1.0 / (dy - sampleCount) as real, stepDownsizeFactor, sampleCount)
    {
      stepDownsizeFactor := DownsizeFactor(step);
      sampleCount := effectSampleCount;
      gaussian := n => ComputeGaussian(lib, n);
      sampleOffsetsH := new Vec4[effectSampleCount];
      sampleOffsetsV := new Vec4[effectSampleCount];
      sampleWeightsH := new real[effectSampleCount];
      sampleWeightsV := new real[effectSampleCount];
      new;
      GaussianPositive(lib);
      var width := dx - sampleCount;
      var height := dy - sampleCount;
      var h := SetBlurEffectParameters(1.0 / width as real, 0.0, sampleOffsetsH, sampleWeightsH);
      var v := SetBlurEffectParameters(0.0, 1.0 / height as real, sampleOffsetsV, sampleWeightsV);
    }

    /**
     * Fills one pass's weights and offsets: the centre tap, then a pair of taps
     * per step out, then divides every weight by their total. The pair loop
     * writes index 2 * (sampleCount / 2), which exists only for an odd count;
     * an even count (zero included) indexes past the end.
     */
    method SetBlurEffectParameters(dx: real, dy: real, offsets: array<Vec4>, weights: array<real>)
      returns (r: Outcome)
      requires offsets.Length == sampleCount && weights.Length == sampleCount
      requires CurvePositive(gaussian) && stepDownsizeFactor > 0.0
      modifies offsets, weights
      ensures r == Failed(IndexOutOfRange) <==> sampleCount % 2 == 0
      ensures r == Done <==> sampleCount % 2 == 1
      ensures r == Done ==> weights[..] == NormalizedWeights(gaussian, sampleCount)
      ensures r == Done ==> offsets[..] == TapOffsets(dx, dy, stepDownsizeFactor, sampleCount)
    {
      var totalWeights;
      r, totalWeights := FillTaps(dx, dy, offsets, weights);
      if r.Failed? {
        return;
      }
      NormalizeWeights(weights, totalWeights);
    }

    /** The centre tap and the pair loop, returning the weights' total. */
    method FillTaps(dx: real, dy: real, offsets: array<Vec4>, weights: array<real>)
      returns (r: Outcome, totalWeights: real)
      requires offsets.Length == sampleCount && weights.Length == sampleCount
      requires stepDownsizeFactor > 0.0
      modifies offsets, weights
      ensures r == Failed(IndexOutOfRange) <==> sampleCount % 2 == 0
      ensures r == Done <==> sampleCount % 2 == 1
      ensures r == Done ==> totalWeights == TotalWeight(gaussian, sampleCount)
      ensures r == Done ==> weights[..] == TapWeights(gaussian, sampleCount)
      ensures r == Done ==> offsets[..] == TapOffsets(dx, dy, stepDownsizeFactor, sampleCount)
    {
      if weights.Length == 0 {
        return Failed(IndexOutOfRange), 0.0;
      }
      weights[0] := gaussian(0.0);
      offsets[0] := Vec4(0.0, 0.0, 0.0, 0.0);
      totalWeights := weights[0];
      var i := 0;
      while i < sampleCount / 2
        invariant 0 <= i <= sampleCount / 2 && 2 * i + 1 <= sampleCount
        invariant totalWeights == TotalWeight(gaussian, 2 * i + 1)
        invariant weights[..2 * i + 1] == TapWeights(gaussian, 2 * i + 1)
        invariant offsets[..2 * i + 1] == TapOffsets(dx, dy, stepDownsizeFactor, 2 * i + 1)
      {
        var weight := gaussian((i + 1) as real);
        PairStep(gaussian, dx, dy, stepDownsizeFactor, i);
        PairLoopBounds(sampleCount, i);
        weights[i * 2 + 1] := weight;
        if i * 2 + 2 >= weights.Length {
          return Failed(IndexOutOfRange), totalWeights;
        }
        totalWeights := totalWeights + weight * 2.0;
        StorePair(dx, dy, offsets, weights, i, weight);
        i := i + 1;
      }
      PairLoopEnds(sampleCount, i);
      assert weights[..] == weights[..2 * i + 1];
      assert offsets[..] == offsets[..2 * i + 1];
      return Done, totalWeights;
    }

    /** Stores pair i's second weight and both of its offsets, +delta and -delta. */
    method StorePair(dx: real, dy: real, offsets: array<Vec4>, weights: array<real>, i: nat, weight: real)
      requires stepDownsizeFactor > 0.0
      requires i * 2 + 2 < offsets.Length && i * 2 + 2 < weights.Length && weights[i * 2 + 1] == weight
      modifies offsets, weights
      ensures weights[..2 * i + 3] == old(weights[..2 * i + 1]) + [weight, weight]
      ensures offsets[..2 * i + 3] == old(offsets[..2 * i + 1]) +
        [PairDelta(dx, dy, stepDownsizeFactor, i), Neg4(PairDelta(dx, dy, stepDownsizeFactor, i))]
    {
      weights[i * 2 + 2] := weight;
      var delta := PairDelta(dx, dy, stepDownsizeFactor, i);
      offsets[i * 2 + 1] := delta;
      offsets[i * 2 + 2] := Neg4(delta);
      assert weights[..2 * i + 3] == old(weights[..2 * i + 1]) + [weight, weight];
    }

    /** The normalising loop: every weight divided by the total. */
    method NormalizeWeights(weights: array<real>, totalWeights: real)
      requires weights.Length == sampleCount && sampleCount > 0
      requires CurvePositive(gaussian) && totalWeights == TotalWeight(gaussian, sampleCount)
      requires weights[..] == TapWeights(gaussian, sampleCount)
      modifies weights
      ensures weights[..] == NormalizedWeights(gaussian, sampleCount)
    {
      forall k | 0 <= k < sampleCount
        ensures weights[k] == TapWeight(gaussian, k)
      {
        TapWeightsAt(gaussian, sampleCount, k);
      }
      var j := 0;
      while j < sampleCount
        invariant 0 <= j <= sampleCount
        invariant forall k :: 0 <= k < j ==> weights[k] == TapWeight(gaussian, k) / totalWeights
        invariant forall k :: j <= k < sampleCount ==> weights[k] == TapWeight(gaussian, k)
      {
        weights[j] := weights[j] / totalWeights;
        j := j + 1;
      }
    }
  }
}
