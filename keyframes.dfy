/** The keyframe parameters that the ripples indicator hands to Core Animation
    when it starts: for each ring a sawtooth of scale samples, their opacity
    complement and evenly spaced key times. Numbers are exact reals. */
module RippleKeyframes {

  /** Core Animation's calculation modes; the indicator asks for Paced. */
  datatype CalculationMode = Linear | Discrete | Paced | Cubic | CubicPaced

  /** The parameters of one keyframe animation as they are recorded on a layer.
      `repeatsForever` stands for a repeat count of infinity. */
  datatype KeyframeAnimation = KeyframeAnimation(
    keyPath: string,
    values: seq<real>,
    keyTimes: seq<real>,
    calculationMode: CalculationMode,
    duration: real,
    repeatsForever: bool,
    autoreverses: bool)

  /** A freshly created keyframe animation for `keyPath`, before any of its
      properties is set: no values, no key times, linear mode, zero duration,
      no repetition, no autoreverse. */
  function NewKeyframeAnimation(keyPath: string): (a: KeyframeAnimation)
    ensures a.keyPath == keyPath && a.values == [] && a.keyTimes == []
    ensures a.calculationMode == Linear && a.duration == 0.0 && !a.repeatsForever && !a.autoreverses
  {
    KeyframeAnimation(keyPath, [], [], Linear, 0.0, false, false)
  }

  /** The smallest scale a ring takes, and the value a sample wraps back to. */
  const MinScale: real := 0.2
  /** The largest scale a ring takes; a sample above it wraps. */
  const MaxScale: real := 1.0
  /** The length of one pass of every ripple animation. */
  const RippleDuration: real := 3.0

  /** The k-th scale sample of ring `ring`: the fifths 1..5 of the unit,
      shifted by the ring index and taken cyclically. */
  function ScaleAt(ring: nat, k: nat): (v: real)
    ensures MinScale <= v <= MaxScale
  {
    0.2 * ((((ring + k) % 5) + 1) as real)
  }

  /** The scale sequence of ring `ring` when there are `count` rings: one
      sample per keyframe, `count + 1` of them. */
  function ScaleValues(ring: nat, count: nat): (s: seq<real>)
  {
    seq(count + 1, k requires 0 <= k => ScaleAt(ring, k))
  }

  /** The key times of `count` rings: `count + 1` evenly spaced fractions. */
  function EvenKeyTimes(count: nat): (t: seq<real>)
    requires count > 0
  {
    seq(count + 1, k requires 0 <= k => (k as real) / (count as real))
  }

  /** The wrap test applied before a sample is appended. */
  function Wrap(v: real): (w: real)
  {
    if v > MaxScale then MinScale else v
  }

  /** The closed form follows the source's step rule: the next sample is the
      previous one plus 0.2, wrapped back to 0.2 once it passes 1.0. */
  lemma ScaleSawtooth(ring: nat, k: nat)
    ensures ScaleAt(ring, k + 1) == Wrap(ScaleAt(ring, k) + 0.2)
  {
  }

  /** Each ring's sawtooth repeats after five samples. */
  lemma ScalePeriodic(ring: nat, k: nat)
    ensures ScaleAt(ring, k + 5) == ScaleAt(ring, k)
  {
  }

  /** Within one five-sample period the value 1.0 is reached exactly once,
      and the sample after it is the wrap value 0.2. */
  lemma ScaleReachesMaxThenWraps(ring: nat, k: nat)
    ensures ScaleAt(ring, k) == MaxScale <==> (ring + k) % 5 == 4
    ensures ScaleAt(ring, k) == MaxScale ==> ScaleAt(ring, k + 1) == MinScale
    ensures ScaleAt(ring, k) < MaxScale ==> ScaleAt(ring, k + 1) == ScaleAt(ring, k) + 0.2
  {
    ScaleSawtooth(ring, k);
  }

  /** The inner sample loop of `startAnimating`
      (GLSRipplesActivityIndicator.swift, lines 94-104): starting from the
      running minimum, append `stepCount + 1` samples, wrapping before each
      append and advancing by `animationDiffs` after it. For ring `ring` the
      running minimum is 0.2 * (ring + 1) and the step is 0.2. */
  method ScaleKeyframes(animationMin: real, animationDiffs: real, stepCount: nat, ghost ring: nat)
    returns (values: seq<real>)
    requires ring < 5
    requires animationMin == 0.2 * ((ring + 1) as real)
    requires animationDiffs == 0.2
    ensures |values| == stepCount + 1
    ensures forall k :: 0 <= k < |values| ==> values[k] == ScaleAt(ring, k)
    ensures values == ScaleValues(ring, stepCount)
  {
    values := [];
    var startValue := animationMin;
    var j := 0;
    while j <= stepCount
      invariant 0 <= j <= stepCount + 1
      invariant |values| == j
      invariant forall k :: 0 <= k < j ==> values[k] == ScaleAt(ring, k)
      invariant Wrap(startValue) == ScaleAt(ring, j)
    {
      ScaleSawtooth(ring, j);
      if startValue > 1.0 {
        startValue := 0.2;
      }
      values := values + [startValue];
      startValue := startValue + animationDiffs;
      j := j + 1;
    }
  }

  /** Element-wise complement, the opacity `map` of `startAnimating`
      (GLSRipplesActivityIndicator.swift, lines 108-111). */
  function Complement(values: seq<real>): (r: seq<real>)
    ensures |r| == |values|
    ensures forall k :: 0 <= k < |values| ==> r[k] == 1.0 - values[k]
  {
    if values == [] then [] else [1.0 - values[0]] + Complement(values[1..])
  }

  /** Taking the complement twice gives back the scale values. */
  lemma ComplementInvolutive(values: seq<real>)
    ensures Complement(Complement(values)) == values
  {
  }

  /** Scale samples and their opacities lie in [0.2, 1.0] and [0, 0.8], and
      each pair sums to 1: the largest ring is the most transparent. */
  lemma OpacityBounds(ring: nat, count: nat)
    ensures |Complement(ScaleValues(ring, count))| == |ScaleValues(ring, count)| == count + 1
    ensures forall k :: 0 <= k <= count ==>
      MinScale <= ScaleValues(ring, count)[k] <= MaxScale &&
      0.0 <= Complement(ScaleValues(ring, count))[k] <= 0.8 &&
      ScaleValues(ring, count)[k] + Complement(ScaleValues(ring, count))[k] == 1.0
  {
  }

  /** Ring `ring` (of fewer than five) starts at 0.2 * (ring + 1). */
  lemma ScaleValuesStart(ring: nat, count: nat)
    requires ring < 5
    ensures ScaleValues(ring, count)[0] == 0.2 * ((ring + 1) as real)
  {
  }

  /** The key-time loop of `startAnimating` (GLSRipplesActivityIndicator.swift,
      lines 112-118): `stepCount + 1` points, starting at
      0 and advancing by `animationKeyframeDiffs` = 1 / stepCount. */
  method KeyTimes(animationKeyframeDiffs: real, stepCount: nat) returns (keyFrames: seq<real>)
    requires stepCount > 0
    requires animationKeyframeDiffs == 1.0 / (stepCount as real)
    ensures |keyFrames| == stepCount + 1
    ensures forall k :: 0 <= k < |keyFrames| ==> keyFrames[k] == (k as real) / (stepCount as real)
    ensures keyFrames == EvenKeyTimes(stepCount)
  {
    var n := stepCount as real;
    var animationStart := 0.0;
    keyFrames := [];
    var j := 0;
    while j <= stepCount
      invariant 0 <= j <= stepCount + 1
      invariant |keyFrames| == j
      invariant forall k :: 0 <= k < j ==> keyFrames[k] == (k as real) / n
      invariant animationStart == (j as real) / n
    {
      keyFrames := keyFrames + [animationStart];
      animationStart := animationStart + animationKeyframeDiffs;
      j := j + 1;
    }
  }

  /** One step of the key-time loop: j/n + 1/n == (j+1)/n. */
  lemma DivisionStep(j: nat, n: real)
    requires n > 0.0
    ensures (j as real) / n + 1.0 / n == ((j + 1) as real) / n
  {
  }

  /** The key times run from 0 to 1 in strictly increasing steps of 1 / count. */
  lemma EvenKeyTimesShape(count: nat)
    requires count > 0
    ensures |EvenKeyTimes(count)| == count + 1
    ensures EvenKeyTimes(count)[0] == 0.0 && EvenKeyTimes(count)[count] == 1.0
    ensures forall k :: 0 <= k < count ==>
      EvenKeyTimes(count)[k + 1] == EvenKeyTimes(count)[k] + 1.0 / (count as real)
    ensures forall j, k :: 0 <= j < k <= count ==> EvenKeyTimes(count)[j] < EvenKeyTimes(count)[k]
  {
    var t := EvenKeyTimes(count);
    var n := count as real;
    forall k | 0 <= k < count
      ensures t[k + 1] == t[k] + 1.0 / n
    {
      DivisionStep(k, n);
    }
    forall j, k | 0 <= j < k <= count
      ensures t[j] < t[k]
    {
      DivisionMonotone(j, k, n);
    }
  }

  /** Dividing by a positive number keeps the order of naturals. */
  lemma DivisionMonotone(j: nat, k: nat, n: real)
    requires j < k && n > 0.0
    ensures (j as real) / n < (k as real) / n
  {
  }

  /** Four rings give the key times 0, 0.25, 0.5, 0.75, 1.0. */
  lemma FourRingKeyTimes()
    ensures EvenKeyTimes(4) == [0.0, 0.25, 0.5, 0.75, 1.0]
  {
  }

  /** The scale sequences of the four rings, written out. */
  lemma FourRingScaleValues()
    ensures ScaleValues(0, 4) == [0.2, 0.4, 0.6, 0.8, 1.0]
    ensures ScaleValues(1, 4) == [0.4, 0.6, 0.8, 1.0, 0.2]
    ensures ScaleValues(2, 4) == [0.6, 0.8, 1.0, 0.2, 0.4]
    ensures ScaleValues(3, 4) == [0.8, 1.0, 0.2, 0.4, 0.6]
  {
  }
}
