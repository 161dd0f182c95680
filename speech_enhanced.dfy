// The enhanced speech emotion detector: its rolling audio buffer, energy
// calibration, voice-activity step and silence reset; the pieces of feature
// extraction that are not signal processing (pre-emphasis, zero-crossing
// rate, pitch-lag choice, prosody framing, speaking rate); the additive rule
// classifier over averaged features, and majority-vote smoothing.

module SpeechEnhanced {

  import opened Common

  /** The labels the classifier produces, in the insertion order of its score dictionary. */
  datatype Emotion = Angry | Happy | Sad | Fear | Neutral

  const EmotionOrder: seq<Emotion> := [Angry, Happy, Sad, Fear, Neutral]

  /** Position of a label in the score dictionary. */
  function Index(e: Emotion): (k: nat)
    ensures k < |EmotionOrder| && EmotionOrder[k] == e
  {
    match e
    case Angry => 0
    case Happy => 1
    case Sad => 2
    case Fear => 3
    case Neutral => 4
  }

  // ---------------------------------------------------------------------------
  // Feature extraction: the parts that are not spectral analysis
  // ---------------------------------------------------------------------------

  const PreEmphasisCoefficient: real := 0.97

  /** The pre-emphasis filter y[0] = x[0], y[i] = x[i] - 0.97 x[i-1]. */
  function PreEmphasis(x: seq<real>): (y: seq<real>)
    requires |x| > 0
    ensures |y| == |x| && y[0] == x[0]
    ensures forall i :: 1 <= i < |x| ==> y[i] == x[i] - PreEmphasisCoefficient * x[i - 1]
  {
    seq(|x|, i requires 0 <= i < |x| => if i == 0 then x[0] else x[i] - PreEmphasisCoefficient * x[i - 1])
  }

  /** The inverse filter: x[0] = y[0], x[i] = y[i] + 0.97 x[i-1]. */
  function DeEmphasis(y: seq<real>): (x: seq<real>)
    ensures |x| == |y|
  {
    if |y| == 0 then []
    else if |y| == 1 then [y[0]]
    else
      var p := DeEmphasis(y[..|y| - 1]);
      p + [y[|y| - 1] + PreEmphasisCoefficient * p[|p| - 1]]
  }

  /** Pre-emphasis loses nothing: the inverse filter recovers the chunk. */
  lemma {:induction false} DeEmphasisInvertsPreEmphasis(x: seq<real>)
    requires |x| > 0
    ensures DeEmphasis(PreEmphasis(x)) == x
  {
    var n := |x|;
    if n > 1 {
      var x' := x[..n - 1];
      PreEmphasisPrefix(x);
      DeEmphasisInvertsPreEmphasis(x');
      var y := PreEmphasis(x);
      assert DeEmphasis(y) == DeEmphasis(y[..n - 1]) + [y[n - 1] + PreEmphasisCoefficient * x'[n - 2]];
      assert x == x' + [x[n - 1]];
    }
  }

  lemma PreEmphasisPrefix(x: seq<real>)
    requires |x| > 1
    ensures PreEmphasis(x)[..|x| - 1] == PreEmphasis(x[..|x| - 1])
  {
    var x' := x[..|x| - 1];
    assert forall i :: 0 <= i < |x'| ==> PreEmphasis(x)[..|x| - 1][i] == PreEmphasis(x')[i];
  }

  function AbsInt(n: int): nat
  {
    if n < 0 then -n else n
  }

  /** sum(|diff(sign(x))|): every change of sign counts 2, a step to or from 0 counts 1. */
  function SignChanges(x: seq<real>): (n: nat)
    ensures |x| > 0 ==> n <= 2 * (|x| - 1)
  {
    if |x| < 2 then 0
    else SignChanges(x[..|x| - 1]) + AbsInt(Sign(x[|x| - 1]) - Sign(x[|x| - 2]))
  }

  lemma FractionBelowOne(x: real, t: real)
    requires t > 0.0 && 0.0 <= x < t
    ensures 0.0 <= x / t < 1.0
  {
    var q := x / t;
    assert q * t == x;
    NonnegFactor(q, t);
    if q >= 1.0 {
      MulMono(1.0, q, t);
    }
  }

  /** The zero-crossing rate of a non-empty chunk. */
  function ZeroCrossingRate(x: seq<real>): (z: real)
    requires |x| > 0
    ensures 0.0 <= z < 1.0
  {
    var n := SignChanges(x);
    FractionBelowOne(n as real, (2 * |x|) as real);
    n as real / (2 * |x|) as real
  }

  /** A chunk that never changes sign has a zero-crossing rate of 0. */
  lemma {:induction false} NoSignChangeNoCrossing(x: seq<real>)
    requires forall i :: 0 <= i < |x| ==> x[i] > 0.0
    ensures SignChanges(x) == 0
  {
    if |x| >= 2 {
      NoSignChangeNoCrossing(x[..|x| - 1]);
    }
  }

  /**
    * The lag the pitch estimate picks: over the lags sampleRate / 500 up to
    * (not including) sampleRate / 50 that the autocorrelation covers, the
    * first one with the largest autocorrelation; None when that window is
    * empty. `autocorr` is indexed by lag.
    */
  function PitchLag(autocorr: seq<real>, sampleRate: nat): (lag: Option<nat>)
    ensures var lo, hi := sampleRate / 500, sampleRate / 50;
            && (lag.Some? <==> lo < |autocorr| && lo < hi)
            && (lag.Some? ==>
                  && lo <= lag.value < hi && lag.value < |autocorr|
                  && (forall j :: lo <= j < |autocorr| && j < hi ==> autocorr[j] <= autocorr[lag.value])
                  && (forall j :: lo <= j < lag.value ==> autocorr[j] < autocorr[lag.value]))
  {
    var lo, hi := sampleRate / 500, sampleRate / 50;
    var top := if hi < |autocorr| then hi else |autocorr|;
    if top <= lo then None
    else
      var window := autocorr[lo..top];
      var k := ArgMax(window);
      assert autocorr[lo + k] == window[k];
      assert forall j :: lo <= j < top ==> autocorr[j] == window[j - lo];
      Some(lo + k)
  }

  /** The pitch estimate in Hz: sampleRate / lag clipped to [50, 500], 120 without a usable lag. */
  function EstimatePitch(autocorr: seq<real>, sampleRate: nat): (hz: real)
    ensures 50.0 <= hz <= 500.0
    ensures PitchLag(autocorr, sampleRate).None? ==> hz == 120.0
    ensures PitchLag(autocorr, sampleRate) == Some(0) ==> hz == 120.0
    ensures var lag := PitchLag(autocorr, sampleRate);
            lag.Some? && lag.value > 0 ==> hz == Clip(sampleRate as real / lag.value as real, 50.0, 500.0)
  {
    var lag := PitchLag(autocorr, sampleRate);
    var pitch := if lag.Some? && lag.value > 0 then sampleRate as real / lag.value as real else 120.0;
    Clip(pitch, 50.0, 500.0)
  }

  /**
    * The autocorrelation of a chunk at lags 0 to |y| - 1, the second half of
    * numpy's full correlation of the chunk with itself.
    */
  function Autocorrelation(y: seq<real>): (r: seq<real>)
    ensures |r| == |y|
    ensures forall k :: 0 <= k < |y| ==> r[k] == Lagged(y, k)
    ensures |y| > 0 ==> r[0] >= 0.0
  {
    LagZeroIsEnergy(y);
    seq(|y|, k requires 0 <= k < |y| => Lagged(y, k))
  }

  /** The sum of y[i] * y[i + k] over every i with i + k inside the chunk. */
  function Lagged(y: seq<real>, k: nat): real
  {
    if |y| <= k then 0.0 else y[0] * y[k] + Lagged(y[1..], k)
  }

  /** At lag 0 the autocorrelation is a sum of squares, hence never negative. */
  lemma {:induction false} LagZeroIsEnergy(y: seq<real>)
    ensures Lagged(y, 0) >= 0.0
  {
    if |y| > 0 {
      LagZeroIsEnergy(y[1..]);
    }
  }

  /**
    * Start offsets of the frames the energy variation is taken over:
    * range(0, n - n // 10, n // 10). The source needs n >= 10, since a
    * step of 0 makes range fail.
    */
  method FrameStarts(n: nat) returns (starts: seq<nat>)
    requires n >= 10
    ensures var size := n / 10;
            && |starts| * size >= n - size
            && (|starts| - 1) * size < n - size
            && forall k :: 0 <= k < |starts| ==> starts[k] == k * size && starts[k] + size < n
  {
    var size := n / 10;
    starts := [];
    var i := 0;
    while i < n - size
      invariant i == |starts| * size
      invariant |starts| > 0 ==> (|starts| - 1) * size < n - size
      invariant forall k :: 0 <= k < |starts| ==> starts[k] == k * size && starts[k] + size < n
      decreases n - size - i
    {
      starts := starts + [i];
      i := i + size;
    }
  }

  /**
    * For chunks of at least 100 samples the energy variation is taken over
    * 9 frames when the length is a multiple of 10 and over 10 frames
    * otherwise; so it is never taken over no frames.
    */
  lemma FrameCount(n: nat, frames: nat)
    requires n >= 100
    requires frames * (n / 10) >= n - n / 10
    requires (frames - 1) * (n / 10) < n - n / 10
    ensures frames == if n % 10 == 0 then 9 else 10
  {
    var size := n / 10;
    var r := n % 10;
    assert n - size == 9 * size + r;
    assert (frames - 9) * size >= r;
    PositiveFactor(frames - 9 + 1, size);
    assert (10 - frames + 1) * size > 10 * size - 9 * size - r;
    PositiveFactor(10 - frames + 1, size);
    if r == 0 {
      assert (9 - frames + 1) * size > 0;
      PositiveFactor(9 - frames + 1, size);
    } else {
      PositiveFactor(frames - 9, size);
    }
  }

  lemma PositiveFactor(a: int, t: int)
    requires t > 0 && a * t > 0
    ensures a > 0
  {
  }

  /** The onsets of the last five seconds, in the order they were recorded. */
  function RecentOnsets(onsets: seq<real>, now: real): (r: seq<real>)
    ensures |r| <= |onsets|
    ensures forall t :: t in r <==> t in onsets && now - t < 5.0
  {
    if |onsets| == 0 then []
    else
      var prefix := RecentOnsets(onsets[..|onsets| - 1], now);
      var t := onsets[|onsets| - 1];
      assert onsets == onsets[..|onsets| - 1] + [t];
      if now - t < 5.0 then prefix + [t] else prefix
  }

  /**
    * Onsets per second over the last five seconds, clipped to [0.5, 10];
    * 3.0 with fewer than two recent onsets or when they span no time.
    */
  function SpeakingRate(onsets: seq<real>, now: real): (rate: real)
    ensures 0.5 <= rate <= 10.0
    ensures |onsets| < 2 || |RecentOnsets(onsets, now)| < 2 ==> rate == 3.0
  {
    if |onsets| < 2 then 3.0
    else
      var recent := RecentOnsets(onsets, now);
      if |recent| < 2 then 3.0
      else
        var duration := recent[|recent| - 1] - recent[0];
        var rate := if duration > 0.0 then |recent| as real / duration else 3.0;
        Clip(rate, 0.5, 10.0)
  }

  // ---------------------------------------------------------------------------
  // The rule classifier
  // ---------------------------------------------------------------------------

  /**
    * The features a chunk contributes. Energy, zero-crossing rate and pitch
    * are computed from the pre-emphasised chunk (ChunkFeatures); the speaking
    * rate is set from the speech onsets when the chunk is heard
    * (HeardSpeech); the cepstral, formant and spectral values and the two
    * variations are outputs of signal processing that this model takes as
    * given.
    */
  datatype Features = Features(
    energy: real,
    zcr: real,
    pitch: real,
    mfcc1: real,
    mfcc2: real,
    f1: real,
    f2: real,
    centroid: real,
    bandwidth: real,
    hfRatio: real,
    pitchVariation: real,
    energyVariation: real,
    speakingRate: real)

  /**
    * The features computed from a chunk itself: the RMS energy, the
    * zero-crossing rate and the pitch estimate of the pre-emphasised chunk.
    */
  ghost predicate ChunkFeatures(chunk: seq<real>, sampleRate: nat, f: Features)
  {
    && |chunk| > 0
    && IsRms(f.energy, PreEmphasis(chunk))
    && f.zcr == ZeroCrossingRate(PreEmphasis(chunk))
    && f.pitch == EstimatePitch(Autocorrelation(PreEmphasis(chunk)), sampleRate)
  }

  function AddFeatures(a: Features, b: Features): Features
  {
    Features(a.energy + b.energy, a.zcr + b.zcr, a.pitch + b.pitch, a.mfcc1 + b.mfcc1, a.mfcc2 + b.mfcc2,
             a.f1 + b.f1, a.f2 + b.f2, a.centroid + b.centroid, a.bandwidth + b.bandwidth,
             a.hfRatio + b.hfRatio, a.pitchVariation + b.pitchVariation,
             a.energyVariation + b.energyVariation, a.speakingRate + b.speakingRate)
  }

  const NoFeatures: Features := Features(0.0, 0.0, 0.0, 0.0, 0.0, 0.0, 0.0, 0.0, 0.0, 0.0, 0.0, 0.0, 0.0)

  /** Field-by-field sums. */
  function SumFeatures(fs: seq<Features>): Features
  {
    if |fs| == 0 then NoFeatures else AddFeatures(SumFeatures(fs[..|fs| - 1]), fs[|fs| - 1])
  }

  function DivideFeatures(a: Features, n: real): Features
    requires n != 0.0
  {
    Features(a.energy / n, a.zcr / n, a.pitch / n, a.mfcc1 / n, a.mfcc2 / n, a.f1 / n, a.f2 / n,
             a.centroid / n, a.bandwidth / n, a.hfRatio / n, a.pitchVariation / n,
             a.energyVariation / n, a.speakingRate / n)
  }

  /** Field-by-field mean of the recent feature sets (numpy.mean per field). */
  function AverageFeatures(fs: seq<Features>): Features
    requires |fs| > 0
  {
    DivideFeatures(SumFeatures(fs), |fs| as real)
  }

  /** A single feature set is its own average. */
  lemma AverageOfOne(f: Features)
    ensures AverageFeatures([f]) == f
  {
    assert [f][..0] == [];
    assert SumFeatures([f]) == AddFeatures(NoFeatures, f) == f;
  }

  function Points(holds: bool, weight: real): real
  {
    if holds then weight else 0.0
  }

  /** Loud, bright, high second formant, unsteady energy. */
  function AngryScore(avg: Features, energyRatio: real): (s: real)
    ensures 0.0 <= s <= 1.0
  {
    Points(energyRatio > 2.5, 0.3) + Points(avg.hfRatio > 0.6, 0.25) + Points(avg.f2 > 1800.0, 0.2)
      + Points(avg.energyVariation > 0.15, 0.15) + Points(avg.mfcc2 > 10.0, 0.1)
  }

  /** Energetic, high and bright, moderately varied pitch, fast. */
  function HappyScore(avg: Features, energyRatio: real): (s: real)
    ensures 0.0 <= s <= 1.0
  {
    Points(energyRatio > 1.8, 0.25) + Points(avg.pitch > 160.0, 0.25) + Points(avg.centroid > 1200.0, 0.2)
      + Points(0.05 < avg.pitchVariation < 0.15, 0.15) + Points(avg.speakingRate > 3.5, 0.15)
  }

  /** Quiet, low, narrow, monotonous, slow. */
  function SadScore(avg: Features, energyRatio: real): (s: real)
    ensures 0.0 <= s <= 1.0
  {
    Points(energyRatio < 2.0, 0.3) + Points(avg.pitch < 150.0, 0.25) + Points(avg.bandwidth < 800.0, 0.2)
      + Points(avg.pitchVariation < 0.05, 0.15) + Points(avg.speakingRate < 2.5, 0.1)
  }

  /** Many zero crossings, unsteady pitch and energy, bright. */
  function FearScore(avg: Features): (s: real)
    ensures 0.0 <= s <= 1.0
  {
    Points(avg.zcr > 0.18, 0.3) + Points(avg.pitchVariation > 0.18, 0.25)
      + Points(avg.energyVariation > 0.20, 0.25) + Points(avg.hfRatio > 0.65, 0.2)
  }

  /** The score dictionary, in its insertion order; neutral has the fixed baseline 0.4. */
  function Scores(avg: Features, threshold: real): (s: seq<real>)
    requires threshold > 0.0
    ensures |s| == |EmotionOrder| && s[Index(Neutral)] == 0.4
    ensures forall k :: 0 <= k < |s| ==> 0.0 <= s[k] <= 1.0
  {
    var ratio := avg.energy / threshold;
    [AngryScore(avg, ratio), HappyScore(avg, ratio), SadScore(avg, ratio), FearScore(avg), 0.4]
  }

  /**
    * The classifier: the first label with the top score wins, its confidence
    * is that score plus 0.3 capped at 0.95, and a top score under 0.5 gives
    * neutral at 0.70. Neutral wins exactly when no other label scores 0.5.
    */
  function Classify(avg: Features, threshold: real): (r: (Emotion, real))
    requires threshold > 0.0
    ensures 0.70 <= r.1 <= 0.95
    ensures var s := Scores(avg, threshold);
            && (r.0 == Neutral <==> forall k :: 0 <= k < Index(Neutral) ==> s[k] < 0.5)
            && (r.0 == Neutral ==> r.1 == 0.70)
            && (r.0 != Neutral ==>
                  && 0.5 <= s[Index(r.0)]
                  && (forall k :: 0 <= k < |s| ==> s[k] <= s[Index(r.0)])
                  && (forall k :: 0 <= k < Index(r.0) ==> s[k] < s[Index(r.0)])
                  && r.1 == Min(s[Index(r.0)] + 0.3, 0.95))
  {
    var s := Scores(avg, threshold);
    var k := ArgMax(s);
    if s[k] < 0.5 then (Neutral, 0.70)
    else
      assert Index(EmotionOrder[k]) == k;
      (EmotionOrder[k], Min(s[k] + 0.3, 0.95))
  }

  // ---------------------------------------------------------------------------
  // Majority-vote smoothing
  // ---------------------------------------------------------------------------

  const HistoryCapacity: nat := 10
  const FeatureCapacity: nat := 15

  /** The share of a window a count stands for; at least 60% exactly when the count is. */
  function Frequency(count: nat, n: nat): (f: real)
    requires n > 0
    ensures f >= 0.6 <==> count as real >= 0.6 * n as real
  {
    ShareAtLeast(count as real, n as real, 0.6);
    count as real / n as real
  }

  lemma ShareAtLeast(count: real, n: real, f: real)
    requires n > 0.0
    ensures count / n >= f <==> count >= f * n
  {
    var q := count / n;
    assert q * n == count;
    if q >= f {
      MulMono(f, q, n);
    } else {
      assert (f - q) * n == f * n - q * n;
      PositiveProduct(f - q, n);
    }
  }

  /**
    * The smoothed result, given the label and confidence histories after the
    * new classification was appended: with fewer than three labels it passes
    * through; otherwise the most frequent of the last five labels boosts a
    * matching label held at least 60% of the time to min(1.15 c, 0.95), or
    * replaces a different label whose confidence is under 0.65, with the mean
    * of the last three confidences.
    */
  function Smoothed(emotions: seq<Emotion>, confidences: seq<real>, emotion: Emotion, confidence: real): (r: (Emotion, real))
    requires |emotions| <= |confidences|
    ensures |emotions| < 3 ==> r == (emotion, confidence)
  {
    if |emotions| < 3 then (emotion, confidence)
    else
      var recent := Last(emotions, 5);
      var most := Mode(recent);
      if most == emotion && Frequency(Count(recent, most), |recent|) >= 0.6 then (emotion, Min(confidence * 1.15, 0.95))
      else if most != emotion && confidence < 0.65 then (most, Mean(Last(confidences, 3)))
      else (emotion, confidence)
  }

  /**
    * Conversely, with three or more labels a label that is the most frequent
    * of the last five and held at least 60% of the time is boosted, and a
    * label against the most frequent one is overruled when its confidence is
    * under 0.65.
    */
  lemma SmoothingFires(emotions: seq<Emotion>, confidences: seq<real>, emotion: Emotion, confidence: real, most: Emotion)
    requires 3 <= |emotions| <= |confidences|
    requires IsMode(Last(emotions, 5), most)
    ensures most == emotion && Count(Last(emotions, 5), emotion) as real >= 0.6 * |Last(emotions, 5)| as real ==>
              Smoothed(emotions, confidences, emotion, confidence) == (emotion, Min(confidence * 1.15, 0.95))
    ensures most != emotion && confidence < 0.65 ==>
              Smoothed(emotions, confidences, emotion, confidence) == (most, Mean(Last(confidences, 3)))
  {
    ModeUnique(Last(emotions, 5), most, Mode(Last(emotions, 5)));
  }

  /**
    * Smoothing changes the label only to the most frequent of the last five
    * labels, only below confidence 0.65, and then reports the mean of the
    * last three confidences.
    */
  lemma SmoothingOverride(emotions: seq<Emotion>, confidences: seq<real>, emotion: Emotion, confidence: real)
    requires |emotions| <= |confidences|
    requires Smoothed(emotions, confidences, emotion, confidence).0 != emotion
    ensures |emotions| >= 3 && confidence < 0.65
    ensures IsMode(Last(emotions, 5), Smoothed(emotions, confidences, emotion, confidence).0)
    ensures Smoothed(emotions, confidences, emotion, confidence).1 == Mean(Last(confidences, 3))
  {
  }

  /**
    * Smoothing raises the confidence only for a label that is the most
    * frequent of the last five in at least 60% of them, to min(1.15 c, 0.95).
    */
  lemma SmoothingBoost(emotions: seq<Emotion>, confidences: seq<real>, emotion: Emotion, confidence: real)
    requires |emotions| <= |confidences|
    requires Smoothed(emotions, confidences, emotion, confidence) != (emotion, confidence)
    requires Smoothed(emotions, confidences, emotion, confidence).0 == emotion
    ensures |emotions| >= 3 && IsMode(Last(emotions, 5), emotion)
    ensures Count(Last(emotions, 5), emotion) as real >= 0.6 * |Last(emotions, 5)| as real
    ensures Smoothed(emotions, confidences, emotion, confidence).1 == Min(confidence * 1.15, 0.95)
  {
  }

  /**
    * A label the classifier produced (confidence at least 0.65, at most
    * 0.95) keeps its label through smoothing, and its confidence can only
    * rise, to at most 0.95: the override branch never fires for it.
    */
  lemma SmoothingKeepsConfidentLabel(emotions: seq<Emotion>, confidences: seq<real>, emotion: Emotion, confidence: real)
    requires |emotions| <= |confidences|
    requires 0.65 <= confidence <= 0.95
    ensures var r := Smoothed(emotions, confidences, emotion, confidence);
            r.0 == emotion && confidence <= r.1 <= 0.95
  {
  }

  // ---------------------------------------------------------------------------
  // Calibration
  // ---------------------------------------------------------------------------

  const MinimumThreshold: real := 0.015
  const CalibrationSeconds: real := 3.0
  const SilenceSeconds: real := 5.0

  /**
    * The baseline energy once calibration ends: the mean of the energies
    * collected while calibrating plus 0.01. Calibration ends only once at
    * least one energy was collected (see StillCalibrating).
    */
  function CalibratedBaseline(samples: seq<real>): (b: real)
    requires samples != []
    ensures b == Mean(samples) + 0.01
    ensures AllWithin(samples, 0.0, 1.0) ==> 0.01 <= b <= 1.01
  {
    UnitMean(samples);
    Mean(samples) + 0.01
  }

  lemma UnitMean(samples: seq<real>)
    requires samples != []
    ensures AllWithin(samples, 0.0, 1.0) ==> 0.0 <= Mean(samples) <= 1.0
  {
    if AllWithin(samples, 0.0, 1.0) {
      MeanBounds(samples, 0.0, 1.0);
    }
  }

  /** The detection threshold for a baseline: 1.5 times it, and never under 0.015. */
  function ThresholdFor(baseline: real): (t: real)
    ensures t >= MinimumThreshold
    ensures t >= 1.5 * baseline
    ensures t == MinimumThreshold || t == 1.5 * baseline
  {
    Max(baseline * 1.5, MinimumThreshold)
  }

  /** A number as numpy computes it: a value, or NaN. */
  datatype Float = Num(value: real) | NaN

  /** numpy.mean: NaN for an empty list. */
  function FloatMean(s: seq<real>): (m: Float)
    ensures m.NaN? <==> s == []
  {
    if s == [] then NaN else Num(Mean(s))
  }

  function FloatAdd(a: Float, b: real): Float
  {
    match a
    case NaN => NaN
    case Num(x) => Num(x + b)
  }

  function FloatScale(a: Float, k: real): Float
  {
    match a
    case NaN => NaN
    case Num(x) => Num(x * k)
  }

  /** Every comparison with NaN is false. */
  function FloatGreater(a: Float, b: Float): bool
  {
    a.Num? && b.Num? && a.value > b.value
  }

  /** Python's max(a, b): b only when b > a, so max(NaN, x) is NaN. */
  function PyMax(a: Float, b: Float): Float
  {
    if FloatGreater(b, a) then b else a
  }

  /** The threshold as calibration computes it: max(1.5 (mean + 0.01), 0.015). */
  function ThresholdAsWritten(samples: seq<real>): Float
  {
    PyMax(FloatScale(FloatAdd(FloatMean(samples), 0.01), 1.5), Num(MinimumThreshold))
  }

  /**
    * With energies collected, the threshold as written is the one the model
    * uses; with none, it is NaN and no chunk, however loud, is ever speech
    * again, because calibration is never repeated.
    */
  lemma ThresholdAsWrittenDeafens(samples: seq<real>)
    ensures samples != [] ==>
              ThresholdAsWritten(samples) == Num(ThresholdFor(CalibratedBaseline(samples)))
    ensures samples == [] ==>
              ThresholdAsWritten(samples) == NaN && forall energy: real :: !FloatGreater(Num(energy), ThresholdAsWritten(samples))
  {
  }

  // ---------------------------------------------------------------------------
  // The detector
  // ---------------------------------------------------------------------------

  /**
    * Everything the processing loop changes: current result, time of the
    * last speech, calibration, the bounded histories, counters, per-label
    * change counts and speech onsets.
    */
  datatype DetectorState = DetectorState(
    currentEmotion: Emotion,
    emotionConfidence: real,
    lastSpeechTime: real,
    energyThreshold: real,
    baselineEnergy: real,
    calibrationSamples: seq<real>,
    isCalibrated: bool,
    calibrationStart: real,
    emotionHistory: seq<Emotion>,
    confidenceHistory: seq<real>,
    featureHistory: seq<Features>,
    totalChunks: nat,
    speechChunks: nat,
    detections: map<Emotion, nat>,
    speechOnsets: seq<real>)

  /**
    * The threshold never drops below 0.015; the label history is no longer
    * than the confidence history (silence clears only the former), both hold
    * at most 10 entries and the features at most 15; every recorded
    * confidence is one the classifier can produce, the current confidence
    * lies in [0.6, 0.95], and speech chunks are among the chunks processed.
    */
  predicate WellFormed(st: DetectorState)
  {
    && st.energyThreshold >= MinimumThreshold
    && |st.emotionHistory| <= |st.confidenceHistory| <= HistoryCapacity
    && |st.featureHistory| <= FeatureCapacity
    && AllWithin(st.confidenceHistory, 0.70, 0.95)
    && 0.6 <= st.emotionConfidence <= 0.95
    && st.speechChunks <= st.totalChunks
  }

  /** A new detector at time `now`: neutral at 0.6, threshold 0.015, baseline 0.01, all counts 0. */
  function InitialDetector(now: real): (st: DetectorState)
    ensures WellFormed(st) && !st.isCalibrated
    ensures st.currentEmotion == Neutral && st.emotionConfidence == 0.6
  {
    DetectorState(Neutral, 0.6, now, MinimumThreshold, 0.01, [], false, now, [], [], [], 0, 0,
                  map[Neutral := 0, Happy := 0, Sad := 0, Angry := 0, Fear := 0], [])
  }

  /** Ending calibration: baseline from the collected energies, threshold from the baseline. */
  function Calibrate(st: DetectorState): (r: DetectorState)
    requires st.calibrationSamples != []
    ensures r.isCalibrated && r.energyThreshold >= MinimumThreshold
    ensures r.energyThreshold == ThresholdFor(r.baselineEnergy)
    ensures r.baselineEnergy == CalibratedBaseline(st.calibrationSamples)
  {
    var baseline := CalibratedBaseline(st.calibrationSamples);
    st.(baselineEnergy := baseline, energyThreshold := ThresholdFor(baseline), isCalibrated := true)
  }

  /** A speech chunk: counted, time-stamped as an onset, and its features recorded. */
  function HeardSpeech(st: DetectorState, dsp: Features, now: real): DetectorState
  {
    var onsets := st.speechOnsets + [now];
    var features := dsp.(speakingRate := SpeakingRate(onsets, now));
    st.(speechChunks := st.speechChunks + 1, lastSpeechTime := now, speechOnsets := onsets,
        featureHistory := Last(st.featureHistory + [features], FeatureCapacity))
  }

  /** The two deques the smoother appends the classification to. */
  function Remember(st: DetectorState, emotion: Emotion, confidence: real): DetectorState
  {
    st.(emotionHistory := Last(st.emotionHistory + [emotion], HistoryCapacity),
        confidenceHistory := Last(st.confidenceHistory + [confidence], HistoryCapacity))
  }

  /** Adopting a new result, and counting it for its label. */
  function Adopt(st: DetectorState, emotion: Emotion, confidence: real): DetectorState
  {
    var seen := if emotion in st.detections then st.detections[emotion] else 0;
    st.(currentEmotion := emotion, emotionConfidence := confidence,
        detections := st.detections[emotion := seen + 1])
  }

  /** A result is adopted when its label differs or its confidence moved by more than 0.1. */
  predicate Differs(st: DetectorState, emotion: Emotion, confidence: real)
  {
    emotion != st.currentEmotion || Abs(confidence - st.emotionConfidence) > 0.1
  }

  /** Classification over the last five feature sets, smoothing, and adoption. */
  function Recognise(st: DetectorState): (r: DetectorState)
    requires st.energyThreshold > 0.0 && |st.featureHistory| > 0
    requires |st.emotionHistory| <= |st.confidenceHistory|
    ensures r == st.(emotionHistory := r.emotionHistory, confidenceHistory := r.confidenceHistory,
                     currentEmotion := r.currentEmotion, emotionConfidence := r.emotionConfidence,
                     detections := r.detections)
  {
    var guess := Classify(AverageFeatures(Last(st.featureHistory, 5)), st.energyThreshold);
    var st1 := Remember(st, guess.0, guess.1);
    var r := Smoothed(st1.emotionHistory, st1.confidenceHistory, guess.0, guess.1);
    if Differs(st1, r.0, r.1) then Adopt(st1, r.0, r.1) else st1
  }

  /** After more than five seconds without speech, a non-neutral result falls back to neutral at 0.65. */
  function AfterSilence(st: DetectorState, now: real): DetectorState
  {
    if now - st.lastSpeechTime > SilenceSeconds && st.currentEmotion != Neutral then
      st.(currentEmotion := Neutral, emotionConfidence := 0.65, featureHistory := [], emotionHistory := [])
    else st
  }

  /**
    * An uncalibrated session less than three seconds old, or one that has
    * not yet collected any energy: chunks only feed calibration.
    */
  predicate StillCalibrating(st: DetectorState, now: real)
  {
    !st.isCalibrated && (now - st.calibrationStart < CalibrationSeconds || st.calibrationSamples == [])
  }

  /** The state once a chunk past calibration is counted, calibrating first when that is due. */
  function Ready(st: DetectorState): (r: DetectorState)
    requires st.isCalibrated || st.calibrationSamples != []
    ensures r.isCalibrated && r.totalChunks == st.totalChunks + 1
    ensures WellFormed(st) ==> WellFormed(r) && r.speechChunks < r.totalChunks
    ensures st.isCalibrated ==> r == st.(totalChunks := st.totalChunks + 1)
  {
    var counted := st.(totalChunks := st.totalChunks + 1);
    if counted.isCalibrated then counted else Calibrate(counted)
  }

  /** A speech chunk: recorded, and classified once three feature sets are held. */
  function Listen(st: DetectorState, dsp: Features, now: real): (r: DetectorState)
    requires WellFormed(st) && st.speechChunks < st.totalChunks
    ensures WellFormed(r)
    ensures r.speechChunks == st.speechChunks + 1 && r.totalChunks == st.totalChunks
    ensures r.speechOnsets == st.speechOnsets + [now] && r.lastSpeechTime == now
    ensures r.isCalibrated == st.isCalibrated && r.energyThreshold == st.energyThreshold
    ensures r.baselineEnergy == st.baselineEnergy && r.calibrationSamples == st.calibrationSamples
  {
    var heard := HeardSpeech(st, dsp, now);
    HeardSpeechKeepsWellFormed(st, dsp, now);
    if |heard.featureHistory| >= 3 then
      RecogniseKeepsWellFormed(heard);
      Recognise(heard)
    else heard
  }

  /** What one pass of the processing loop does with a full chunk of the given energy. */
  datatype Outcome = Waiting | Calibrating | Silence | Speech

  function OutcomeOf(st: DetectorState, energy: real, now: real): Outcome
  {
    if StillCalibrating(st, now) then Calibrating
    else if energy > Ready(st).energyThreshold then Speech
    else Silence
  }

  /** One pass of the processing loop over a full chunk, as a function of the state before it. */
  function NextState(st: DetectorState, energy: real, dsp: Features, now: real): (r: DetectorState)
    requires WellFormed(st)
    ensures WellFormed(r)
  {
    if StillCalibrating(st, now) then
      st.(totalChunks := st.totalChunks + 1, calibrationSamples := st.calibrationSamples + [energy])
    else
      var ready := Ready(st);
      if energy > ready.energyThreshold then Listen(ready, dsp, now)
      else AfterSilence(ready, now)
  }

  /** Recognition keeps the state well formed. */
  lemma RecogniseKeepsWellFormed(st: DetectorState)
    requires WellFormed(st) && |st.featureHistory| > 0
    ensures WellFormed(Recognise(st))
  {
    var guess := Classify(AverageFeatures(Last(st.featureHistory, 5)), st.energyThreshold);
    var st1 := Remember(st, guess.0, guess.1);
    LastWithin(st.confidenceHistory, guess.1, HistoryCapacity, 0.70, 0.95);
    SmoothingKeepsConfidentLabel(st1.emotionHistory, st1.confidenceHistory, guess.0, guess.1);
  }

  /** A speech chunk keeps the state well formed. */
  lemma HeardSpeechKeepsWellFormed(st: DetectorState, dsp: Features, now: real)
    requires WellFormed(st) && st.speechChunks < st.totalChunks
    ensures WellFormed(HeardSpeech(st, dsp, now))
  {
  }

  /**
    * While calibrating (less than three seconds since the loop started),
    * a chunk only adds its energy to the calibration samples.
    */
  lemma CalibrationCollects(st: DetectorState, energy: real, dsp: Features, now: real)
    requires WellFormed(st)
    requires !st.isCalibrated && now - st.calibrationStart < CalibrationSeconds
    ensures NextState(st, energy, dsp, now)
              == st.(totalChunks := st.totalChunks + 1, calibrationSamples := st.calibrationSamples + [energy])
    ensures OutcomeOf(st, energy, now) == Calibrating
  {
  }

  /**
    * The first chunk after three seconds ends calibration: the baseline is
    * the mean collected energy plus 0.01, the threshold max(1.5 baseline,
    * 0.015); with energies in [0, 1] the threshold is at most 1.515.
    */
  lemma CalibrationCompletes(st: DetectorState, energy: real, dsp: Features, now: real)
    requires WellFormed(st)
    requires !st.isCalibrated && now - st.calibrationStart >= CalibrationSeconds
    requires st.calibrationSamples != []
    ensures var n := NextState(st, energy, dsp, now);
            && n.isCalibrated
            && n.baselineEnergy == Mean(st.calibrationSamples) + 0.01
            && n.energyThreshold == Max(1.5 * n.baselineEnergy, 0.015)
            && n.energyThreshold >= 0.015
            && (AllWithin(st.calibrationSamples, 0.0, 1.0) ==> n.energyThreshold <= 1.515)
  {
    var n := NextState(st, energy, dsp, now);
    var c := Calibrate(st.(totalChunks := st.totalChunks + 1));
    assert c == Ready(st);
    assert n.baselineEnergy == c.baselineEnergy && n.energyThreshold == c.energyThreshold;
  }

  /**
    * Three seconds have passed but no energy was collected: the chunk's
    * energy is collected and the detector stays uncalibrated, so the next
    * chunk calibrates from a real sample.
    */
  lemma CalibrationWaitsForASample(st: DetectorState, energy: real, dsp: Features, now: real)
    requires WellFormed(st)
    requires !st.isCalibrated && st.calibrationSamples == []
    ensures var n := NextState(st, energy, dsp, now);
            && !n.isCalibrated
            && n.calibrationSamples == [energy]
            && n.energyThreshold == st.energyThreshold
    ensures OutcomeOf(st, energy, now) == Calibrating
  {
  }

  /** Once calibrated, the detector stays calibrated and keeps its baseline and threshold. */
  lemma CalibrationIsFinal(st: DetectorState, energy: real, dsp: Features, now: real)
    requires WellFormed(st) && st.isCalibrated
    ensures var n := NextState(st, energy, dsp, now);
            && n.isCalibrated
            && n.energyThreshold == st.energyThreshold
            && n.baselineEnergy == st.baselineEnergy
            && n.calibrationSamples == st.calibrationSamples
  {
  }

  /**
    * After calibration, a chunk is speech exactly when its energy is above
    * the threshold; a speech chunk is counted and its time recorded as the
    * last speech and as an onset, anything else leaves those alone.
    */
  lemma SpeechIffAboveThreshold(st: DetectorState, energy: real, dsp: Features, now: real)
    requires WellFormed(st)
    requires !StillCalibrating(st, now)
    ensures var n := NextState(st, energy, dsp, now);
            && n.totalChunks == st.totalChunks + 1
            && (energy > n.energyThreshold <==> OutcomeOf(st, energy, now) == Speech)
            && (energy > n.energyThreshold <==> n.speechChunks == st.speechChunks + 1)
            && (energy > n.energyThreshold ==> n.speechOnsets == st.speechOnsets + [now] && n.lastSpeechTime == now)
            && (energy <= n.energyThreshold ==>
                  n.speechChunks == st.speechChunks && n.speechOnsets == st.speechOnsets && n.lastSpeechTime == st.lastSpeechTime)
  {
  }

  /**
    * Silence after more than five seconds without speech resets a
    * non-neutral result to neutral at 0.65 and clears the feature and label
    * histories (the confidence history stays); otherwise silence leaves the
    * result and the histories alone.
    */
  lemma SilenceResetsToNeutral(st: DetectorState, energy: real, dsp: Features, now: real)
    requires WellFormed(st)
    requires !StillCalibrating(st, now)
    requires OutcomeOf(st, energy, now) == Silence
    ensures var n := NextState(st, energy, dsp, now);
            && (now - st.lastSpeechTime > 5.0 && st.currentEmotion != Neutral ==>
                  && n.currentEmotion == Neutral && n.emotionConfidence == 0.65
                  && n.featureHistory == [] && n.emotionHistory == []
                  && n.confidenceHistory == st.confidenceHistory)
            && (!(now - st.lastSpeechTime > 5.0 && st.currentEmotion != Neutral) ==>
                  && n.currentEmotion == st.currentEmotion && n.emotionConfidence == st.emotionConfidence
                  && n.featureHistory == st.featureHistory && n.emotionHistory == st.emotionHistory)
  {
  }

  /**
    * On speech with at least three feature sets the detector adopts the
    * classifier's label exactly when it differs from the current one
    * (smoothing never overrides it), and counts that label once more.
    */
  lemma SpeechReportsClassifiedLabel(st: DetectorState, energy: real, dsp: Features, now: real)
    requires WellFormed(st)
    requires OutcomeOf(st, energy, now) == Speech
    ensures var n := NextState(st, energy, dsp, now);
            var heard := HeardSpeech(Ready(st), dsp, now);
            && (|heard.featureHistory| >= 3 ==>
                  var guess := Classify(AverageFeatures(Last(heard.featureHistory, 5)), heard.energyThreshold);
                  && (n.currentEmotion == st.currentEmotion || n.currentEmotion == guess.0)
                  && (guess.0 != st.currentEmotion ==> n.currentEmotion == guess.0)
                  && (n.currentEmotion != st.currentEmotion ==>
                        && guess.1 <= n.emotionConfidence
                        && n.currentEmotion in n.detections
                        && n.detections[n.currentEmotion] == (if guess.0 in st.detections then st.detections[guess.0] else 0) + 1))
            && (|heard.featureHistory| < 3 ==>
                  n.currentEmotion == st.currentEmotion && n.emotionConfidence == st.emotionConfidence)
  {
    var ready := Ready(st);
    assert NextState(st, energy, dsp, now) == Listen(ready, dsp, now);
    var heard := HeardSpeech(ready, dsp, now);
    if |heard.featureHistory| >= 3 {
      var guess := Classify(AverageFeatures(Last(heard.featureHistory, 5)), heard.energyThreshold);
      var st1 := Remember(heard, guess.0, guess.1);
      var r := Smoothed(st1.emotionHistory, st1.confidenceHistory, guess.0, guess.1);
      SmoothingKeepsConfidentLabel(st1.emotionHistory, st1.confidenceHistory, guess.0, guess.1);
      assert Listen(ready, dsp, now) == (if Differs(st1, r.0, r.1) then Adopt(st1, r.0, r.1) else st1);
    } else {
      assert Listen(ready, dsp, now) == heard;
    }
  }

  lemma RatioBounds(part: nat, total: nat)
    requires total > 0
    ensures part <= total ==> 0.0 <= part as real / total as real <= 1.0
  {
    if part <= total {
      DivBounds(part as real, total as real, 0.0, 1.0);
    }
  }

  /** The share of processed chunks that were speech, 0 before any chunk. */
  function SpeechRatio(st: DetectorState): (r: real)
    ensures st.totalChunks == 0 ==> r == 0.0
    ensures st.speechChunks <= st.totalChunks ==> 0.0 <= r <= 1.0
    ensures st.totalChunks > 0 && st.speechChunks == st.totalChunks ==> r == 1.0
  {
    if st.totalChunks > 0 then
      RatioBounds(st.speechChunks, st.totalChunks);
      st.speechChunks as real / st.totalChunks as real
    else 0.0
  }

  class SpeechEmotionDetector {
    const sampleRate: nat
    const chunkSamples: int
    var audioBuffer: seq<real>
    var isRecording: bool
    /** The attributes the processing loop updates, held as one record. */
    var state: DetectorState

    /** The buffer never holds more than fifteen seconds of audio. */
    ghost predicate Valid()
      reads this
    {
      && WellFormed(state)
      && (sampleRate > 0 ==> |audioBuffer| <= sampleRate * 15)
    }

    constructor (sampleRate: nat, chunkDuration: real, now: real)
      ensures Valid() && !isRecording && audioBuffer == []
      ensures this.sampleRate == sampleRate
      ensures chunkSamples == TruncateToInt(sampleRate as real * chunkDuration)
      ensures state == InitialDetector(now)
    {
      this.sampleRate := sampleRate;
      chunkSamples := TruncateToInt(sampleRate as real * chunkDuration);
      audioBuffer := [];
      isRecording := false;
      state := InitialDetector(now);
    }

    /**
      * The stream callback: while recording, the block is appended and the
      * buffer cut back to its newest fifteen seconds; otherwise nothing.
      */
    method AudioCallback(block: seq<real>)
      requires Valid()
      modifies this
      ensures Valid()
      ensures isRecording == old(isRecording) && state == old(state)
      ensures old(isRecording) ==> audioBuffer == KeepNewest(old(audioBuffer) + block, sampleRate * 15)
      ensures !old(isRecording) ==> audioBuffer == old(audioBuffer)
    {
      if isRecording {
        var buffer := audioBuffer + block;
        var limit := sampleRate * 15;
        if |buffer| > limit {
          buffer := if limit == 0 then buffer else buffer[|buffer| - limit..];
        }
        audioBuffer := buffer;
      }
    }

    /**
      * Starting a session empties the buffer; when the input stream opens, the
      * processing thread starts and with it the calibration clock, and when it
      * does not, recording is switched off again.
      */
    method StartRecording(now: real, streamOpened: bool)
      requires Valid()
      modifies this
      ensures Valid()
      ensures audioBuffer == [] && isRecording == streamOpened
      ensures streamOpened ==> state == old(state).(calibrationStart := now)
      ensures !streamOpened ==> state == old(state)
    {
      isRecording := true;
      audioBuffer := [];
      if streamOpened {
        state := state.(calibrationStart := now);
      } else {
        isRecording := false;
      }
    }

    method StopRecording()
      requires Valid()
      modifies this
      ensures Valid()
      ensures !isRecording && audioBuffer == old(audioBuffer) && state == old(state)
    {
      isRecording := false;
    }

    /**
      * The smoother: appends the classification to both deques, then votes
      * over the last five labels with the counting loop.
      */
    method ApplyTemporalSmoothing(emotion: Emotion, confidence: real) returns (e: Emotion, c: real)
      requires |state.emotionHistory| <= |state.confidenceHistory|
      modifies this
      ensures audioBuffer == old(audioBuffer) && isRecording == old(isRecording)
      ensures state == Remember(old(state), emotion, confidence)
      ensures (e, c) == Smoothed(state.emotionHistory, state.confidenceHistory, emotion, confidence)
    {
      state := Remember(state, emotion, confidence);
      if |state.emotionHistory| < 3 {
        return emotion, confidence;
      }
      var recent := Last(state.emotionHistory, 5);
      var most, count := Majority(recent);
      var frequency := Frequency(count, |recent|);
      if most == emotion && frequency >= 0.6 {
        e, c := emotion, Min(confidence * 1.15, 0.95);
      } else if most != emotion && confidence < 0.65 {
        e, c := most, Mean(Last(state.confidenceHistory, 3));
      } else {
        e, c := emotion, confidence;
      }
    }

    /**
      * A speech chunk: counted and recorded; with three feature sets held,
      * classified, smoothed and, if it differs, adopted.
      */
    method Hear(dsp: Features, now: real)
      requires WellFormed(state) && state.speechChunks < state.totalChunks
      modifies this
      ensures audioBuffer == old(audioBuffer) && isRecording == old(isRecording)
      ensures state == Listen(old(state), dsp, now)
    {
      state := HeardSpeech(state, dsp, now);
      if |state.featureHistory| >= 3 {
        var guess := Classify(AverageFeatures(Last(state.featureHistory, 5)), state.energyThreshold);
        var e, c := ApplyTemporalSmoothing(guess.0, guess.1);
        if Differs(state, e, c) {
          state := Adopt(state, e, c);
        }
      }
    }

    /**
      * One pass of the processing loop at time `now`, given the RMS energy of
      * the newest chunk and the features extracted from it. Without a full
      * chunk, or when not recording, nothing happens.
      */
    method Step(energy: real, dsp: Features, now: real) returns (outcome: Outcome)
      requires Valid()
      requires var chunk := NewestChunk(audioBuffer, chunkSamples);
               isRecording && |audioBuffer| >= chunkSamples && |chunk| > 0 ==>
                 IsRms(energy, chunk) && ChunkFeatures(chunk, sampleRate, dsp)
      modifies this
      ensures Valid()
      ensures audioBuffer == old(audioBuffer) && isRecording == old(isRecording)
      ensures !isRecording || |audioBuffer| < chunkSamples ==> state == old(state) && outcome == Waiting
      ensures isRecording && |audioBuffer| >= chunkSamples ==>
                state == NextState(old(state), energy, dsp, now) && outcome == OutcomeOf(old(state), energy, now)
    {
      if !isRecording || |audioBuffer| < chunkSamples {
        return Waiting;
      }
      ghost var before := state;
      var st := state.(totalChunks := state.totalChunks + 1);
      if !st.isCalibrated {
        if now - st.calibrationStart < CalibrationSeconds || st.calibrationSamples == [] {
          state := st.(calibrationSamples := st.calibrationSamples + [energy]);
          return Calibrating;
        }
        st := Calibrate(st);
      }
      assert !StillCalibrating(before, now) && st == Ready(before);
      if energy > st.energyThreshold {
        state := st;
        Hear(dsp, now);
        outcome := Speech;
      } else {
        state := AfterSilence(st, now);
        outcome := Silence;
      }
    }

    /** The share of processed chunks that were speech. */
    function GetSpeechRatio(): (r: real)
      requires Valid()
      reads this
      ensures 0.0 <= r <= 1.0
    {
      SpeechRatio(state)
    }
  }
}
