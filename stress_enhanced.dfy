// The enhanced stress analyzer (stress_analyzer_enhanced.py): per-modality
// stress scores, confidence-adaptive fusion weights, confidence-weighted
// fusion with a history fallback, adaptive-alpha smoothing over a recency
// weighted window, time-of-day / session / pattern modifiers, five-level
// bucketing with hysteresis, high-stress event and recovery tracking, and
// statistics over the recent history.
//
// Wall-clock time (time.time()) and the hour of the day (datetime.now().hour)
// are parameters of the operations that read them.

module StressEnhanced {

  import opened Common
  import opened StressLevels

  // ---------------------------------------------------------------------------
  // Per-modality stress score
  // ---------------------------------------------------------------------------

  /** The refined emotion-to-stress table, looked up in lower case, 0.35 for other labels. */
  function BaseStress(name: string): (b: real)
    ensures 0.08 <= b <= 0.90
    ensures ToLower(name) !in {"angry", "fear", "disgust", "sad", "surprise", "neutral", "happy"} ==> b == 0.35
  {
    var l := ToLower(name);
    if l == "angry" then 0.90
    else if l == "fear" then 0.88
    else if l == "disgust" then 0.75
    else if l == "sad" then 0.72
    else if l == "surprise" then 0.50
    else if l == "neutral" then 0.28
    else if l == "happy" then 0.08
    else 0.35
  }

  /**
    * 0.3 for a missing label or a confidence below 0.15; otherwise, at
    * confidence 0.5 or more, the table value pulled toward 0.25 by
    * (1 - confidence), and below 0.5 the table value regressed toward 0.35
    * (0.6 of the table value plus 0.14); clamped to [0, 1].
    */
  function EmotionStressScore(emotion: EmotionLabel, confidence: real): (r: real)
    ensures 0.0 <= r <= 1.0
    ensures Missing(emotion) || confidence < 0.15 ==> r == 0.3
  {
    if Missing(emotion) || confidence < 0.15 then 0.3
    else
      var b := BaseStress(emotion.value);
      var weighted := if confidence >= 0.5 then b * confidence + 0.25 * (1.0 - confidence)
                      else b * 0.6 + 0.35 * 0.4;
      Clip(weighted, 0.0, 1.0)
  }

  /** The label lookup ignores letter case. */
  lemma ScoreIgnoresCase(name: string, confidence: real)
    ensures EmotionStressScore(Some(name), confidence) == EmotionStressScore(Some(ToLower(name)), confidence)
  {
    ToLowerIdempotent(name);
    assert ToLower(name) == "" <==> name == "";
  }

  /**
    * Below confidence 0.5 (and from 0.15 on) the confidence itself no longer
    * matters: the score is 0.6 of the table value plus 0.14.
    */
  lemma LowConfidenceScoreIgnoresConfidence(name: string, c1: real, c2: real)
    requires name != ""
    requires 0.15 <= c1 < 0.5 && 0.15 <= c2 < 0.5
    ensures EmotionStressScore(Some(name), c1) == EmotionStressScore(Some(name), c2)
    ensures EmotionStressScore(Some(name), c1) == 0.6 * BaseStress(name) + 0.14
  {
  }

  /** From confidence 0.5 to 1 the score lies between 0.25 and the table value. */
  lemma HighConfidenceScoreBetween(name: string, confidence: real)
    requires name != "" && 0.5 <= confidence <= 1.0
    ensures var r := EmotionStressScore(Some(name), confidence);
            Min(0.25, BaseStress(name)) <= r <= Max(0.25, BaseStress(name))
  {
    var b := BaseStress(name);
    assert b * confidence + 0.25 * (1.0 - confidence) - 0.25 == (b - 0.25) * confidence;
    if b >= 0.25 {
      assert 0.0 <= (b - 0.25) * confidence <= b - 0.25;
    } else {
      assert b - 0.25 <= (b - 0.25) * confidence <= 0.0;
    }
  }

  // ---------------------------------------------------------------------------
  // Adaptive fusion weights
  // ---------------------------------------------------------------------------

  /**
    * New (face, speech) weights: when either confidence exceeds 0.3 the face
    * weight becomes 0.5 + 0.3 * face share of the total confidence (0.6 / 0.4
    * when the total is not positive); otherwise the previous weights are
    * kept. Either way the pair is renormalised to sum 1.
    */
  function AdaptedWeights(faceWeight: real, speechWeight: real, faceConf: real, speechConf: real): (w: (real, real))
    requires faceConf > 0.3 || speechConf > 0.3 || faceWeight + speechWeight != 0.0
    ensures w.0 + w.1 == 1.0
    ensures !(faceConf > 0.3 || speechConf > 0.3) ==>
              w == (faceWeight / (faceWeight + speechWeight), speechWeight / (faceWeight + speechWeight))
  {
    var adapted :=
      if faceConf > 0.3 || speechConf > 0.3 then
        var total := faceConf + speechConf;
        if total > 0.0 then
          var f := 0.5 + 0.3 * (faceConf / total);
          (f, 1.0 - f)
        else (0.6, 0.4)
      else (faceWeight, speechWeight);
    var total := adapted.0 + adapted.1;
    (adapted.0 / total, adapted.1 / total)
  }

  /**
    * With non-negative confidences and one of them above 0.3, the face weight
    * stays in [0.5, 0.8], and it is at least 0.65 exactly when the face is the
    * more confident modality.
    */
  lemma AdaptedFaceWeightRange(faceWeight: real, speechWeight: real, faceConf: real, speechConf: real)
    requires faceConf >= 0.0 && speechConf >= 0.0
    requires faceConf > 0.3 || speechConf > 0.3
    ensures var w := AdaptedWeights(faceWeight, speechWeight, faceConf, speechConf);
            && 0.5 <= w.0 <= 0.8
            && (w.0 >= 0.65 <==> faceConf >= speechConf)
  {
    var total := faceConf + speechConf;
    ShareBounds(faceConf, total);
    var f := 0.5 + 0.3 * (faceConf / total);
    assert AdaptedWeights(faceWeight, speechWeight, faceConf, speechConf).0 == f / 1.0;
  }

  // ---------------------------------------------------------------------------
  // Fusion
  // ---------------------------------------------------------------------------

  /**
    * Both confidences below 0.3: the mean of the last five (or fewer) past
    * scores, 0.3 with no history. Otherwise the confidence-weighted mean of
    * the two modality scores (their plain mean when the confidences do not
    * sum to a positive number), clamped to [0, 1].
    */
  function Fuse(history: seq<real>, faceScore: real, faceConf: real, speechScore: real, speechConf: real): (r: real)
    ensures faceConf < 0.3 && speechConf < 0.3 ==>
              r == if history == [] then 0.3 else Mean(Last(history, 5))
    ensures !(faceConf < 0.3 && speechConf < 0.3) ==> 0.0 <= r <= 1.0
  {
    if faceConf < 0.3 && speechConf < 0.3 then
      if |history| > 0 then Mean(Last(history, 5)) else 0.3
    else
      var total := faceConf + speechConf;
      var fused := if total > 0.0 then (faceScore * faceConf + speechScore * speechConf) / total
                   else (faceScore + speechScore) / 2.0;
      Clip(fused, 0.0, 1.0)
  }

  /**
    * When a modality is confident enough and both confidences are
    * non-negative, the fused score lies between the two modality scores and
    * is at least as close to the more confident one.
    */
  lemma FuseBetweenModalities(history: seq<real>, faceScore: real, faceConf: real, speechScore: real, speechConf: real)
    requires !(faceConf < 0.3 && speechConf < 0.3)
    requires faceConf >= 0.0 && speechConf >= 0.0
    requires 0.0 <= faceScore <= 1.0 && 0.0 <= speechScore <= 1.0
    ensures var r := Fuse(history, faceScore, faceConf, speechScore, speechConf);
            && Min(faceScore, speechScore) <= r <= Max(faceScore, speechScore)
            && (faceConf >= speechConf ==> Abs(r - faceScore) <= Abs(r - speechScore))
            && (speechConf >= faceConf ==> Abs(r - speechScore) <= Abs(r - faceScore))
  {
    var wf := faceConf / (faceConf + speechConf);
    FuseIsLerp(history, faceScore, faceConf, speechScore, speechConf);
    if faceConf >= speechConf {
      LerpCloserToX(wf, faceScore, speechScore);
    }
    if speechConf >= faceConf {
      LerpCloserToY(wf, faceScore, speechScore);
    }
  }

  /**
    * When a modality is confident enough, fusion interpolates between the
    * speech and the face score by the face share of the total confidence.
    */
  lemma FuseIsLerp(history: seq<real>, faceScore: real, faceConf: real, speechScore: real, speechConf: real)
    requires !(faceConf < 0.3 && speechConf < 0.3)
    requires faceConf >= 0.0 && speechConf >= 0.0
    requires 0.0 <= faceScore <= 1.0 && 0.0 <= speechScore <= 1.0
    ensures var wf := faceConf / (faceConf + speechConf);
            && 0.0 <= wf <= 1.0
            && (wf >= 0.5 <==> faceConf >= speechConf)
            && (wf <= 0.5 <==> speechConf >= faceConf)
            && Fuse(history, faceScore, faceConf, speechScore, speechConf) == Lerp(wf, faceScore, speechScore)
            && Min(faceScore, speechScore) <= Lerp(wf, faceScore, speechScore) <= Max(faceScore, speechScore)
  {
    var total := faceConf + speechConf;
    var wf := faceConf / total;
    ShareBounds(faceConf, total);
    WeightedPairIsLerp(faceScore, faceConf, speechScore, speechConf);
    BlendBetween(wf, faceScore, speechScore);
  }

  /** The confidence-weighted mean of two scores interpolates by the face share of the confidence. */
  lemma WeightedPairIsLerp(fs: real, fc: real, ss: real, sc: real)
    requires fc >= 0.0 && sc >= 0.0 && fc + sc > 0.0
    ensures (fs * fc + ss * sc) / (fc + sc) == Lerp(fc / (fc + sc), fs, ss)
  {
    var t := fc + sc;
    var w := fc / t;
    assert w * t == fc;
    assert Lerp(w, fs, ss) * t == fs * fc + ss * sc by {
      assert Lerp(w, fs, ss) * t == ss * t + (w * t) * (fs - ss);
    }
  }

  /** With a history of scores in [0, 1], every fused score is in [0, 1]. */
  lemma FuseWithinUnit(history: seq<real>, faceScore: real, faceConf: real, speechScore: real, speechConf: real)
    requires AllWithin(history, 0.0, 1.0)
    ensures 0.0 <= Fuse(history, faceScore, faceConf, speechScore, speechConf) <= 1.0
  {
    if faceConf < 0.3 && speechConf < 0.3 && |history| > 0 {
      LastWithin(history, 0.0, 5, 0.0, 1.0);
      MeanBounds(Last(history, 5), 0.0, 1.0);
    }
  }

  // ---------------------------------------------------------------------------
  // Adaptive-alpha temporal smoothing
  // ---------------------------------------------------------------------------

  /** numpy.linspace(0.5, 1.0, n): weights rising linearly from the oldest to the newest sample. */
  function RecencyWeights(n: nat): (ws: seq<real>)
    requires n >= 1
    ensures |ws| == n
    ensures forall i :: 0 <= i < n ==> 0.5 <= ws[i] <= 1.0
    ensures forall i, j :: 0 <= i < j < n ==> ws[i] < ws[j]
  {
    if n == 1 then [0.5]
    else
      var ws := seq(n, i requires 0 <= i < n => RecencyWeight(i, n));
      forall i, j | 0 <= i < j < n
        ensures ws[i] < ws[j]
      {
        RecencyWeightIncreasing(i, j, n);
      }
      ws
  }

  /** The i-th of n >= 2 evenly spaced points from 0.5 to 1.0. */
  function RecencyWeight(i: nat, n: nat): (w: real)
    requires i < n && n >= 2
    ensures 0.5 <= w <= 1.0
  {
    ShareBounds(i as real, (n - 1) as real);
    0.5 + 0.5 * (i as real / (n - 1) as real)
  }

  lemma RecencyWeightIncreasing(i: nat, j: nat, n: nat)
    requires i < j < n && n >= 2
    ensures RecencyWeight(i, n) < RecencyWeight(j, n)
  {
    var d := (n - 1) as real;
    assert (j as real / d - i as real / d) * d == (j - i) as real;
  }

  function Dot(xs: seq<real>, ws: seq<real>): real
    requires |xs| == |ws|
  {
    if |xs| == 0 then 0.0 else Dot(xs[..|xs| - 1], ws[..|ws| - 1]) + xs[|xs| - 1] * ws[|ws| - 1]
  }

  /** With non-negative weights, samples of at least lo weigh in at least lo times the total weight. */
  lemma {:induction false} DotAtLeast(xs: seq<real>, ws: seq<real>, lo: real)
    requires |xs| == |ws|
    requires forall i :: 0 <= i < |xs| ==> xs[i] >= lo
    requires forall i :: 0 <= i < |ws| ==> ws[i] >= 0.0
    ensures lo * Sum(ws) <= Dot(xs, ws)
  {
    if |xs| > 0 {
      var n := |xs| - 1;
      DotAtLeast(xs[..n], ws[..n], lo);
      MulMono(lo, xs[n], ws[n]);
      StepAtLeast(lo, Sum(ws[..n]), Dot(xs[..n], ws[..n]), ws[n], xs[n] * ws[n], Sum(ws), Dot(xs, ws));
    }
  }

  /** With non-negative weights, samples of at most hi weigh in at most hi times the total weight. */
  lemma {:induction false} DotAtMost(xs: seq<real>, ws: seq<real>, hi: real)
    requires |xs| == |ws|
    requires forall i :: 0 <= i < |xs| ==> xs[i] <= hi
    requires forall i :: 0 <= i < |ws| ==> ws[i] >= 0.0
    ensures Dot(xs, ws) <= hi * Sum(ws)
  {
    if |xs| > 0 {
      var n := |xs| - 1;
      DotAtMost(xs[..n], ws[..n], hi);
      MulMono(xs[n], hi, ws[n]);
      StepAtMost(hi, Sum(ws[..n]), Dot(xs[..n], ws[..n]), ws[n], xs[n] * ws[n], Sum(ws), Dot(xs, ws));
    }
  }

  /** One more weighted sample keeps the lower bound: c s <= d and c w <= p give c (s + w) <= d + p. */
  lemma StepAtLeast(c: real, s: real, d: real, w: real, p: real, total: real, dot: real)
    requires c * s <= d && c * w <= p
    requires total == s + w && dot == d + p
    ensures c * total <= dot
  {
    assert c * total == c * s + c * w;
  }

  /** One more weighted sample keeps the upper bound: d <= c s and p <= c w give d + p <= c (s + w). */
  lemma StepAtMost(c: real, s: real, d: real, w: real, p: real, total: real, dot: real)
    requires d <= c * s && p <= c * w
    requires total == s + w && dot == d + p
    ensures dot <= c * total
  {
    assert c * total == c * s + c * w;
  }

  /** numpy.average(xs, weights=ws): the weights need not sum to one. */
  function WeightedAverage(xs: seq<real>, ws: seq<real>): real
    requires |xs| == |ws| && Sum(ws) > 0.0
  {
    Dot(xs, ws) / Sum(ws)
  }

  /** A weighted average with non-negative weights lies within the bounds of its samples. */
  lemma WeightedAverageBounds(xs: seq<real>, ws: seq<real>, lo: real, hi: real)
    requires |xs| == |ws| && Sum(ws) > 0.0
    requires AllWithin(xs, lo, hi)
    requires forall i :: 0 <= i < |ws| ==> ws[i] >= 0.0
    ensures lo <= WeightedAverage(xs, ws) <= hi
  {
    DotAtLeast(xs, ws, lo);
    DotAtMost(xs, ws, hi);
    DivBounds(Dot(xs, ws), Sum(ws), lo, hi);
  }

  lemma RecencyWeightsPositiveSum(n: nat)
    requires n >= 1
    ensures Sum(RecencyWeights(n)) > 0.0
  {
    var ws := RecencyWeights(n);
    SumBounds(ws, 0.5, 1.0);
  }

  /** The recency-weighted mean of the last eight (or fewer) scores. */
  function RecentWeightedMean(history: seq<real>): real
    requires |history| >= 1
  {
    var recent := Last(history, 8);
    RecencyWeightsPositiveSum(|recent|);
    WeightedAverage(recent, RecencyWeights(|recent|))
  }

  /**
    * The blend factor: 0.75 for a change of more than 0.15 upward, 0.55 for
    * one downward, 0.3 when the recent window is steady (standard deviation
    * below 0.05, i.e. variance below 0.0025), 0.5 otherwise.
    */
  function SmoothingAlpha(current: real, average: real, variance: real): real
  {
    var change := Abs(current - average);
    if change > 0.15 && current > average then 0.75
    else if change > 0.15 && current < average then 0.55
    else if variance < 0.0025 then 0.3
    else 0.5
  }

  /** numpy.std of the recent window, squared; 0 for windows of two or fewer scores. */
  function RecentVariance(recent: seq<real>): real
  {
    if |recent| > 2 then Variance(recent) else 0.0
  }

  /**
    * With fewer than two past scores the current score passes through;
    * otherwise it is blended with the recency-weighted mean by the adaptive
    * alpha and clamped to [0, 1].
    */
  function SmoothScore(history: seq<real>, current: real): (r: real)
    ensures |history| < 2 ==> r == current
    ensures |history| >= 2 ==> 0.0 <= r <= 1.0
  {
    if |history| < 2 then current
    else
      var recent := Last(history, 8);
      var average := RecentWeightedMean(history);
      var alpha := SmoothingAlpha(current, average, RecentVariance(recent));
      Clip(alpha * current + (1.0 - alpha) * average, 0.0, 1.0)
  }

  /**
    * For scores in [0, 1], the smoothed score lies between the current score
    * and the recency-weighted mean, and moves 75% of a sharp rise but only
    * 55% of a sharp fall; a smaller change moves 30% of the way when the last
    * eight scores are steady (standard deviation below 0.05) and 50% when not.
    */
  lemma SmoothScoreBlends(history: seq<real>, current: real)
    requires |history| >= 2
    requires AllWithin(history, 0.0, 1.0) && 0.0 <= current <= 1.0
    ensures var avg := RecentWeightedMean(history);
            var r := SmoothScore(history, current);
            && Min(current, avg) <= r <= Max(current, avg)
            && (current > avg + 0.15 ==> r - avg == 0.75 * (current - avg))
            && (current < avg - 0.15 ==> avg - r == 0.55 * (avg - current))
            && (Abs(current - avg) <= 0.15 && RecentVariance(Last(history, 8)) < 0.0025 ==>
                  r == 0.3 * current + 0.7 * avg)
            && (Abs(current - avg) <= 0.15 && RecentVariance(Last(history, 8)) >= 0.0025 ==>
                  r == 0.5 * current + 0.5 * avg)
  {
    var avg := RecentWeightedMean(history);
    RecentWeightedMeanBounds(history, 0.0, 1.0);
    var alpha := SmoothingAlpha(current, avg, RecentVariance(Last(history, 8)));
    BlendBetween(alpha, current, avg);
    assert SmoothScore(history, current) == Clip(Lerp(alpha, current, avg), 0.0, 1.0);
  }

  /** The recency-weighted mean stays within any bounds of the history. */
  lemma RecentWeightedMeanBounds(history: seq<real>, lo: real, hi: real)
    requires |history| >= 1 && AllWithin(history, lo, hi)
    ensures lo <= RecentWeightedMean(history) <= hi
  {
    var recent := Last(history, 8);
    LastWithin(history, history[0], 8, lo, hi);
    var ws := RecencyWeights(|recent|);
    RecencyWeightsPositiveSum(|recent|);
    WeightedAverageBounds(recent, ws, lo, hi);
  }

  // ---------------------------------------------------------------------------
  // Stress pattern and context modifiers
  // ---------------------------------------------------------------------------

  /** The buffer patterns; Steady is the one the analyzer reports as 'stable'. */
  datatype Pattern = Steady | Escalating | Recovering | Volatile

  /**
    * Fewer than 20 buffered scores: stable. Otherwise, over the last 30
    * (or fewer): volatile when the standard deviation exceeds 0.15 (variance
    * above 0.0225), else escalating / recovering when the mean of the last
    * ten exceeds / falls below the mean of the first ten by more than 0.12.
    */
  function DetectPattern(buffer: seq<real>): (p: Pattern)
    ensures |buffer| < 20 ==> p == Steady
  {
    if |buffer| < 20 then Steady
    else
      var recent := Last(buffer, 30);
      var avgFirst := Mean(recent[..10]);
      var avgLast := Mean(recent[|recent| - 10..]);
      if Variance(recent) > 0.0225 then Volatile
      else if avgLast > avgFirst + 0.12 then Escalating
      else if avgLast < avgFirst - 0.12 then Recovering
      else Steady
  }

  /**
    * With 20 or more buffered scores, the pattern is volatile exactly when
    * the standard deviation of the last thirty exceeds 0.15.
    */
  lemma VolatileIffDeviationAbove(buffer: seq<real>, deviation: real)
    requires |buffer| >= 20
    requires IsSquareRoot(deviation, Variance(Last(buffer, 30)))
    ensures DetectPattern(buffer) == Volatile <==> deviation > 0.15
  {
    RootAbove(deviation, Variance(Last(buffer, 30)), 0.15);
  }

  /** n scores rising by `step` from `start`. */
  function Ramp(start: real, step: real, n: nat): (r: seq<real>)
    ensures |r| == n && forall i :: 0 <= i < n ==> r[i] == start + step * i as real
  {
    seq(n, i requires 0 <= i < n => start + step * i as real)
  }

  /** A ramp of n scores is the ramp of n - 1 followed by one more step. */
  lemma RampPrefix(start: real, step: real, n: nat)
    requires n > 0
    ensures Ramp(start, step, n)[..n - 1] == Ramp(start, step, n - 1)
    ensures Ramp(start, step, n)[n - 1] == start + step * (n - 1) as real
  {
  }

  /** The sum of a ramp: n start + step n (n - 1) / 2. */
  lemma {:induction false} RampSum(start: real, step: real, n: nat)
    ensures Sum(Ramp(start, step, n)) == n as real * start + step * (n as real * (n as real - 1.0)) / 2.0
  {
    if n > 0 {
      RampPrefix(start, step, n);
      RampSum(start, step, n - 1);
    }
  }

  /**
    * The squared deviation of a ramp from m, with c = start - m:
    * n c^2 + c step n (n - 1) + step^2 (n - 1) n (2n - 1) / 6.
    */
  lemma {:induction false} RampSquaredDeviation(start: real, step: real, n: nat, m: real)
    ensures SquaredDeviation(Ramp(start, step, n), m) == RampSpread(start - m, step, n as real)
  {
    if n > 0 {
      var r := Ramp(start, step, n);
      RampPrefix(start, step, n);
      RampSquaredDeviation(start, step, n - 1, m);
      var j := (n - 1) as real;
      var d := r[n - 1] - m;
      assert SquaredDeviation(r, m) == SquaredDeviation(Ramp(start, step, n - 1), m) + d * d;
      RampSpreadStep(start - m, step, j, n as real, d, RampSpread(start - m, step, j), SquaredDeviation(r, m));
    }
  }

  /** n c^2 + c step n (n - 1) + step^2 (n - 1) n (2n - 1) / 6. */
  function RampSpread(c: real, step: real, k: real): real
  {
    k * c * c + c * step * (k * (k - 1.0)) + step * step * ((k - 1.0) * k * (2.0 * k - 1.0)) / 6.0
  }

  /** Adding the k-th term (c + step (k - 1))^2 to the spread of k - 1 terms gives the spread of k. */
  lemma RampSpreadStep(c: real, step: real, j: real, k: real, d: real, previous: real, total: real)
    requires k == j + 1.0 && d == c + step * j
    requires previous == RampSpread(c, step, j) && total == previous + d * d
    ensures total == RampSpread(c, step, k)
  {
    assert d * d == c * c + 2.0 * c * step * j + step * step * (j * j);
    assert j * c * c + c * c == k * c * c;
    assert c * step * (j * (j - 1.0)) + 2.0 * c * step * j == c * step * (k * j);
    assert (j - 1.0) * j * (2.0 * j - 1.0) + 6.0 * (j * j) == j * k * (2.0 * k - 1.0);
  }

  /**
    * Thirty scores rising steadily from 0.2 to 0.8: the last ten average
    * more than 0.12 above the first ten, yet the pattern is volatile, since
    * the standard deviation of the rise itself (about 0.18) exceeds 0.15 and
    * volatility is checked first.
    */
  lemma SteadyRiseIsVolatile()
    ensures var rise := Ramp(0.2, 0.6 / 29.0, 30);
            && rise[0] == 0.2 && rise[29] == 0.8
            && Mean(rise[20..]) > Mean(rise[..10]) + 0.12
            && DetectPattern(rise) == Volatile
  {
    var step := 0.6 / 29.0;
    var rise := Ramp(0.2, step, 30);
    assert Last(rise, 30) == rise;
    RampSum(0.2, step, 30);
    assert Mean(rise) == 0.5;
    RampSquaredDeviation(0.2, step, 30, 0.5);
    assert RampSpread(-0.3, step, 30.0) == 30.0 * 0.09 - 0.3 * step * 870.0 + step * step * 8555.0;
    assert Variance(rise) > 0.0225;
    assert rise[..10] == Ramp(0.2, step, 10);
    assert rise[20..] == Ramp(0.2 + 20.0 * step, step, 10);
    RampSum(0.2, step, 10);
    RampSum(0.2 + 20.0 * step, step, 10);
  }

  /**
    * An escalating pattern has a score among the last ten that exceeds a
    * score among the first ten by more than 0.12; a recovering one the
    * reverse.
    */
  lemma PatternWitness(buffer: seq<real>)
    requires DetectPattern(buffer) == Escalating || DetectPattern(buffer) == Recovering
    ensures var recent := Last(buffer, 30);
            exists i, j :: 0 <= i < 10 && |recent| - 10 <= j < |recent| &&
              if DetectPattern(buffer) == Escalating then recent[j] > recent[i] + 0.12
              else recent[j] < recent[i] - 0.12
  {
    var recent := Last(buffer, 30);
    var first, last := recent[..10], recent[|recent| - 10..];
    var m := |recent| - 10;
    MeanAttained(first);
    MeanAttained(last);
    if DetectPattern(buffer) == Escalating {
      var a :| 0 <= a < 10 && first[a] <= Mean(first);
      var d :| 0 <= d < 10 && last[d] >= Mean(last);
      assert recent[m + d] > recent[a] + 0.12;
    } else {
      var b :| 0 <= b < 10 && first[b] >= Mean(first);
      var c :| 0 <= c < 10 && last[c] <= Mean(last);
      assert recent[m + c] < recent[b] - 0.12;
    }
  }

  /** When every score of `upper` exceeds every score of `lower` by more than `gap`, so do their means. */
  lemma MeanGap(lower: seq<real>, upper: seq<real>, gap: real)
    requires |lower| > 0 && |upper| > 0
    requires forall i, j :: 0 <= i < |lower| && 0 <= j < |upper| ==> upper[j] > lower[i] + gap
    ensures Mean(upper) > Mean(lower) + gap
  {
    var hi, lo := Maximum(lower), Minimum(upper);
    var a :| 0 <= a < |lower| && lower[a] == hi;
    var d :| 0 <= d < |upper| && upper[d] == lo;
    assert upper[d] > lower[a] + gap;
    MeanBounds(lower, Minimum(lower), hi);
    MeanBounds(upper, lo, Maximum(upper));
  }

  /**
    * With 20 or more buffered scores and a standard deviation of at most
    * 0.15 over the last thirty, the pattern is escalating when every score
    * among the last ten exceeds every score among the first ten by more than
    * 0.12.
    */
  lemma RiseIsEscalating(buffer: seq<real>)
    requires |buffer| >= 20 && Variance(Last(buffer, 30)) <= 0.0225
    requires var recent := Last(buffer, 30);
             forall i, j :: 0 <= i < 10 && |recent| - 10 <= j < |recent| ==> recent[j] > recent[i] + 0.12
    ensures DetectPattern(buffer) == Escalating
  {
    var recent := Last(buffer, 30);
    var first, last := recent[..10], recent[|recent| - 10..];
    forall i, j | 0 <= i < 10 && 0 <= j < 10
      ensures last[j] > first[i] + 0.12
    {
      assert last[j] == recent[|recent| - 10 + j];
    }
    MeanGap(first, last, 0.12);
  }

  /**
    * The mirror of RiseIsEscalating: every score among the last ten below
    * every score among the first ten by more than 0.12 makes it recovering.
    */
  lemma FallIsRecovering(buffer: seq<real>)
    requires |buffer| >= 20 && Variance(Last(buffer, 30)) <= 0.0225
    requires var recent := Last(buffer, 30);
             forall i, j :: 0 <= i < 10 && |recent| - 10 <= j < |recent| ==> recent[j] < recent[i] - 0.12
    ensures DetectPattern(buffer) == Recovering
  {
    var recent := Last(buffer, 30);
    var first, last := recent[..10], recent[|recent| - 10..];
    forall j, i | 0 <= j < 10 && 0 <= i < 10
      ensures first[i] > last[j] + 0.12
    {
      assert last[j] == recent[|recent| - 10 + j];
    }
    MeanGap(last, first, 0.12);
  }

  /** A buffer of one repeated score is steady. */
  lemma ConstantBufferIsSteady(buffer: seq<real>, x: real)
    requires forall i :: 0 <= i < |buffer| ==> buffer[i] == x
    ensures DetectPattern(buffer) == Steady
  {
    if |buffer| >= 20 {
      var recent := Last(buffer, 30);
      ConstantVariance(recent, x);
      ConstantVariance(recent[..10], x);
      ConstantVariance(recent[|recent| - 10..], x);
    }
  }

  /**
    * Time-of-day modifier: +5% in the morning (6-9 h) during the first half
    * hour, -5% after lunch (13-15 h), +8% in the evening (18-22 h) after the
    * first hour.
    */
  function TimeOfDayFactor(hour: int, sessionMinutes: real): (f: real)
    ensures 0.95 <= f <= 1.08
  {
    if 6 <= hour <= 9 && sessionMinutes < 30.0 then 1.05
    else if 13 <= hour <= 15 then 0.95
    else if 18 <= hour <= 22 && sessionMinutes > 60.0 then 1.08
    else 1.0
  }

  /** Session fatigue: +0.1% per minute beyond 90 minutes, at most +15%. */
  function FatigueFactor(sessionMinutes: real): (f: real)
    ensures 1.0 <= f <= 1.15
  {
    if sessionMinutes > 90.0 then Min(1.0 + (sessionMinutes - 90.0) * 0.001, 1.15) else 1.0
  }

  /** Fatigue never decreases as the session goes on. */
  lemma FatigueGrows(m1: real, m2: real)
    requires m1 <= m2
    ensures FatigueFactor(m1) <= FatigueFactor(m2)
  {
  }

  /** With 30 or more buffered scores: +10% for an escalating pattern, -8% for a recovering one. */
  function PatternFactor(buffer: seq<real>): (f: real)
    ensures 0.92 <= f <= 1.10
    ensures |buffer| < 30 ==> f == 1.0
  {
    if |buffer| >= 30 then
      match DetectPattern(buffer)
      case Escalating => 1.10
      case Recovering => 0.92
      case _ => 1.0
    else 1.0
  }

  /** The three context modifiers applied in turn to the score, clamped to [0, 1]. */
  function ContextAdjust(score: real, sessionMinutes: real, hour: int, buffer: seq<real>): (r: real)
    ensures 0.0 <= r <= 1.0
  {
    Clip(Modulate(score, TimeOfDayFactor(hour, sessionMinutes), sessionMinutes, PatternFactor(buffer)), 0.0, 1.0)
  }

  /** Time-of-day factor, then fatigue past 90 minutes, then pattern factor. */
  function Modulate(score: real, timeFactor: real, sessionMinutes: real, patternFactor: real): real
  {
    var adjusted := score * timeFactor;
    var adjusted' := if sessionMinutes > 90.0 then adjusted * FatigueFactor(sessionMinutes) else adjusted;
    adjusted' * patternFactor
  }

  lemma ModulateMonotone(s: real, t: real, timeFactor: real, sessionMinutes: real, patternFactor: real)
    requires s <= t && timeFactor >= 0.0 && patternFactor >= 0.0
    ensures Modulate(s, timeFactor, sessionMinutes, patternFactor) <= Modulate(t, timeFactor, sessionMinutes, patternFactor)
  {
    MulMono(s, t, timeFactor);
    var sa, ta := s * timeFactor, t * timeFactor;
    if sessionMinutes > 90.0 {
      var f := FatigueFactor(sessionMinutes);
      var sf, tf := sa * f, ta * f;
      MulMono(sa, ta, f);
      assert sf <= tf;
      MulMono(sf, tf, patternFactor);
    } else {
      MulMono(sa, ta, patternFactor);
    }
  }

  /** A higher score never comes out of the context adjustment lower. */
  lemma ContextAdjustMonotone(s: real, t: real, sessionMinutes: real, hour: int, buffer: seq<real>)
    requires s <= t
    ensures ContextAdjust(s, sessionMinutes, hour, buffer) <= ContextAdjust(t, sessionMinutes, hour, buffer)
  {
    ModulateMonotone(s, t, TimeOfDayFactor(hour, sessionMinutes), sessionMinutes, PatternFactor(buffer));
  }

  /**
    * Outside the three daily windows, in the first 90 minutes and with fewer
    * than 30 buffered scores, the context leaves a score in [0, 1] untouched.
    */
  lemma NeutralContextKeepsScore(score: real, sessionMinutes: real, hour: int, buffer: seq<real>)
    requires 0.0 <= score <= 1.0
    requires !(6 <= hour <= 9) && !(13 <= hour <= 15) && !(18 <= hour <= 22)
    requires sessionMinutes <= 90.0 && |buffer| < 30
    ensures ContextAdjust(score, sessionMinutes, hour, buffer) == score
  {
  }

  // ---------------------------------------------------------------------------
  // Level with hysteresis
  // ---------------------------------------------------------------------------

  /**
    * Before bucketing, a score within 0.05 of the last recorded score is
    * replaced by the mean of the two.
    */
  function HysteresisLevel(history: seq<real>, score: real): Level
  {
    var s := if |history| > 0 && Abs(score - history[|history| - 1]) < 0.05
             then (score + history[|history| - 1]) / 2.0 else score;
    LevelOf(s)
  }

  /**
    * Far from the last score (or with no history) the level is the plain
    * bucket of the score, as in the baseline analyzer; near it, the level lies
    * between the buckets of the two scores.
    */
  lemma HysteresisBetween(history: seq<real>, score: real)
    ensures |history| == 0 || Abs(score - history[|history| - 1]) >= 0.05 ==>
              HysteresisLevel(history, score) == LevelOf(score)
    ensures |history| > 0 ==>
              var last := history[|history| - 1];
              && Rank(LevelOf(Min(score, last))) <= Rank(HysteresisLevel(history, score))
              && Rank(HysteresisLevel(history, score)) <= Rank(LevelOf(Max(score, last)))
  {
    if |history| > 0 {
      var last := history[|history| - 1];
      var s := if Abs(score - last) < 0.05 then (score + last) / 2.0 else score;
      LevelOfMonotone(Min(score, last), s);
      LevelOfMonotone(s, Max(score, last));
    }
  }

  /** Re-bucketing the last recorded score against itself gives its plain bucket. */
  lemma HysteresisOfLastScore(history: seq<real>)
    requires |history| > 0
    ensures HysteresisLevel(history, history[|history| - 1]) == LevelOf(history[|history| - 1])
  {
  }

  // ---------------------------------------------------------------------------
  // Events, recovery, statistics
  // ---------------------------------------------------------------------------

  datatype StressEvent = StressEvent(time: real, score: real, level: Level)
  datatype RecoveryPeriod = RecoveryPeriod(time: real, duration: nat)

  /** The events less than an hour (3600 s) old, in their original order. */
  function RecentEvents(events: seq<StressEvent>, now: real): (r: seq<StressEvent>)
    ensures |r| <= |events|
    ensures forall e :: e in r <==> e in events && now - e.time < 3600.0
  {
    if |events| == 0 then []
    else
      var rest := RecentEvents(events[..|events| - 1], now);
      var e := events[|events| - 1];
      assert events == events[..|events| - 1] + [e];
      if now - e.time < 3600.0 then rest + [e] else rest
  }

  /** How many scores lie below the threshold. */
  function CountBelow(s: seq<real>, threshold: real): (n: nat)
    ensures n <= |s|
  {
    if |s| == 0 then 0
    else CountBelow(s[..|s| - 1], threshold) + (if s[|s| - 1] < threshold then 1 else 0)
  }

  /** At least five recorded scores and the last five all below 0.35. */
  predicate InRecovery(history: seq<real>)
  {
    |history| >= 5 && forall i :: |history| - 5 <= i < |history| ==> history[i] < 0.35
  }

  /**
    * The event list after a cycle: a score above 0.75 is recorded as an event
    * at `now` and the list is cut to the last hour; otherwise it is kept.
    */
  function TrackedEvents(events: seq<StressEvent>, score: real, level: Level, now: real): (r: seq<StressEvent>)
    ensures score > 0.75 ==> StressEvent(now, score, level) in r
    ensures score > 0.75 ==> forall e :: e in r <==> (e in events || e == StressEvent(now, score, level)) && now - e.time < 3600.0
    ensures score <= 0.75 ==> r == events
  {
    if score > 0.75 then RecentEvents(events + [StressEvent(now, score, level)], now) else events
  }

  /**
    * The recovery list after a cycle, given the history that already holds
    * the cycle's score: in recovery, a period is recorded at `now` whose
    * duration is the number of recorded scores below 0.35.
    */
  function TrackedRecoveries(periods: seq<RecoveryPeriod>, history: seq<real>, now: real): seq<RecoveryPeriod>
  {
    if InRecovery(history) then periods + [RecoveryPeriod(now, CountBelow(history, 0.35))] else periods
  }

  /** A sequence whose last k scores lie below the threshold counts at least k of them. */
  lemma {:induction false} CountBelowTail(s: seq<real>, threshold: real, k: nat)
    requires k <= |s|
    requires forall i :: |s| - k <= i < |s| ==> s[i] < threshold
    ensures CountBelow(s, threshold) >= k
  {
    if k > 0 {
      CountBelowTail(s[..|s| - 1], threshold, k - 1);
    }
  }

  /**
    * A recovery period is recorded exactly when the history is in recovery,
    * at `now`, and its duration counts at least the last five scores.
    */
  lemma TrackedRecoveryDuration(periods: seq<RecoveryPeriod>, history: seq<real>, now: real)
    ensures var r := TrackedRecoveries(periods, history, now);
            && (InRecovery(history) <==> |r| == |periods| + 1)
            && (!InRecovery(history) ==> r == periods)
            && (InRecovery(history) ==> r[..|periods|] == periods && r[|periods|].time == now
                                        && 5 <= r[|periods|].duration <= |history|)
  {
    if InRecovery(history) {
      CountBelowTail(history, 0.35, 5);
    }
  }

  datatype TimePeriod = Morning | Afternoon | Evening | Night

  function TimePeriodOf(hour: int): TimePeriod
  {
    if 6 <= hour < 12 then Morning
    else if 12 <= hour < 17 then Afternoon
    else if 17 <= hour < 22 then Evening
    else Night
  }

  /** Mean face and speech confidence; 0.5 while either history is empty. */
  function OverallConfidence(faceConfs: seq<real>, speechConfs: seq<real>): (c: real)
    ensures faceConfs == [] || speechConfs == [] ==> c == 0.5
  {
    if |faceConfs| == 0 || |speechConfs| == 0 then 0.5
    else (Mean(faceConfs) + Mean(speechConfs)) / 2.0
  }

  /** With confidences in [0, 1] the overall confidence is in [0, 1] and between the two means. */
  lemma OverallConfidenceBounds(faceConfs: seq<real>, speechConfs: seq<real>)
    requires AllWithin(faceConfs, 0.0, 1.0) && AllWithin(speechConfs, 0.0, 1.0)
    ensures 0.0 <= OverallConfidence(faceConfs, speechConfs) <= 1.0
    ensures faceConfs != [] && speechConfs != [] ==>
              Min(Mean(faceConfs), Mean(speechConfs)) <= OverallConfidence(faceConfs, speechConfs)
                                                      <= Max(Mean(faceConfs), Mean(speechConfs))
  {
    if faceConfs != [] && speechConfs != [] {
      MeanBounds(faceConfs, 0.0, 1.0);
      MeanBounds(speechConfs, 0.0, 1.0);
    }
  }

  datatype ContextInfo = ContextInfo(
    sessionMinutes: real,
    timeOfDay: TimePeriod,
    hour: int,
    pattern: Option<Pattern>,  // None: 'unknown', fewer than 20 buffered scores
    eventsLastHour: nat,
    recoveryPeriods: nat)

  datatype Statistics = Statistics(
    averageStress: real,
    currentLevel: Level,
    totalSamples: nat,
    distribution: map<Level, nat>,
    trend: Trend,
    maxStress: Option<real>,    // the four options are absent from the empty-history record
    minStress: Option<real>,
    stdDeviation: Option<real>,
    pattern: Option<Pattern>,
    confidence: real,
    context: Option<ContextInfo>)

  // ---------------------------------------------------------------------------
  // The analyzer
  // ---------------------------------------------------------------------------

  /**
    * The score of one analysis cycle given the past scores and the pattern
    * buffer: fuse the two modality scores, smooth against the past scores
    * and, when context is enabled, apply the context modifiers.
    */
  function CycleScore(history: seq<real>, buffer: seq<real>,
                      faceEmotion: EmotionLabel, faceConfidence: real,
                      speechEmotion: EmotionLabel, speechConfidence: real,
                      enableContext: bool, sessionMinutes: real, hour: int): real
  {
    var combined := Fuse(history, EmotionStressScore(faceEmotion, faceConfidence), faceConfidence,
                         EmotionStressScore(speechEmotion, speechConfidence), speechConfidence);
    var smoothed := SmoothScore(history, combined);
    if enableContext then ContextAdjust(smoothed, sessionMinutes, hour, buffer) else smoothed
  }

  /** With past scores in [0, 1], every cycle's score is in [0, 1]. */
  lemma CycleScoreWithinUnit(history: seq<real>, buffer: seq<real>,
                             faceEmotion: EmotionLabel, faceConfidence: real,
                             speechEmotion: EmotionLabel, speechConfidence: real,
                             enableContext: bool, sessionMinutes: real, hour: int)
    requires AllWithin(history, 0.0, 1.0)
    ensures 0.0 <= CycleScore(history, buffer, faceEmotion, faceConfidence, speechEmotion, speechConfidence,
                              enableContext, sessionMinutes, hour) <= 1.0
  {
    FuseWithinUnit(history, EmotionStressScore(faceEmotion, faceConfidence), faceConfidence,
                   EmotionStressScore(speechEmotion, speechConfidence), speechConfidence);
  }

  /** The per-cycle breakdown analyze_stress returns beside the level and the score. */
  datatype Details = Details(
    faceScore: real,
    speechScore: real,
    combinedScore: real,
    smoothedScore: real,
    level: Level,
    levelNumeric: nat,
    faceWeight: real,
    speechWeight: real)

  /**
    * Everything the analyzer changes from cycle to cycle: the bounded label,
    * score and confidence histories, the session start, the event and
    * recovery lists, the fusion weights and the one-minute pattern buffer.
    */
  datatype AnalyzerState = AnalyzerState(
    faceEmotionHistory: seq<(EmotionLabel, real)>,
    speechEmotionHistory: seq<(EmotionLabel, real)>,
    stressHistory: seq<real>,
    faceConfidenceHistory: seq<real>,
    speechConfidenceHistory: seq<real>,
    sessionStartTime: real,
    stressEvents: seq<StressEvent>,
    recoveryPeriods: seq<RecoveryPeriod>,
    faceWeight: real,
    speechWeight: real,
    stressPatternBuffer: seq<real>)

  /** The pattern buffer holds one minute of scores at one per second. */
  const PatternCapacity: nat := 60

  /**
    * The deques never exceed their capacity, every recorded score is in
    * [0, 1] and the weights sum to 1.
    */
  predicate WellFormed(st: AnalyzerState, historySize: nat)
  {
    && |st.faceEmotionHistory| <= historySize
    && |st.speechEmotionHistory| <= historySize
    && |st.stressHistory| <= historySize
    && |st.faceConfidenceHistory| <= historySize
    && |st.speechConfidenceHistory| <= historySize
    && |st.stressPatternBuffer| <= PatternCapacity
    && AllWithin(st.stressHistory, 0.0, 1.0)
    && AllWithin(st.stressPatternBuffer, 0.0, 1.0)
    && st.faceWeight + st.speechWeight == 1.0
  }

  /** A fresh analyzer: empty histories and lists, weights 0.6 / 0.4, session started at `now`. */
  function InitialState(now: real): (st: AnalyzerState)
    ensures forall historySize: nat :: WellFormed(st, historySize)
    ensures st.sessionStartTime == now && st.faceWeight == 0.6 && st.speechWeight == 0.4
  {
    AnalyzerState([], [], [], [], [], now, [], [], 0.6, 0.4, [])
  }

  /** reset_history: every history and list emptied and the session restarted; the weights stay. */
  function ResetState(st: AnalyzerState, now: real): (r: AnalyzerState)
    ensures forall historySize: nat :: st.faceWeight + st.speechWeight == 1.0 ==> WellFormed(r, historySize)
    ensures r.faceWeight == st.faceWeight && r.speechWeight == st.speechWeight
    ensures r == InitialState(now).(faceWeight := st.faceWeight, speechWeight := st.speechWeight)
  {
    st.(faceEmotionHistory := [], speechEmotionHistory := [], stressHistory := [],
        faceConfidenceHistory := [], speechConfidenceHistory := [], stressPatternBuffer := [],
        stressEvents := [], recoveryPeriods := [], sessionStartTime := now)
  }

  /** Resetting twice is resetting once, at the later time. */
  lemma ResetTwiceIsResetOnce(st: AnalyzerState, t1: real, t2: real)
    ensures ResetState(ResetState(st, t1), t2) == ResetState(st, t2)
  {
  }

  /** One observation of each modality, as analyze_stress receives them. */
  datatype Observation = Observation(
    faceEmotion: EmotionLabel,
    faceConfidence: real,
    speechEmotion: EmotionLabel,
    speechConfidence: real)

  /**
    * What analyze_stress records once the cycle's score and level are known:
    * the adapted weights, both observations, the score in the history and
    * the pattern buffer, and the tracked events and recovery periods.
    */
  function Commit(st: AnalyzerState, historySize: nat, obs: Observation, score: real, level: Level, now: real): AnalyzerState
    requires st.faceWeight + st.speechWeight == 1.0
  {
    var weights := AdaptedWeights(st.faceWeight, st.speechWeight, obs.faceConfidence, obs.speechConfidence);
    var history := Last(st.stressHistory + [score], historySize);
    AnalyzerState(
      Last(st.faceEmotionHistory + [(obs.faceEmotion, obs.faceConfidence)], historySize),
      Last(st.speechEmotionHistory + [(obs.speechEmotion, obs.speechConfidence)], historySize),
      history,
      Last(st.faceConfidenceHistory + [obs.faceConfidence], historySize),
      Last(st.speechConfidenceHistory + [obs.speechConfidence], historySize),
      st.sessionStartTime,
      TrackedEvents(st.stressEvents, score, level, now),
      TrackedRecoveries(st.recoveryPeriods, history, now),
      weights.0, weights.1,
      Last(st.stressPatternBuffer + [score], PatternCapacity))
  }

  /** Recording a score in [0, 1] keeps the state well formed. */
  lemma CommitKeepsWellFormed(st: AnalyzerState, historySize: nat, obs: Observation, score: real, level: Level, now: real)
    requires WellFormed(st, historySize) && 0.0 <= score <= 1.0
    ensures WellFormed(Commit(st, historySize, obs, score, level, now), historySize)
  {
    LastWithin(st.stressHistory, score, historySize, 0.0, 1.0);
    LastWithin(st.stressPatternBuffer, score, PatternCapacity, 0.0, 1.0);
  }

  /**
    * Each history gains the cycle's observation or score as its newest entry
    * (for a positive capacity), the stress history otherwise keeps its newest
    * entries, and the session start is unchanged.
    */
  lemma CommitRecordsObservations(st: AnalyzerState, historySize: nat, obs: Observation, score: real, level: Level, now: real)
    requires st.faceWeight + st.speechWeight == 1.0
    requires historySize > 0
    ensures var n := Commit(st, historySize, obs, score, level, now);
            && n.stressHistory != [] && n.stressHistory[|n.stressHistory| - 1] == score
            && n.stressHistory[..|n.stressHistory| - 1] == Last(st.stressHistory, |n.stressHistory| - 1)
            && (|st.stressHistory| < historySize ==> n.stressHistory == st.stressHistory + [score])
            && n.stressPatternBuffer[|n.stressPatternBuffer| - 1] == score
            && n.faceEmotionHistory[|n.faceEmotionHistory| - 1] == (obs.faceEmotion, obs.faceConfidence)
            && n.speechEmotionHistory[|n.speechEmotionHistory| - 1] == (obs.speechEmotion, obs.speechConfidence)
            && n.faceConfidenceHistory[|n.faceConfidenceHistory| - 1] == obs.faceConfidence
            && n.speechConfidenceHistory[|n.speechConfidenceHistory| - 1] == obs.speechConfidence
            && n.sessionStartTime == st.sessionStartTime
  {
    var n := Commit(st, historySize, obs, score, level, now);
    LastAppend(st.stressHistory, score, historySize);
    LastAppend(st.stressPatternBuffer, score, PatternCapacity);
    LastAppend(st.faceEmotionHistory, (obs.faceEmotion, obs.faceConfidence), historySize);
    LastAppend(st.speechEmotionHistory, (obs.speechEmotion, obs.speechConfidence), historySize);
    LastAppend(st.faceConfidenceHistory, obs.faceConfidence, historySize);
    LastAppend(st.speechConfidenceHistory, obs.speechConfidence, historySize);
    var h := st.stressHistory + [score];
    var m := |n.stressHistory|;
    assert n.stressHistory == h[|h| - m..];
    assert n.stressHistory[..m - 1] == st.stressHistory[|st.stressHistory| - (m - 1)..];
  }

  /**
    * Weights after a cycle: with non-negative confidences, one of them above
    * 0.3, the face weight lies in [0.5, 0.8] and is at least 0.65 exactly
    * when the face is at least as confident; otherwise the weights stay.
    */
  lemma CommitAdaptsWeights(st: AnalyzerState, historySize: nat, obs: Observation, score: real, level: Level, now: real)
    requires st.faceWeight + st.speechWeight == 1.0
    requires obs.faceConfidence >= 0.0 && obs.speechConfidence >= 0.0
    ensures var n := Commit(st, historySize, obs, score, level, now);
            && n.faceWeight + n.speechWeight == 1.0
            && (obs.faceConfidence > 0.3 || obs.speechConfidence > 0.3 ==>
                  && 0.5 <= n.faceWeight <= 0.8
                  && (n.faceWeight >= 0.65 <==> obs.faceConfidence >= obs.speechConfidence))
            && (!(obs.faceConfidence > 0.3 || obs.speechConfidence > 0.3) ==>
                  n.faceWeight == st.faceWeight && n.speechWeight == st.speechWeight)
  {
    if obs.faceConfidence > 0.3 || obs.speechConfidence > 0.3 {
      AdaptedFaceWeightRange(st.faceWeight, st.speechWeight, obs.faceConfidence, obs.speechConfidence);
    }
  }

  /**
    * Events and recovery after a cycle: a score above 0.75 is recorded and
    * every kept event is less than an hour old, a lower score leaves the
    * events alone; a recovery period is added exactly when the updated
    * history is in recovery, lasting at least five scores.
    */
  lemma CommitTracksEvents(st: AnalyzerState, historySize: nat, obs: Observation, score: real, level: Level, now: real)
    requires st.faceWeight + st.speechWeight == 1.0
    ensures var n := Commit(st, historySize, obs, score, level, now);
            && (score > 0.75 ==>
                  && StressEvent(now, score, level) in n.stressEvents
                  && forall e :: e in n.stressEvents ==> now - e.time < 3600.0)
            && (score <= 0.75 ==> n.stressEvents == st.stressEvents)
            && (InRecovery(n.stressHistory) <==> |n.recoveryPeriods| == |st.recoveryPeriods| + 1)
            && (InRecovery(n.stressHistory) ==> 5 <= n.recoveryPeriods[|st.recoveryPeriods|].duration)
            && (!InRecovery(n.stressHistory) ==> n.recoveryPeriods == st.recoveryPeriods)
  {
    var n := Commit(st, historySize, obs, score, level, now);
    TrackedRecoveryDuration(st.recoveryPeriods, n.stressHistory, now);
  }

  /**
    * Recent average, bucket of the newest score, spread and pattern, as
    * get_stress_statistics reports them. `deviation` is the standard
    * deviation of the last thirty scores, a square root the model does not
    * compute.
    */
  function StatisticsOf(st: AnalyzerState, enableContext: bool, now: real, hour: int, deviation: real): (s: Statistics)
    requires st.stressHistory != [] ==> IsSquareRoot(deviation, Variance(Last(st.stressHistory, 30)))
    ensures st.stressHistory == [] ==>
              s == Statistics(0.3, Calm, 0, map[], Stable, None, None, None, None, 0.5, None)
    ensures st.stressHistory != [] ==>
              var recent := Last(st.stressHistory, 30);
              && s.averageStress == Mean(recent)
              && s.minStress == Some(Minimum(recent)) && s.maxStress == Some(Maximum(recent))
              && s.trend == HalfTrend(recent, 10, 0.12)
              && s.distribution == Distribution(seq(|recent|, i requires 0 <= i < |recent| => HysteresisLevel(st.stressHistory, recent[i])))
              && s.totalSamples == |st.stressHistory|
              && s.minStress.Some? && s.maxStress.Some?
              && s.minStress.value <= s.averageStress <= s.maxStress.value
              && (AllWithin(st.stressHistory, 0.0, 1.0) ==> 0.0 <= s.averageStress <= 1.0)
              && s.currentLevel == HysteresisLevel(st.stressHistory, st.stressHistory[|st.stressHistory| - 1])
              && s.stdDeviation.Some?
              && IsSquareRoot(s.stdDeviation.value, Variance(Last(st.stressHistory, 30)))
              && s.pattern == Some(DetectPattern(st.stressPatternBuffer))
              && (enableContext <==> s.context.Some?)
  {
    if st.stressHistory == [] then
      Statistics(0.3, Calm, 0, map[], Stable, None, None, None, None, 0.5, None)
    else
      var history := st.stressHistory;
      var recent := Last(history, 30);
      var levels := seq(|recent|, i requires 0 <= i < |recent| => HysteresisLevel(history, recent[i]));
      var lo, hi := Minimum(recent), Maximum(recent);
      assert AllWithin(recent, lo, hi);
      MeanBounds(recent, lo, hi);
      assert AllWithin(history, 0.0, 1.0) ==> 0.0 <= lo && hi <= 1.0;
      Statistics(Mean(recent), HysteresisLevel(history, recent[|recent| - 1]), |history|,
                 Distribution(levels), HalfTrend(recent, 10, 0.12), Some(hi), Some(lo), Some(deviation),
                 Some(DetectPattern(st.stressPatternBuffer)),
                 OverallConfidence(st.faceConfidenceHistory, st.speechConfidenceHistory),
                 if enableContext then Some(ContextInfoOf(st, now, hour)) else None)
  }

  /** Session minutes, time period, pattern (once 20 scores are buffered) and list sizes. */
  function ContextInfoOf(st: AnalyzerState, now: real, hour: int): (c: ContextInfo)
    ensures c.pattern.Some? <==> |st.stressPatternBuffer| >= 20
    ensures c.eventsLastHour == |st.stressEvents| && c.recoveryPeriods == |st.recoveryPeriods|
  {
    ContextInfo((now - st.sessionStartTime) / 60.0, TimePeriodOf(hour), hour,
                if |st.stressPatternBuffer| >= 20 then Some(DetectPattern(st.stressPatternBuffer)) else None,
                |st.stressEvents|, |st.recoveryPeriods|)
  }

  class StressAnalyzer {
    const historySize: nat
    const enableContext: bool
    /** The analyzer's mutable attributes, held as one record. */
    var state: AnalyzerState

    ghost predicate Valid()
      reads this
    {
      WellFormed(state, historySize)
    }

    constructor (historySize: nat, enableContext: bool, now: real)
      ensures Valid()
      ensures this.historySize == historySize && this.enableContext == enableContext
      ensures state == InitialState(now)
    {
      this.historySize := historySize;
      this.enableContext := enableContext;
      state := InitialState(now);
    }

    /**
      * One analysis cycle at wall-clock time `now` and hour `hour`: the score
      * and the level are taken from the state before the cycle, then the
      * cycle is recorded.
      */
    method AnalyzeStress(faceEmotion: EmotionLabel, faceConfidence: real,
                         speechEmotion: EmotionLabel, speechConfidence: real,
                         now: real, hour: int)
      returns (level: Level, score: real, details: Details)
      requires Valid()
      modifies this
      ensures Valid()
      ensures score == CycleScore(old(state).stressHistory, old(state).stressPatternBuffer,
                                  faceEmotion, faceConfidence, speechEmotion, speechConfidence,
                                  enableContext, (now - old(state).sessionStartTime) / 60.0, hour)
      ensures 0.0 <= score <= 1.0
      ensures level == HysteresisLevel(old(state).stressHistory, score)
      ensures state == Commit(old(state), historySize,
                              Observation(faceEmotion, faceConfidence, speechEmotion, speechConfidence),
                              score, level, now)
      ensures details.level == level && details.smoothedScore == score && details.levelNumeric == Rank(level)
      ensures details.faceWeight == state.faceWeight && details.speechWeight == state.speechWeight
    {
      var st := state;
      var obs := Observation(faceEmotion, faceConfidence, speechEmotion, speechConfidence);
      var minutes := (now - st.sessionStartTime) / 60.0;
      var faceScore := EmotionStressScore(faceEmotion, faceConfidence);
      var speechScore := EmotionStressScore(speechEmotion, speechConfidence);
      var combined := Fuse(st.stressHistory, faceScore, faceConfidence, speechScore, speechConfidence);
      score := CycleScore(st.stressHistory, st.stressPatternBuffer, faceEmotion, faceConfidence,
                          speechEmotion, speechConfidence, enableContext, minutes, hour);
      CycleScoreWithinUnit(st.stressHistory, st.stressPatternBuffer, faceEmotion, faceConfidence,
                           speechEmotion, speechConfidence, enableContext, minutes, hour);
      level := HysteresisLevel(st.stressHistory, score);
      CommitKeepsWellFormed(st, historySize, obs, score, level, now);
      state := Commit(st, historySize, obs, score, level, now);
      NumericOfLevelName(level);
      details := Details(faceScore, speechScore, combined, score, level, NumericOfName(LevelName(level)),
                         state.faceWeight, state.speechWeight);
    }

    /**
      * The statistics record at wall-clock time `now` and hour `hour`, given
      * the standard deviation of the last thirty scores.
      */
    function GetStressStatistics(now: real, hour: int, deviation: real): Statistics
      requires state.stressHistory != [] ==> IsSquareRoot(deviation, Variance(Last(state.stressHistory, 30)))
      reads this
    {
      StatisticsOf(state, enableContext, now, hour, deviation)
    }

    /** Empties all eight histories and lists and restarts the session clock at `now`. */
    method ResetHistory(now: real)
      requires Valid()
      modifies this
      ensures Valid()
      ensures state == ResetState(old(state), now)
    {
      state := ResetState(state, now);
    }
  }
}
