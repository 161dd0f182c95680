// The baseline stress analyzer (stress_analyzer.py): fixed 0.6 / 0.4 face and
// speech weights, a two-alpha smoother over the last five scores, bucketing
// without hysteresis and a 0.1-margin trend.

module StressBaseline {

  import opened Common
  import opened StressLevels

  /** The baseline emotion-to-stress table, 0.4 for labels it does not list (case-sensitive). */
  function BaseStress(emotion: string): (b: real)
    ensures 0.1 <= b <= 0.9
    ensures emotion !in {"angry", "fear", "sad", "disgust", "surprise", "neutral", "happy"} ==> b == 0.4
  {
    if emotion == "angry" then 0.9
    else if emotion == "fear" then 0.85
    else if emotion == "sad" then 0.75
    else if emotion == "disgust" then 0.7
    else if emotion == "surprise" then 0.5
    else if emotion == "neutral" then 0.3
    else if emotion == "happy" then 0.1
    else 0.4
  }

  /**
    * Per-modality stress score: 0.3 when the label is missing or the
    * confidence is below 0.2, otherwise the table value pulled toward 0.3
    * by (1 - confidence), clamped to [0, 1].
    */
  function EmotionStressScore(emotion: EmotionLabel, confidence: real): (r: real)
    ensures 0.0 <= r <= 1.0
    ensures Missing(emotion) || confidence < 0.2 ==> r == 0.3
  {
    if Missing(emotion) || confidence < 0.2 then 0.3
    else Clip(BaseStress(emotion.value) * confidence + 0.3 * (1.0 - confidence), 0.0, 1.0)
  }

  /**
    * For a confidence in [0.2, 1] the score lies between the neutral 0.3 and
    * the label's table value, and reaches the table value at confidence 1.
    */
  lemma ScoreBetweenNeutralAndTable(emotion: string, confidence: real)
    requires emotion != "" && 0.2 <= confidence <= 1.0
    ensures var r := EmotionStressScore(Some(emotion), confidence);
            Min(0.3, BaseStress(emotion)) <= r <= Max(0.3, BaseStress(emotion))
    ensures confidence == 1.0 ==> EmotionStressScore(Some(emotion), confidence) == BaseStress(emotion)
  {
    var b := BaseStress(emotion);
    var x := b * confidence + 0.3 * (1.0 - confidence);
    assert x - 0.3 == (b - 0.3) * confidence;
    if b >= 0.3 {
      assert 0.0 <= (b - 0.3) * confidence <= b - 0.3;
    } else {
      assert b - 0.3 <= (b - 0.3) * confidence <= 0.0;
    }
  }

  /** At equal confidence, a label with a higher table value never scores lower. */
  lemma ScoreFollowsTable(e1: string, e2: string, confidence: real)
    requires e1 != "" && e2 != "" && 0.2 <= confidence
    requires BaseStress(e1) <= BaseStress(e2)
    ensures EmotionStressScore(Some(e1), confidence) <= EmotionStressScore(Some(e2), confidence)
  {
    var b1, b2 := BaseStress(e1), BaseStress(e2);
    assert b1 * confidence <= b2 * confidence;
  }

  /** The fixed 0.6 / 0.4 face / speech combination. */
  function Combined(faceScore: real, speechScore: real): (r: real)
    ensures 0.0 <= faceScore <= 1.0 && 0.0 <= speechScore <= 1.0 ==> 0.0 <= r <= 1.0
    ensures Min(faceScore, speechScore) <= r <= Max(faceScore, speechScore)
  {
    faceScore * 0.6 + speechScore * 0.4
  }

  /**
    * Two-alpha smoothing: with fewer than two past scores the current score
    * passes through; otherwise it is blended with the mean of the last five
    * (or fewer) past scores, with weight 0.7 when it is above that mean and
    * 0.4 otherwise.
    */
  function Smooth(history: seq<real>, current: real): real
  {
    if |history| < 2 then current
    else
      var avg := Mean(Last(history, 5));
      var alpha := if current > avg then 0.7 else 0.4;
      alpha * current + (1.0 - alpha) * avg
  }

  /**
    * The smoothed score lies between the current score and the recent mean,
    * moving 70% of the way toward a rise and 40% toward a fall.
    */
  lemma SmoothBetweenCurrentAndMean(history: seq<real>, current: real)
    requires |history| >= 2
    ensures var avg := Mean(Last(history, 5));
            var r := Smooth(history, current);
            && Min(current, avg) <= r <= Max(current, avg)
            && (current > avg ==> r - avg == 0.7 * (current - avg))
            && (current <= avg ==> avg - r == 0.4 * (avg - current))
  {
  }

  /** Smoothing keeps scores in [0, 1] when the current score and the history are. */
  lemma SmoothWithinUnit(history: seq<real>, current: real)
    requires AllWithin(history, 0.0, 1.0) && 0.0 <= current <= 1.0
    ensures 0.0 <= Smooth(history, current) <= 1.0
  {
    if |history| >= 2 {
      var recent := Last(history, 5);
      assert AllWithin(recent, 0.0, 1.0);
      MeanBounds(recent, 0.0, 1.0);
      SmoothBetweenCurrentAndMean(history, current);
    }
  }

  datatype Statistics = Statistics(
    averageStress: real,
    currentLevel: Level,
    totalSamples: nat,
    distribution: map<Level, nat>,
    trend: Trend,
    maxStress: Option<real>,  // absent from the empty-history record
    minStress: Option<real>)

  /**
    * Statistics over the last twenty scores: their mean, extremes, level
    * counts and half-against-half trend (five scores at least, margin 0.1);
    * an empty history gives the default record (average 0, CALM, no
    * samples, stable, no extremes).
    */
  function StatisticsOf(history: seq<real>): (st: Statistics)
    ensures history == [] ==> st == Statistics(0.0, Calm, 0, map[], Stable, None, None)
    ensures history != [] ==>
      var recent := Last(history, 20);
      && st.averageStress == Mean(recent)
      && st.minStress == Some(Minimum(recent)) && st.maxStress == Some(Maximum(recent))
      && st.trend == HalfTrend(recent, 5, 0.1)
      && st.distribution == Distribution(seq(|recent|, i requires 0 <= i < |recent| => LevelOf(recent[i])))
      && st.totalSamples == |history|
      && st.minStress.Some? && st.maxStress.Some?
      && st.minStress.value <= st.averageStress <= st.maxStress.value
      && st.currentLevel == LevelOf(history[|history| - 1])
  {
    if history == [] then Statistics(0.0, Calm, 0, map[], Stable, None, None)
    else
      var recent := Last(history, 20);
      var levels := seq(|recent|, i requires 0 <= i < |recent| => LevelOf(recent[i]));
      var lo, hi := Minimum(recent), Maximum(recent);
      assert AllWithin(recent, lo, hi);
      MeanBounds(recent, lo, hi);
      Statistics(Mean(recent), LevelOf(recent[|recent| - 1]), |history|,
                 Distribution(levels), HalfTrend(recent, 5, 0.1), Some(hi), Some(lo))
  }

  /** The per-cycle breakdown analyze_stress returns beside the level and the score. */
  datatype Details = Details(
    faceScore: real,
    speechScore: real,
    combinedScore: real,
    smoothedScore: real,
    level: Level,
    levelNumeric: nat)

  class StressAnalyzer {
    const historySize: nat
    const faceWeight: real
    const speechWeight: real
    var faceEmotionHistory: seq<(EmotionLabel, real)>
    var speechEmotionHistory: seq<(EmotionLabel, real)>
    var stressHistory: seq<real>

    ghost predicate Valid()
      reads this
    {
      && |faceEmotionHistory| <= historySize
      && |speechEmotionHistory| <= historySize
      && |stressHistory| <= historySize
      && AllWithin(stressHistory, 0.0, 1.0)
      && faceWeight == 0.6 && speechWeight == 0.4
    }

    constructor (historySize: nat)
      ensures Valid() && this.historySize == historySize
      ensures faceEmotionHistory == [] && speechEmotionHistory == [] && stressHistory == []
    {
      this.historySize := historySize;
      faceWeight, speechWeight := 0.6, 0.4;
      faceEmotionHistory, speechEmotionHistory, stressHistory := [], [], [];
    }

    /**
      * One analysis cycle: score both modalities, combine them 0.6 / 0.4,
      * record both observations, smooth against the past scores, bucket the
      * smoothed score and record it.
      */
    method AnalyzeStress(faceEmotion: EmotionLabel, faceConfidence: real, speechEmotion: EmotionLabel, speechConfidence: real)
      returns (level: Level, score: real, details: Details)
      requires Valid()
      modifies this
      ensures Valid()
      ensures var combined := Combined(EmotionStressScore(faceEmotion, faceConfidence),
                                       EmotionStressScore(speechEmotion, speechConfidence));
              score == Smooth(old(stressHistory), combined)
      ensures level == LevelOf(score)
      ensures details.level == level && details.smoothedScore == score && details.levelNumeric == Rank(level)
      ensures 0.0 <= score <= 1.0
      ensures stressHistory == Last(old(stressHistory) + [score], historySize)
      ensures faceEmotionHistory == Last(old(faceEmotionHistory) + [(faceEmotion, faceConfidence)], historySize)
      ensures speechEmotionHistory == Last(old(speechEmotionHistory) + [(speechEmotion, speechConfidence)], historySize)
    {
      var faceScore := EmotionStressScore(faceEmotion, faceConfidence);
      var speechScore := EmotionStressScore(speechEmotion, speechConfidence);
      var combined := faceScore * faceWeight + speechScore * speechWeight;
      assert combined == Combined(faceScore, speechScore);

      faceEmotionHistory := Last(faceEmotionHistory + [(faceEmotion, faceConfidence)], historySize);
      speechEmotionHistory := Last(speechEmotionHistory + [(speechEmotion, speechConfidence)], historySize);

      score := Smooth(stressHistory, combined);
      SmoothWithinUnit(stressHistory, combined);
      level := LevelOf(score);
      stressHistory := Last(stressHistory + [score], historySize);

      NumericOfLevelName(level);
      details := Details(faceScore, speechScore, combined, score, level, NumericOfName(LevelName(level)));
    }

    function GetStressStatistics(): Statistics
      reads this
    {
      StatisticsOf(stressHistory)
    }

    method ResetHistory()
      requires Valid()
      modifies this
      ensures Valid()
      ensures faceEmotionHistory == [] && speechEmotionHistory == [] && stressHistory == []
    {
      faceEmotionHistory, speechEmotionHistory, stressHistory := [], [], [];
    }
  }
}
