// Post-processing of the DeepFace-based face emotion detector: the majority
// vote over the last ten detections, the success and failure counters, the
// decayed fallback when no face is found, and the success rate it reports.
// DeepFace itself (face localisation and the emotion network) is an input:
// each call is handed the analysis DeepFace produced for the frame.

module FaceDetector {
  import opened Common

  /** emotion_history and confidence_history are deques of at most ten entries. */
  const HistoryCapacity: nat := 10
  /** The share of the history the majority must exceed to boost a label. */
  const MajorityShare: real := 0.5
  /** Below this confidence a label that goes against the majority is overruled. */
  const OverruleBelow: real := 0.6
  /** Fallback confidence factors: no face in the frame, and an error in the analysis. */
  const NoFaceDecay: real := 0.8
  const ErrorDecay: real := 0.5

  /** A face box (x, y, w, h) in pixels. */
  type Box = (int, int, int, int)

  /**
    * What DeepFace made of one frame: a face with its dominant emotion, that
    * emotion's score in percent and the face region (None when the region
    * dictionary is empty); no face; or an exception during the analysis.
    */
  datatype Analysis =
    | Face(dominant: string, score: real, region: Option<Box>)
    | NoFace
    | Failure

  /** What detect_emotion returns: the label, its confidence and the face box. */
  datatype Detection = Detection(emotion: EmotionLabel, confidence: real, box: Option<Box>)

  /**
    * The detector's fields. failedDetections is the source's counter, which a
    * successful detection zeroes; failures counts every failed call and is
    * what the success rate is computed from (see SuccessRateAsWrittenForgetsFailures).
    */
  datatype FaceState = FaceState(
    emotionHistory: seq<string>,
    confidenceHistory: seq<real>,
    lastEmotion: string,
    lastConfidence: real,
    detectionCount: nat,
    failedDetections: nat,
    failures: nat,
    lastFaceLocation: Option<Box>)

  ghost predicate WellFormed(st: FaceState)
  {
    && |st.emotionHistory| == |st.confidenceHistory| <= HistoryCapacity
    && st.failedDetections <= st.failures <= st.detectionCount
  }

  function InitialState(): (st: FaceState)
    ensures WellFormed(st)
    ensures st.lastEmotion == "neutral" && st.lastConfidence == 0.5
    ensures st.detectionCount == 0 && st.emotionHistory == []
  {
    FaceState([], [], "neutral", 0.5, 0, 0, 0, None)
  }

  // ---------------------------------------------------------------------------
  // Smoothing
  // ---------------------------------------------------------------------------

  /** The share of a history a count stands for; above one half exactly when it is a strict majority. */
  function Ratio(count: nat, n: nat): (f: real)
    requires n > 0
    ensures f > MajorityShare <==> 2 * count > n
    ensures count <= n ==> 0.0 <= f <= 1.0
  {
    HalfShare(count as real, n as real);
    count as real / n as real
  }

  lemma HalfShare(count: real, n: real)
    requires n > 0.0
    ensures count / n > 0.5 <==> 2.0 * count > n
    ensures 0.0 <= count <= n ==> 0.0 <= count / n <= 1.0
  {
    var q := count / n;
    assert q * n == count;
    if q > 0.5 {
      assert (q - 0.5) * n == count - 0.5 * n;
      assert (q - 0.5) * n > 0.0 by { PositiveProduct(q - 0.5, n); }
    } else {
      assert (0.5 - q) * n == 0.5 * n - count;
      MulNonneg(0.5 - q, n);
    }
    if 0.0 <= count <= n {
      DivBounds(count, n, 0.0, 1.0);
    }
  }

  /**
    * Appending one detection to both bounded histories: the detection becomes
    * the newest entry of each, nothing is dropped until the capacity is
    * reached, and no other field changes.
    */
  function Remember(st: FaceState, emotion: string, confidence: real): (r: FaceState)
    requires |st.emotionHistory| == |st.confidenceHistory|
    ensures |r.emotionHistory| == |r.confidenceHistory| <= HistoryCapacity
    ensures |r.emotionHistory| > 0
    ensures r.emotionHistory[|r.emotionHistory| - 1] == emotion
    ensures r.confidenceHistory[|r.confidenceHistory| - 1] == confidence
    ensures |st.emotionHistory| < HistoryCapacity ==>
              r.emotionHistory == st.emotionHistory + [emotion] && r.confidenceHistory == st.confidenceHistory + [confidence]
    ensures r == st.(emotionHistory := r.emotionHistory, confidenceHistory := r.confidenceHistory)
  {
    LastAppend(st.emotionHistory, emotion, HistoryCapacity);
    LastAppend(st.confidenceHistory, confidence, HistoryCapacity);
    st.(emotionHistory := Last(st.emotionHistory + [emotion], HistoryCapacity),
        confidenceHistory := Last(st.confidenceHistory + [confidence], HistoryCapacity))
  }

  /**
    * The smoothed result, given both histories after the new detection was
    * appended: with fewer than three entries it passes through; otherwise the
    * most frequent label of the whole history boosts a matching label held by
    * a strict majority to min(1.2 c, 1.0), or replaces a different label whose
    * confidence is under 0.6, with the mean of the whole confidence history.
    */
  function SmoothedFace(emotions: seq<string>, confidences: seq<real>, emotion: string, confidence: real): (r: (string, real))
    requires |emotions| == |confidences|
    ensures |emotions| < 3 ==> r == (emotion, confidence)
    ensures r.0 == emotion || r.0 in emotions
  {
    if |emotions| < 3 then (emotion, confidence)
    else
      var most := Mode(emotions);
      if most == emotion && Ratio(Count(emotions, most), |emotions|) > MajorityShare then (emotion, Min(confidence * 1.2, 1.0))
      else if most != emotion && confidence < OverruleBelow then (most, Mean(confidences))
      else (emotion, confidence)
  }

  /**
    * Smoothing changes the label only to the most frequent label of the
    * history (earliest first occurrence winning ties), only below confidence
    * 0.6, and then reports the mean of the confidence history.
    */
  lemma FaceSmoothingOverride(emotions: seq<string>, confidences: seq<real>, emotion: string, confidence: real)
    requires |emotions| == |confidences|
    requires SmoothedFace(emotions, confidences, emotion, confidence).0 != emotion
    ensures |emotions| >= 3 && confidence < OverruleBelow
    ensures IsMode(emotions, SmoothedFace(emotions, confidences, emotion, confidence).0)
    ensures SmoothedFace(emotions, confidences, emotion, confidence).1 == Mean(confidences)
  {
  }

  /**
    * Smoothing raises the confidence only of a label that holds a strict
    * majority of the history, to min(1.2 c, 1.0).
    */
  lemma FaceSmoothingBoost(emotions: seq<string>, confidences: seq<real>, emotion: string, confidence: real)
    requires |emotions| == |confidences|
    requires SmoothedFace(emotions, confidences, emotion, confidence) != (emotion, confidence)
    requires SmoothedFace(emotions, confidences, emotion, confidence).0 == emotion
    ensures |emotions| >= 3 && IsMode(emotions, emotion)
    ensures 2 * Count(emotions, emotion) > |emotions|
    ensures SmoothedFace(emotions, confidences, emotion, confidence).1 == Min(confidence * 1.2, 1.0)
  {
  }

  /**
    * Conversely, with three or more entries a strict-majority label is
    * boosted, and a label against the most frequent one is overruled when
    * its confidence is under 0.6.
    */
  lemma FaceSmoothingFires(emotions: seq<string>, confidences: seq<real>, emotion: string, confidence: real, most: string)
    requires |emotions| == |confidences| >= 3
    requires IsMode(emotions, most)
    ensures most == emotion && 2 * Count(emotions, emotion) > |emotions| ==>
              SmoothedFace(emotions, confidences, emotion, confidence) == (emotion, Min(confidence * 1.2, 1.0))
    ensures most != emotion && confidence < OverruleBelow ==>
              SmoothedFace(emotions, confidences, emotion, confidence) == (most, Mean(confidences))
  {
    ModeUnique(emotions, most, Mode(emotions));
  }

  /** Confidences in [0, 1] stay in [0, 1] through smoothing. */
  lemma FaceSmoothingWithinUnit(emotions: seq<string>, confidences: seq<real>, emotion: string, confidence: real)
    requires |emotions| == |confidences|
    requires AllWithin(confidences, 0.0, 1.0) && 0.0 <= confidence <= 1.0
    ensures 0.0 <= SmoothedFace(emotions, confidences, emotion, confidence).1 <= 1.0
  {
    if |emotions| >= 3 {
      MeanBounds(confidences, 0.0, 1.0);
    }
  }

  // ---------------------------------------------------------------------------
  // Detection outcomes
  // ---------------------------------------------------------------------------

  /**
    * The answer to a frame without a usable result: with smoothing on and a
    * non-empty history, the last label at `decay` times the last confidence,
    * with the last face box; otherwise no label, 0.0 and no box.
    */
  function Fallback(smoothing: bool, st: FaceState, decay: real): (d: Detection)
    ensures d.emotion.Some? <==> smoothing && |st.emotionHistory| > 0
    ensures d.emotion.Some? ==> d == Detection(Some(st.lastEmotion), st.lastConfidence * decay, st.lastFaceLocation)
    ensures d.emotion.None? ==> d.confidence == 0.0 && d.box.None?
  {
    if smoothing && |st.emotionHistory| > 0 then
      Detection(Some(st.lastEmotion), st.lastConfidence * decay, st.lastFaceLocation)
    else
      Detection(None, 0.0, None)
  }

  /** A failed call: counted as a detection and as a failure; nothing else changes. */
  function Missed(st: FaceState): (r: FaceState)
  {
    st.(detectionCount := st.detectionCount + 1,
        failedDetections := st.failedDetections + 1,
        failures := st.failures + 1)
  }

  /** The smoothed result of a detection made in state st, once both deques hold it. */
  function Voted(st: FaceState, emotion: string, confidence: real): (r: (string, real))
    requires |st.emotionHistory| == |st.confidenceHistory|
  {
    var kept := Remember(st, emotion, confidence);
    SmoothedFace(kept.emotionHistory, kept.confidenceHistory, emotion, confidence)
  }

  /**
    * A frame in which a face was found: counted, the box kept when DeepFace
    * reported a region, the label smoothed when smoothing is on, and the
    * result remembered as the last one, with the failure streak zeroed.
    */
  function Found(st: FaceState, smoothing: bool, dominant: string, score: real, region: Option<Box>): (r: (FaceState, Detection))
    requires |st.emotionHistory| == |st.confidenceHistory|
  {
    var confidence := score / 100.0;
    var counted := Counted(st, region);
    if smoothing then
      var voted := Voted(counted, dominant, confidence);
      (Settled(Remember(counted, dominant, confidence), voted.0, voted.1), Detection(Some(voted.0), voted.1, region))
    else
      (Settled(counted, dominant, confidence), Detection(Some(dominant), confidence, region))
  }

  /** A found face is counted, and its region, if any, becomes the last known location. */
  function Counted(st: FaceState, region: Option<Box>): FaceState
  {
    st.(detectionCount := st.detectionCount + 1,
        lastFaceLocation := if region.Some? then region else st.lastFaceLocation)
  }

  /** The answer is recorded as the last detection, and the failure streak ends. */
  function Settled(st: FaceState, emotion: string, confidence: real): FaceState
  {
    st.(lastEmotion := emotion, lastConfidence := confidence, failedDetections := 0)
  }

  /** One call of detect_emotion: the new state and the detection returned. */
  function Detect(st: FaceState, smoothing: bool, analysis: Analysis): (r: (FaceState, Detection))
    requires |st.emotionHistory| == |st.confidenceHistory|
  {
    match analysis
    case Face(dominant, score, region) => Found(st, smoothing, dominant, score, region)
    case NoFace => (Missed(st), Fallback(smoothing, st, NoFaceDecay))
    case Failure => (Missed(st), Fallback(smoothing, st, ErrorDecay))
  }

  /** Every call is counted; the invariant of the counters and histories is kept. */
  lemma DetectKeepsWellFormed(st: FaceState, smoothing: bool, analysis: Analysis)
    requires WellFormed(st)
    ensures WellFormed(Detect(st, smoothing, analysis).0)
    ensures Detect(st, smoothing, analysis).0.detectionCount == st.detectionCount + 1
  {
  }

  /**
    * A found face zeroes the failure streak and becomes the last detection;
    * the label returned is DeepFace's dominant emotion at score / 100, or its
    * smoothed version when smoothing is on.
    */
  lemma FoundFaceIsRemembered(st: FaceState, smoothing: bool, dominant: string, score: real, region: Option<Box>)
    requires WellFormed(st)
    ensures var (next, d) := Detect(st, smoothing, Face(dominant, score, region));
            && next.failedDetections == 0 && next.failures == st.failures
            && d.emotion == Some(next.lastEmotion) && d.confidence == next.lastConfidence && d.box == region
            && next.lastFaceLocation == (if region.Some? then region else st.lastFaceLocation)
            && (!smoothing ==> next.emotionHistory == st.emotionHistory && d.emotion == Some(dominant) && d.confidence == score / 100.0)
            && (smoothing ==> (next.emotionHistory == Last(st.emotionHistory + [dominant], HistoryCapacity)
                  && next.confidenceHistory == Last(st.confidenceHistory + [score / 100.0], HistoryCapacity)
                  && (next.lastEmotion, next.lastConfidence) == SmoothedFace(next.emotionHistory, next.confidenceHistory, dominant, score / 100.0)))
  {
  }

  /**
    * A frame without a face, or a failed analysis, extends the failure streak
    * and leaves the last detection and the histories alone; the answer is the
    * last label decayed by 0.8 (no face) or 0.5 (error) when smoothing is on
    * and something was seen before, and nothing otherwise.
    */
  lemma MissKeepsLastDetection(st: FaceState, smoothing: bool, analysis: Analysis)
    requires WellFormed(st) && !analysis.Face?
    ensures var (next, d) := Detect(st, smoothing, analysis);
            && next.failedDetections == st.failedDetections + 1 && next.failures == st.failures + 1
            && next.lastEmotion == st.lastEmotion && next.lastConfidence == st.lastConfidence
            && next.emotionHistory == st.emotionHistory && next.lastFaceLocation == st.lastFaceLocation
            && d == Fallback(smoothing, st, if analysis.NoFace? then NoFaceDecay else ErrorDecay)
  {
  }

  /**
    * The fallback does not compound: a run of misses keeps answering with the
    * same decay of the last real detection.
    */
  lemma FallbackDoesNotCompound(st: FaceState, smoothing: bool, first: Analysis, second: Analysis)
    requires WellFormed(st) && !first.Face? && !second.Face?
    requires smoothing && |st.emotionHistory| > 0
    ensures var d := Detect(Detect(st, smoothing, first).0, smoothing, second).1;
            d.emotion == Some(st.lastEmotion)
            && d.confidence == st.lastConfidence * (if second.NoFace? then NoFaceDecay else ErrorDecay)
  {
  }

  /** With smoothing off nothing is ever remembered, so a miss answers nothing. */
  lemma NoSmoothingNoFallback(st: FaceState, analysis: Analysis)
    requires WellFormed(st) && st.emotionHistory == []
    ensures Detect(st, false, analysis).0.emotionHistory == []
    ensures !analysis.Face? ==> Detect(st, false, analysis).1 == Detection(None, 0.0, None)
  {
  }

  // ---------------------------------------------------------------------------
  // Statistics
  // ---------------------------------------------------------------------------

  /** (detections - failures) / max(detections, 1). */
  function SuccessRate(detections: nat, failures: nat): (r: real)
    ensures failures <= detections ==> 0.0 <= r <= 1.0
    ensures detections > 0 ==> r * detections as real == (detections - failures) as real
    ensures detections > 0 && failures == 0 ==> r == 1.0
    ensures failures == detections ==> r == 0.0
  {
    var n := if detections > 1 then detections else 1;
    RateBounds(detections, failures, n);
    (detections - failures) as real / n as real
  }

  lemma RateBounds(detections: nat, failures: nat, n: nat)
    requires n > 0
    ensures failures <= detections <= n ==> 0.0 <= (detections - failures) as real / n as real <= 1.0
    ensures failures == 0 && detections == n ==> (detections - failures) as real / n as real == 1.0
  {
    if failures <= detections <= n {
      DivBounds((detections - failures) as real, n as real, 0.0, 1.0);
    }
  }

  datatype Statistics = Statistics(
    totalDetections: nat,
    failedDetections: nat,
    successRate: real,
    currentEmotion: string,
    currentConfidence: real)

  /**
    * get_statistics without the processing-time average: the counters, the
    * share of calls that found a face, and the last detection.
    */
  function StatisticsOf(st: FaceState): (s: Statistics)
    requires WellFormed(st)
    ensures 0.0 <= s.successRate <= 1.0
    ensures st.detectionCount > 0 ==>
              s.successRate * st.detectionCount as real == (st.detectionCount - st.failures) as real
    ensures s.totalDetections == st.detectionCount && s.failedDetections == st.failedDetections
    ensures s.currentEmotion == st.lastEmotion && s.currentConfidence == st.lastConfidence
  {
    Statistics(st.detectionCount, st.failedDetections, SuccessRate(st.detectionCount, st.failures),
               st.lastEmotion, st.lastConfidence)
  }

  /**
    * As written, the success rate is computed from failed_detections, which
    * every found face zeroes: right after any found face it reports 1.0,
    * whatever failed before.
    */
  lemma SuccessRateAsWrittenForgetsFailures(st: FaceState, smoothing: bool, dominant: string, score: real, region: Option<Box>)
    requires WellFormed(st)
    ensures var next := Detect(st, smoothing, Face(dominant, score, region)).0;
            SuccessRate(next.detectionCount, next.failedDetections) == 1.0
  {
  }

  /**
    * Ninety-nine frames without a face and then one with a face: as written
    * the rate is 1.0; counting every failure it is 0.01.
    */
  lemma NinetyNineMissesThenAFace(smoothing: bool, dominant: string, score: real)
    ensures var missed := FaceState([], [], "neutral", 0.5, 99, 99, 99, None);
            var next := Detect(missed, smoothing, Face(dominant, score, None)).0;
            && WellFormed(missed)
            && SuccessRate(next.detectionCount, next.failedDetections) == 1.0
            && StatisticsOf(next).successRate == 0.01
  {
    var missed := FaceState([], [], "neutral", 0.5, 99, 99, 99, None);
    var next := Detect(missed, smoothing, Face(dominant, score, None)).0;
    assert next.detectionCount == 100 && next.failures == 99;
    assert StatisticsOf(next).successRate * 100.0 == 1.0;
  }

  // ---------------------------------------------------------------------------
  // The detector object
  // ---------------------------------------------------------------------------

  class FaceEmotionDetector {
    const enableSmoothing: bool
    var state: FaceState

    ghost predicate Valid()
      reads this
    {
      WellFormed(state) && (!enableSmoothing ==> state.emotionHistory == [])
    }

    constructor(enableSmoothing: bool)
      ensures Valid()
      ensures this.enableSmoothing == enableSmoothing && state == InitialState()
    {
      this.enableSmoothing := enableSmoothing;
      state := InitialState();
    }

    /**
      * _apply_smoothing: appends the detection to both deques, then counts the
      * labels of the whole history in first-seen order and votes.
      */
    method ApplySmoothing(emotion: string, confidence: real) returns (e: string, c: real)
      requires |state.emotionHistory| == |state.confidenceHistory|
      modifies this
      ensures state == Remember(old(state), emotion, confidence)
      ensures (e, c) == Voted(old(state), emotion, confidence)
    {
      state := Remember(state, emotion, confidence);
      if |state.emotionHistory| < 3 {
        return emotion, confidence;
      }
      var most, count := Majority(state.emotionHistory);
      var ratio := Ratio(count, |state.emotionHistory|);
      if most == emotion && ratio > MajorityShare {
        e, c := emotion, Min(confidence * 1.2, 1.0);
      } else if most != emotion && confidence < OverruleBelow {
        e, c := most, Mean(state.confidenceHistory);
      } else {
        e, c := emotion, confidence;
      }
    }

    /** The success branch of detect_emotion. */
    method Recognise(dominant: string, score: real, region: Option<Box>) returns (d: Detection)
      requires |state.emotionHistory| == |state.confidenceHistory|
      modifies this
      ensures (state, d) == Found(old(state), enableSmoothing, dominant, score, region)
    {
      var emotion, confidence := dominant, score / 100.0;
      state := Counted(state, region);
      if enableSmoothing {
        emotion, confidence := ApplySmoothing(emotion, confidence);
      }
      state := Settled(state, emotion, confidence);
      d := Detection(Some(emotion), confidence, region);
    }

    /** detect_emotion on a frame DeepFace analysed as `analysis`. */
    method DetectEmotion(analysis: Analysis) returns (d: Detection)
      requires Valid()
      modifies this
      ensures Valid()
      ensures (state, d) == Detect(old(state), enableSmoothing, analysis)
    {
      DetectKeepsWellFormed(state, enableSmoothing, analysis);
      match analysis {
        case Face(dominant, score, region) =>
          d := Recognise(dominant, score, region);
        case NoFace =>
          d := Fallback(enableSmoothing, state, NoFaceDecay);
          state := Missed(state);
        case Failure =>
          d := Fallback(enableSmoothing, state, ErrorDecay);
          state := Missed(state);
      }
    }

    function GetStatistics(): (s: Statistics)
      requires Valid()
      reads this
      ensures 0.0 <= s.successRate <= 1.0
      ensures s.totalDetections == state.detectionCount
      ensures s == StatisticsOf(state)
    {
      StatisticsOf(state)
    }
  }
}
