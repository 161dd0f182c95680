// The first speech emotion detector: a ten-second audio buffer fed by the
// stream callback, a voice-activity test on the newest chunk, the SpeechBrain
// label mapping, the rule-based fallback over energy, zero crossings and
// spectral centroid, the cycling last-resort label, and the silence reset.
// The neural classifier, the FFT behind the centroid and the square root
// behind the RMS energy are inputs.

module SpeechLegacy {
  import opened Common

  const BufferSeconds: nat := 10
  /** RMS energy above which a chunk counts as voice. */
  const VoiceThreshold: real := 0.01
  /** Seconds without an update after which a quiet chunk resets the label. */
  const SilenceSeconds: real := 5.0
  const HighEnergy: real := 0.15
  const MediumEnergy: real := 0.05

  // ---------------------------------------------------------------------------
  // Label mapping
  // ---------------------------------------------------------------------------

  /** SpeechBrain's IEMOCAP codes and the labels the rest of the system uses. */
  const EmotionMapping: map<string, string> := map[
    "neu" := "neutral",
    "hap" := "happy",
    "sad" := "sad",
    "ang" := "angry",
    "fea" := "fear",
    "dis" := "disgust",
    "sur" := "surprise"]

  /** emotion_mapping.get(code, code): known codes are translated, others pass through. */
  function MapLabel(code: string): (name: string)
    ensures code in EmotionMapping ==> name == EmotionMapping[code]
    ensures code !in EmotionMapping ==> name == code
  {
    if code in EmotionMapping then EmotionMapping[code] else code
  }

  /** Mapping a label a second time changes nothing: every mapped label is a fixed point. */
  lemma MapLabelIdempotent(code: string)
    ensures MapLabel(MapLabel(code)) == MapLabel(code)
  {
    if code in EmotionMapping {
      assert code in {"neu", "hap", "sad", "ang", "fea", "dis", "sur"};
      assert MapLabel(code) in {"neutral", "happy", "sad", "angry", "fear", "disgust", "surprise"};
      assert "neutral" !in EmotionMapping && "happy" !in EmotionMapping && "angry" !in EmotionMapping;
      assert "fear" !in EmotionMapping && "disgust" !in EmotionMapping && "surprise" !in EmotionMapping;
    }
  }

  /** Every known code maps to a label with a different spelling, except "sad". */
  lemma MappedLabelsAreFull(code: string)
    requires code in EmotionMapping
    ensures MapLabel(code) != code <==> code != "sad"
    ensures |MapLabel(code)| > 0
  {
    assert code in {"neu", "hap", "sad", "ang", "fea", "dis", "sur"};
  }

  // ---------------------------------------------------------------------------
  // Rule-based detection
  // ---------------------------------------------------------------------------

  /** sum(diff(sign(x)) != 0): the adjacent pairs whose signs differ. */
  function ZeroCrossings(x: seq<real>): (n: nat)
    ensures |x| < 2 ==> n == 0
    ensures |x| >= 2 ==> n <= |x| - 1
  {
    if |x| < 2 then 0
    else ZeroCrossings(x[..|x| - 1]) + (if Sign(x[|x| - 1]) != Sign(x[|x| - 2]) then 1 else 0)
  }

  /** A chunk whose samples all share one sign has no crossing. */
  lemma {:induction false} SameSignNoCrossing(x: seq<real>, s: int)
    requires forall i :: 0 <= i < |x| ==> Sign(x[i]) == s
    ensures ZeroCrossings(x) == 0
  {
    if |x| >= 2 {
      SameSignNoCrossing(x[..|x| - 1], s);
    }
  }

  /** A chunk that alternates in sign crosses at every step. */
  lemma {:induction false} AlternatingCrossesEverywhere(x: seq<real>)
    requires forall i :: 0 <= i < |x| - 1 ==> Sign(x[i]) != Sign(x[i + 1])
    ensures |x| >= 2 ==> ZeroCrossings(x) == |x| - 1
  {
    if |x| >= 2 {
      AlternatingCrossesEverywhere(x[..|x| - 1]);
    }
  }

  /**
    * The decision tree of _simple_audio_detection, given the chunk's RMS
    * energy, its zero crossings, its length and its spectral centroid.
    */
  function SimpleDetection(energy: real, crossings: nat, length: nat, centroid: real): (r: (string, real))
    ensures r.0 == "angry" <==> energy > HighEnergy && crossings as real > length as real * 0.1
    ensures r.0 == "happy" <==> energy > HighEnergy && crossings as real <= length as real * 0.1
    ensures r.0 == "sad" <==> MediumEnergy < energy <= HighEnergy && centroid < 0.3
    ensures r.0 == "neutral" <==> energy <= MediumEnergy || (energy <= HighEnergy && centroid >= 0.3)
  {
    if energy > HighEnergy then
      if crossings as real > length as real * 0.1 then ("angry", Min(energy * 2.0, 0.8))
      else ("happy", Min(energy * 1.5, 0.7))
    else if energy > MediumEnergy then
      if centroid < 0.3 then ("sad", 0.6) else ("neutral", 0.5)
    else ("neutral", 0.4)
  }

  /**
    * The confidences of the decision tree: loud labels grow with the energy
    * up to their caps (0.8 angry, 0.7 happy), the others are fixed; every
    * confidence lies in (0.2, 0.8].
    */
  lemma SimpleDetectionConfidence(energy: real, crossings: nat, length: nat, centroid: real)
    ensures var r := SimpleDetection(energy, crossings, length, centroid);
            && 0.2 < r.1 <= 0.8
            && (r.0 == "angry" ==> r.1 == Min(energy * 2.0, 0.8) && r.1 > 0.3)
            && (r.0 == "happy" ==> r.1 == Min(energy * 1.5, 0.7) && r.1 > 0.225)
            && (r.0 == "sad" ==> r.1 == 0.6)
            && (r.0 == "neutral" ==> r.1 == (if energy > MediumEnergy then 0.5 else 0.4))
  {
  }

  /** A louder chunk of the same shape never gets a lower confidence for the same label. */
  lemma SimpleDetectionMonotone(e1: real, e2: real, crossings: nat, length: nat, centroid: real)
    requires e1 <= e2
    requires SimpleDetection(e1, crossings, length, centroid).0 == SimpleDetection(e2, crossings, length, centroid).0
    ensures SimpleDetection(e1, crossings, length, centroid).1 <= SimpleDetection(e2, crossings, length, centroid).1
  {
    if e1 > HighEnergy {
      MulMono(e1, e2, 2.0);
      MulMono(e1, e2, 1.5);
    } else if e2 > HighEnergy {
      // the labels agree, so both chunks are loud or neither is
      assert false;
    }
  }

  /** The labels the absolute fallback cycles through. */
  const FallbackEmotions: seq<string> := ["neutral", "happy", "sad", "angry"]
  const FallbackConfidence: real := 0.3

  /** The label the fallback gives once its counter has reached `counter`. */
  function FallbackLabel(counter: nat): (name: string)
    ensures name in FallbackEmotions
    ensures name == FallbackEmotions[counter % 4]
  {
    FallbackEmotions[counter % |FallbackEmotions|]
  }

  /** Four failures in a row give all four labels, the first being the one after the counter. */
  lemma FallbackCycles(counter: nat)
    ensures FallbackLabel(counter + 4) == FallbackLabel(counter)
    ensures {FallbackLabel(counter + 1), FallbackLabel(counter + 2), FallbackLabel(counter + 3), FallbackLabel(counter + 4)}
            == {"neutral", "happy", "sad", "angry"}
  {
    var k := counter % 4;
    assert (counter + 4) % 4 == k;
    if k == 0 {
      assert (counter + 1) % 4 == 1 && (counter + 2) % 4 == 2 && (counter + 3) % 4 == 3;
    } else if k == 1 {
      assert (counter + 1) % 4 == 2 && (counter + 2) % 4 == 3 && (counter + 3) % 4 == 0;
    } else if k == 2 {
      assert (counter + 1) % 4 == 3 && (counter + 2) % 4 == 0 && (counter + 3) % 4 == 1;
    } else {
      assert (counter + 1) % 4 == 0 && (counter + 2) % 4 == 1 && (counter + 3) % 4 == 2;
    }
  }

  // ---------------------------------------------------------------------------
  // One chunk
  // ---------------------------------------------------------------------------

  /**
    * What the detector has to go on for one chunk: the SpeechBrain label and
    * probability when the classifier loaded and ran without raising, the
    * spectral centroid, and whether the rule-based features raised.
    */
  datatype Evidence = Evidence(model: Option<(string, real)>, centroid: real, simpleFails: bool)

  /**
    * _detect_emotion_from_audio: the classifier's mapped label and
    * probability; failing that the decision tree; and when that raises, the
    * next label of the cycle at 0.3, advancing the counter.
    */
  function FromAudio(counter: nat, chunk: seq<real>, energy: real, ev: Evidence): (r: (nat, string, real))
    ensures ev.model.Some? ==> r == (counter, MapLabel(ev.model.value.0), ev.model.value.1)
    ensures ev.model.None? && ev.simpleFails ==> r == (counter + 1, FallbackLabel(counter + 1), FallbackConfidence)
    ensures ev.model.None? && !ev.simpleFails ==>
              r.0 == counter && (r.1, r.2) == SimpleDetection(energy, ZeroCrossings(chunk), |chunk|, ev.centroid)
  {
    if ev.model.Some? then (counter, MapLabel(ev.model.value.0), ev.model.value.1)
    else if ev.simpleFails then (counter + 1, FallbackLabel(counter + 1), FallbackConfidence)
    else
      var guess := SimpleDetection(energy, ZeroCrossings(chunk), |chunk|, ev.centroid);
      (counter, guess.0, guess.1)
  }

  /** The values the processing loop maintains. */
  datatype Status = Status(emotion: string, confidence: real, lastUpdate: real, cycleCounter: nat)

  function InitialStatus(now: real): (st: Status)
    ensures st.emotion == "neutral" && st.confidence == 0.0 && st.lastUpdate == now && st.cycleCounter == 0
  {
    Status("neutral", 0.0, now, 0)
  }

  /**
    * One pass of the processing loop over a full chunk with RMS `energy` at
    * time `now`: a voiced chunk's non-empty label becomes the current one; a
    * quiet chunk more than five seconds after the last update resets the
    * label to neutral at 0.5.
    */
  function Pass(st: Status, chunk: seq<real>, energy: real, ev: Evidence, now: real): (r: Status)
  {
    if energy > VoiceThreshold then
      var heard := FromAudio(st.cycleCounter, chunk, energy, ev);
      if |heard.1| > 0 then Status(heard.1, heard.2, now, heard.0)
      else st.(cycleCounter := heard.0)
    else if now - st.lastUpdate > SilenceSeconds then st.(emotion := "neutral", confidence := 0.5)
    else st
  }

  /**
    * A voiced chunk is adopted with its time stamp, unless the label is
    * empty; the counter moves only when the rule-based features raised.
    */
  lemma VoiceIsAdopted(st: Status, chunk: seq<real>, energy: real, ev: Evidence, now: real)
    requires energy > VoiceThreshold
    ensures var heard := FromAudio(st.cycleCounter, chunk, energy, ev);
            var r := Pass(st, chunk, energy, ev, now);
            && r.cycleCounter == (if ev.model.None? && ev.simpleFails then st.cycleCounter + 1 else st.cycleCounter)
            && (|heard.1| > 0 ==> r.emotion == heard.1 && r.confidence == heard.2 && r.lastUpdate == now)
            && (|heard.1| == 0 ==> r.emotion == st.emotion && r.confidence == st.confidence && r.lastUpdate == st.lastUpdate)
  {
  }

  /** Without the classifier the label is never empty, so a voiced chunk always updates. */
  lemma RulesAlwaysAnswer(st: Status, chunk: seq<real>, energy: real, ev: Evidence, now: real)
    requires energy > VoiceThreshold && ev.model.None?
    ensures Pass(st, chunk, energy, ev, now).lastUpdate == now
    ensures Pass(st, chunk, energy, ev, now).emotion in {"angry", "happy", "sad", "neutral"}
  {
    var counter := st.cycleCounter;
    if ev.simpleFails {
      assert FallbackLabel(counter + 1) in FallbackEmotions;
    }
  }

  /**
    * A quiet chunk changes nothing but, after more than five seconds without
    * an update, the label (to neutral at 0.5); the time of the last update is
    * kept, so the reset repeats on every later quiet chunk.
    */
  lemma SilenceResets(st: Status, chunk: seq<real>, energy: real, ev: Evidence, now: real)
    requires energy <= VoiceThreshold
    ensures var r := Pass(st, chunk, energy, ev, now);
            && r.lastUpdate == st.lastUpdate && r.cycleCounter == st.cycleCounter
            && (now - st.lastUpdate > SilenceSeconds ==> r.emotion == "neutral" && r.confidence == 0.5)
            && (now - st.lastUpdate <= SilenceSeconds ==> r == st)
  {
  }

  /** Confidences stay in [0, 1] when the classifier's probabilities do. */
  lemma PassWithinUnit(st: Status, chunk: seq<real>, energy: real, ev: Evidence, now: real)
    requires 0.0 <= st.confidence <= 1.0
    requires ev.model.Some? ==> 0.0 <= ev.model.value.1 <= 1.0
    ensures 0.0 <= Pass(st, chunk, energy, ev, now).confidence <= 1.0
  {
    SimpleDetectionConfidence(energy, ZeroCrossings(chunk), |chunk|, ev.centroid);
  }

  /** Voice activity is decided on the chunk's mean square, against 0.01 squared. */
  lemma VoiceActivityOnMeanSquare(chunk: seq<real>, energy: real)
    requires IsRms(energy, chunk)
    ensures energy > VoiceThreshold <==> MeanSquare(chunk) > 0.0001
  {
    RootAbove(energy, MeanSquare(chunk), VoiceThreshold);
  }

  // ---------------------------------------------------------------------------
  // The detector object
  // ---------------------------------------------------------------------------

  class SpeechEmotionDetector {
    const sampleRate: nat
    const chunkSamples: int
    var audioBuffer: seq<real>
    var isRecording: bool
    var status: Status

    ghost predicate Valid()
      reads this
    {
      sampleRate > 0 ==> |audioBuffer| <= sampleRate * BufferSeconds
    }

    /** chunk_samples is int(sample_rate * chunk_duration), truncating toward zero. */
    constructor(sampleRate: nat, chunkDuration: real, now: real)
      ensures Valid()
      ensures this.sampleRate == sampleRate && chunkSamples == TruncateToInt(sampleRate as real * chunkDuration)
      ensures audioBuffer == [] && !isRecording && status == InitialStatus(now)
    {
      this.sampleRate := sampleRate;
      chunkSamples := TruncateToInt(sampleRate as real * chunkDuration);
      audioBuffer := [];
      isRecording := false;
      status := InitialStatus(now);
    }

    /** The stream callback: while recording, append the block and keep the newest ten seconds. */
    method AudioCallback(block: seq<real>)
      requires Valid()
      modifies this
      ensures Valid()
      ensures isRecording == old(isRecording) && status == old(status)
      ensures old(isRecording) ==> audioBuffer == KeepNewest(old(audioBuffer) + block, sampleRate * BufferSeconds)
      ensures !old(isRecording) ==> audioBuffer == old(audioBuffer)
    {
      if isRecording {
        var buffer := audioBuffer + block;
        var limit := sampleRate * BufferSeconds;
        if |buffer| > limit {
          buffer := if limit == 0 then buffer else buffer[|buffer| - limit..];
        }
        audioBuffer := buffer;
      }
    }

    /**
      * start_recording: the buffer is emptied and recording starts; if the
      * input stream cannot be opened, recording is switched off again.
      */
    method StartRecording(streamOpened: bool)
      requires Valid()
      modifies this
      ensures Valid()
      ensures audioBuffer == [] && isRecording == streamOpened && status == old(status)
    {
      isRecording := true;
      audioBuffer := [];
      if !streamOpened {
        isRecording := false;
      }
    }

    method StopRecording()
      requires Valid()
      modifies this
      ensures Valid()
      ensures !isRecording && audioBuffer == old(audioBuffer) && status == old(status)
    {
      isRecording := false;
    }

    /**
      * One pass of _process_audio at time `now`. The loop runs only while
      * recording; once the buffer holds chunk_samples samples, `energy` is the
      * RMS energy of the newest chunk and the chunk is judged; otherwise
      * nothing happens. The RMS of an empty chunk is NaN in numpy, which fails
      * the voice test like 0.0 does.
      */
    method Step(energy: real, ev: Evidence, now: real)
      requires Valid()
      requires |NewestChunk(audioBuffer, chunkSamples)| > 0 ==> IsRms(energy, NewestChunk(audioBuffer, chunkSamples))
      modifies this
      ensures Valid()
      ensures audioBuffer == old(audioBuffer) && isRecording == old(isRecording)
      ensures !isRecording || |audioBuffer| < chunkSamples ==> status == old(status)
      ensures isRecording && |audioBuffer| >= chunkSamples ==>
                var chunk := NewestChunk(audioBuffer, chunkSamples);
                status == Pass(old(status), chunk, if |chunk| > 0 then energy else 0.0, ev, now)
    {
      if isRecording && |audioBuffer| >= chunkSamples {
        var chunk := NewestChunk(audioBuffer, chunkSamples);
        var rms := if |chunk| > 0 then energy else 0.0;
        if rms > VoiceThreshold {
          var heard := FromAudio(status.cycleCounter, chunk, rms, ev);
          if |heard.1| > 0 {
            status := Status(heard.1, heard.2, now, heard.0);
          } else {
            status := status.(cycleCounter := heard.0);
          }
        } else if now - status.lastUpdate > SilenceSeconds {
          status := status.(emotion := "neutral", confidence := 0.5);
        }
      }
    }
  }
}
