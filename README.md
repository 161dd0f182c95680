# Stress detection from face and speech emotions — a Dafny model

This project models the decision logic of a real-time stress monitor. The
monitor watches a face through a camera and listens to a microphone. It turns
each modality's emotion label and confidence into a stress score, fuses the
two scores, smooths them over time and buckets the result into five levels,
from RELAXED to HIGH STRESS. The model covers:

- **The two stress analyzers.** The baseline analyzer uses fixed 0.6 / 0.4
  weights and two-alpha smoothing. The enhanced analyzer adds adaptive weights,
  confidence-weighted fusion, recency-weighted adaptive smoothing, time-of-day,
  fatigue and pattern context, hysteresis on the level, and stress-event and
  recovery tracking. Modules `StressLevels`, `StressBaseline` and `StressEnhanced`.
- **The enhanced speech detector without its spectral analysis** (`SpeechEnhanced`):
  - calibration of the voice-activity threshold;
  - pre-emphasis, the zero-crossing rate, autocorrelation pitch picking and prosody framing;
  - the speaking rate, the rule-based emotion classifier and the majority-vote smoother;
  - the silence reset, the counters and the bounded buffers.
- **The post-processing of the DeepFace face detector** (`FaceDetector`): its
  majority-vote smoother, its failure counters, the decayed fallback answer
  when no face is found, and the success rate it reports.
- **The first, simpler speech detector** (`SpeechLegacy`): its buffer, the
  voice-activity test, the SpeechBrain label mapping, the rule-based fallback
  and its cycling last resort, and the silence reset.

`Common` holds what these share:
- `Option`, numpy's clip, and Python's `min`/`max`;
- `deque(maxlen=k)` and `s[-k:]` (`Last`, `KeepNewest`);
- means and variances;
- label counting and the majority vote with Python's tie-break. `max(counts, key=counts.get)` over a dict filled in one pass returns the label seen first among those with the highest count.

Scores are real numbers, with no rounding. numpy's `std` compared with a
threshold is modelled as the population variance compared with the squared
threshold; a reported standard deviation is an input whose square is the
population variance. Clocks (`time.time()`, `datetime.now().hour`) are parameters.
Everything the source computes by signal processing or with a neural network
is an input:
- DeepFace's analysis;
- the SpeechBrain label;
- MFCCs, formants, spectral features, the FFT centroid;
- the square roots behind RMS energies.

Objects whose methods update their attributes are Dafny classes. A class whose
loop updates many attributes at once keeps them in one record field (`state`
or `status`). Each method's postcondition states the new record as a function
of the old one, and the lemmas beside those functions state what the source
promises.

Two consequences of the code are worth knowing:
- A stress-pattern buffer that rises steadily from 0.2 to 0.8 over 30 samples
  is reported "volatile", not "escalating". Its standard deviation (about
  0.18) exceeds 0.15, and `_detect_stress_pattern` checks volatility first.
  `StressEnhanced.SteadyRiseIsVolatile` proves this.
- In the enhanced speech detector, the smoother's override branch (a label
  that differs from the majority, with confidence under 0.65) can never fire.
  The classifier's confidences lie in [0.70, 0.95], and only they enter the
  confidence history. `SpeechEnhanced.SmoothingKeepsConfidentLabel` proves
  this, and `SpeechEnhanced.SpeechReportsClassifiedLabel` states the
  consequence for the loop.

## Model

| member | source | states |
|---|---|---|
| StressLevels.NumericOfName | stress_analyzer.py:103-112 | the level-name lookup gives a number between 0 and 4 |
| StressLevels.LevelOfCountsThresholds | stress_analyzer.py:92-101 | the bucket of a score is the number of thresholds 0.25 / 0.45 / 0.65 / 0.80 it has reached (strict upper bounds) |
| StressLevels.LevelOfMonotone | stress_analyzer.py:92-101 | a higher score never gets a lower level |
| StressLevels.NumericOfLevelName | stress_analyzer.py:105-112 | every level name maps to its rank, RELAXED 0 to HIGH STRESS 4 |
| StressLevels.NumericOfUnknownName | stress_analyzer.py:112 | a string naming no level maps to 1 |
| StressLevels.Distribution | stress_analyzer.py:226-227 | the Counter of levels holds exactly the levels that occur, each with its number of occurrences |
| StressLevels.TrendNeedsSpread | stress_analyzer.py:230-241 | an increasing or decreasing trend needs at least the minimum number of samples and a spread above the margin |
| StressLevels.ConstantHasNoTrend | stress_analyzer.py:230-241 | a window of one repeated score is stable |
| StressBaseline.BaseStress | stress_analyzer.py:148-163 | every emotion's base stress, listed or defaulted, lies in [0.1, 0.9], and a label the table does not list (compared case-sensitively) gets 0.4 |
| StressBaseline.EmotionStressScore | stress_analyzer.py:144-168 | the modality score is in [0, 1] and is 0.3 for a missing label or a confidence below 0.2 |
| StressBaseline.ScoreBetweenNeutralAndTable | stress_analyzer.py:163-168 | for confidence in [0.2, 1] the score lies between 0.3 and the table value, and equals the table value at confidence 1 |
| StressBaseline.ScoreFollowsTable | stress_analyzer.py:163-168 | at equal confidence, a label with a higher table value never scores lower |
| StressBaseline.Combined | stress_analyzer.py:48-51 | the 0.6 / 0.4 combination lies between the two modality scores, hence in [0, 1] |
| StressBaseline.SmoothBetweenCurrentAndMean | stress_analyzer.py:180-203 | the smoothed score lies between the current score and the mean of the last five, with weight 0.7 on a rise and 0.4 otherwise |
| StressBaseline.SmoothWithinUnit | stress_analyzer.py:180-203 | smoothing keeps scores in [0, 1] |
| StressBaseline.StatisticsOf | stress_analyzer.py:212-251 | an empty history gives the default record; otherwise the average, minimum, maximum and level counts are those of the last twenty scores, the trend compares their halves with at least five scores and a 0.1 margin, every sample is counted, the average lies between the minimum and maximum, and the current level is the bucket of the newest score |
| StressBaseline.StressAnalyzer.constructor | stress_analyzer.py:17-28 | all three deques start empty |
| StressBaseline.StressAnalyzer.AnalyzeStress | stress_analyzer.py:30-80 | the score is the smoothed 0.6 / 0.4 combination and lies in [0, 1]; the level is its bucket; each deque gains its newest entry within its capacity |
| StressBaseline.StressAnalyzer.ResetHistory | stress_analyzer.py:253-257 | all three deques are emptied |
| StressEnhanced.BaseStress | stress_analyzer_enhanced.py:192-207 | every emotion's refined base stress, listed or defaulted, lies in [0.08, 0.90], and a label whose lower-case form the table does not list gets 0.35 |
| StressEnhanced.EmotionStressScore | stress_analyzer_enhanced.py:188-217 | the modality score is in [0, 1] and is 0.3 for a missing label or a confidence below 0.15 |
| StressEnhanced.ScoreIgnoresCase | stress_analyzer_enhanced.py:207 | the table lookup ignores letter case |
| StressEnhanced.LowConfidenceScoreIgnoresConfidence | stress_analyzer_enhanced.py:213-215 | for confidence in [0.15, 0.5) the score is 0.6 of the table value plus 0.14, whatever the confidence |
| StressEnhanced.HighConfidenceScoreBetween | stress_analyzer_enhanced.py:210-212 | for confidence in [0.5, 1] the score lies between 0.25 and the table value |
| StressEnhanced.AdaptedWeights | stress_analyzer_enhanced.py:120-144 | the adapted weights sum to 1, and they are the old weights renormalised when neither confidence exceeds 0.3 |
| StressEnhanced.AdaptedFaceWeightRange | stress_analyzer_enhanced.py:129-135 | when one confidence exceeds 0.3, the face weight lies in [0.5, 0.8]; it is at least 0.65 exactly when the face is at least as confident |
| StressEnhanced.Fuse | stress_analyzer_enhanced.py:146-175 | with both confidences below 0.3 the fused score is the mean of the last five scores (0.3 with none); otherwise it is in [0, 1] |
| StressEnhanced.FuseBetweenModalities | stress_analyzer_enhanced.py:166-175 | the fused score lies between the two modality scores and at least as close to the more confident one |
| StressEnhanced.FuseIsLerp | stress_analyzer_enhanced.py:166-173 | fusion interpolates from the speech score to the face score by the face share of the total confidence |
| StressEnhanced.FuseWithinUnit | stress_analyzer_enhanced.py:146-175 | with a history in [0, 1], every fused score is in [0, 1] |
| StressEnhanced.RecencyWeights | stress_analyzer_enhanced.py:239 | the linspace weights lie in [0.5, 1] and strictly increase from the oldest sample to the newest |
| StressEnhanced.WeightedAverageBounds | stress_analyzer_enhanced.py:239-241 | numpy's weighted average lies within the bounds of its samples |
| StressEnhanced.RecentWeightedMeanBounds | stress_analyzer_enhanced.py:233-241 | the recency-weighted mean of the last eight scores stays within the history's bounds |
| StressEnhanced.SmoothScore | stress_analyzer_enhanced.py:219-264 | with fewer than two past scores the current score passes through; otherwise the result is clipped to [0, 1] |
| StressEnhanced.SmoothScoreBlends | stress_analyzer_enhanced.py:244-262 | the smoothed score lies between the current score and the weighted mean; a sharp rise moves 75% of the way and a sharp fall 55%; a change of at most 0.15 moves 30% when the last eight scores have a standard deviation below 0.05, and 50% otherwise |
| StressEnhanced.DetectPattern | stress_analyzer_enhanced.py:310-336 | fewer than 20 buffered scores are stable |
| StressEnhanced.VolatileIffDeviationAbove | stress_analyzer_enhanced.py:317-330 | with 20 or more buffered scores, the pattern is volatile exactly when the standard deviation of the last thirty exceeds 0.15 |
| StressEnhanced.SteadyRiseIsVolatile | stress_analyzer_enhanced.py:320-336 | thirty scores rising steadily from 0.2 to 0.8, whose last ten average more than 0.12 above their first ten, are reported volatile, not escalating |
| StressEnhanced.PatternWitness | stress_analyzer_enhanced.py:320-334 | an escalating pattern has a score among the last ten more than 0.12 above one among the first ten; a recovering pattern has the reverse |
| StressEnhanced.RiseIsEscalating | stress_analyzer_enhanced.py:320-332 | with 20 or more buffered scores and a standard deviation of at most 0.15 over the last thirty, a last ten whose every score is more than 0.12 above every score of the first ten makes the pattern escalating |
| StressEnhanced.FallIsRecovering | stress_analyzer_enhanced.py:320-334 | under the same conditions, a last ten whose every score is more than 0.12 below every score of the first ten makes the pattern recovering |
| StressEnhanced.ConstantBufferIsSteady | stress_analyzer_enhanced.py:310-336 | a buffer of one repeated score is stable |
| StressEnhanced.TimeOfDayFactor | stress_analyzer_enhanced.py:283-292 | the time-of-day factor lies in [0.95, 1.08] |
| StressEnhanced.FatigueFactor | stress_analyzer_enhanced.py:295-298 | the fatigue factor lies in [1, 1.15] |
| StressEnhanced.FatigueGrows | stress_analyzer_enhanced.py:295-298 | fatigue never decreases as the session goes on |
| StressEnhanced.PatternFactor | stress_analyzer_enhanced.py:301-306 | the pattern factor lies in [0.92, 1.10] and is 1 with fewer than 30 buffered scores |
| StressEnhanced.ContextAdjust | stress_analyzer_enhanced.py:266-308 | the context-adjusted score is in [0, 1] |
| StressEnhanced.ContextAdjustMonotone | stress_analyzer_enhanced.py:266-308 | a higher score never comes out of the context adjustment lower |
| StressEnhanced.NeutralContextKeepsScore | stress_analyzer_enhanced.py:283-308 | outside the three daily windows, in the first 90 minutes and with fewer than 30 buffered scores, a score in [0, 1] is unchanged |
| StressEnhanced.HysteresisBetween | stress_analyzer_enhanced.py:374-389 | far from the last score (0.05 or more away) the level is the plain bucket; near it, the level lies between the buckets of the two scores |
| StressEnhanced.HysteresisOfLastScore | stress_analyzer_enhanced.py:374-378 | re-bucketing the last recorded score gives its plain bucket |
| StressEnhanced.RecentEvents | stress_analyzer_enhanced.py:351-352 | exactly the events less than 3600 s old are kept |
| StressEnhanced.TrackedEvents | stress_analyzer_enhanced.py:343-352 | a score above 0.75 is recorded at the current time and the list is cut to the last hour; a lower score leaves the list unchanged |
| StressEnhanced.TrackedRecoveryDuration | stress_analyzer_enhanced.py:355-361 | a recovery period is added exactly when the last five of at least five scores are below 0.35; its duration counts at least those five |
| StressEnhanced.OverallConfidence | stress_analyzer_enhanced.py:402-409 | the overall confidence is 0.5 while either confidence history is empty |
| StressEnhanced.OverallConfidenceBounds | stress_analyzer_enhanced.py:404-409 | the overall confidence lies in [0, 1] and between the two modality means |
| StressEnhanced.CycleScoreWithinUnit | stress_analyzer_enhanced.py:63-86 | with past scores in [0, 1], every cycle's score is in [0, 1] |
| StressEnhanced.InitialState | stress_analyzer_enhanced.py:21-43 | a fresh analyzer is well formed, with weights 0.6 / 0.4 and the session starting now |
| StressEnhanced.ResetState | stress_analyzer_enhanced.py:499-509 | a reset empties all eight histories and lists, restarts the session and keeps the weights |
| StressEnhanced.ResetTwiceIsResetOnce | stress_analyzer_enhanced.py:499-509 | two resets equal one reset at the later time |
| StressEnhanced.CommitKeepsWellFormed | stress_analyzer_enhanced.py:67-96 | recording a cycle keeps the deques within capacity, every score in [0, 1] and the weights summing to 1 |
| StressEnhanced.CommitRecordsObservations | stress_analyzer_enhanced.py:76-93 | every deque gains the cycle's observation or score as its newest entry, and the session start is unchanged |
| StressEnhanced.CommitAdaptsWeights | stress_analyzer_enhanced.py:129-144 | after a cycle the face weight is in [0.5, 0.8] when one confidence exceeds 0.3; otherwise the weights stay |
| StressEnhanced.CommitTracksEvents | stress_analyzer_enhanced.py:338-361 | after a cycle, events and recovery periods are recorded as `_track_stress_events` prescribes |
| StressEnhanced.StatisticsOf | stress_analyzer_enhanced.py:444-497 | an empty history gives the default record; otherwise the average, minimum, maximum and level counts are those of the last thirty scores, the trend compares their halves with at least ten scores and a 0.12 margin, every sample is counted, the reported average lies between the reported minimum and maximum (and in [0, 1] for scores in [0, 1]), the current level is the hysteresis level of the newest score, the standard deviation reported squares to the variance of the last thirty scores, the pattern is reported, and the context is present exactly when enabled |
| StressEnhanced.ContextInfoOf | stress_analyzer_enhanced.py:418-442 | the pattern is reported once 20 scores are buffered, with the event and recovery counts |
| StressEnhanced.StressAnalyzer.constructor | stress_analyzer_enhanced.py:13-43 | a new analyzer starts in the initial state |
| StressEnhanced.StressAnalyzer.AnalyzeStress | stress_analyzer_enhanced.py:49-118 | the score is the fused, smoothed and context-adjusted cycle score in [0, 1]; the level is its hysteresis level; the state is the recorded cycle |
| StressEnhanced.StressAnalyzer.ResetHistory | stress_analyzer_enhanced.py:499-509 | the state becomes the reset state |
| SpeechEnhanced.PreEmphasis | speech_detector_enhanced.py:221-222 | the first sample is kept and every later sample loses 0.97 times its predecessor |
| SpeechEnhanced.DeEmphasisInvertsPreEmphasis | speech_detector_enhanced.py:221-222 | the pre-emphasis filter is invertible: de-emphasis recovers the chunk |
| SpeechEnhanced.SignChanges | speech_detector_enhanced.py:228 | sum(abs(diff(sign(x)))) is at most 2 per adjacent pair |
| SpeechEnhanced.ZeroCrossingRate | speech_detector_enhanced.py:228 | the zero-crossing rate of a non-empty chunk lies in [0, 1) |
| SpeechEnhanced.NoSignChangeNoCrossing | speech_detector_enhanced.py:228 | a chunk of positive samples has no sign change |
| SpeechEnhanced.Autocorrelation | speech_detector_enhanced.py:263-264 | the autocorrelation has one value per lag of the chunk, and at lag 0 it is never negative |
| SpeechEnhanced.LagZeroIsEnergy | speech_detector_enhanced.py:263-264 | the lag-0 autocorrelation is a sum of squares, so it is never negative |
| SpeechEnhanced.PitchLag | speech_detector_enhanced.py:265-275 | a lag is found exactly when the window [sr/500, sr/50) holds a lag; it is the first lag of maximal autocorrelation |
| SpeechEnhanced.EstimatePitch | speech_detector_enhanced.py:263-280 | the pitch lies in [50, 500] Hz, is 120 Hz clipped when no lag (or lag 0) is found, and is sr / lag clipped otherwise |
| SpeechEnhanced.FrameStarts | speech_detector_enhanced.py:433-437 | the frames start at multiples of len/10, each frame fits in the chunk, and the range stops before len - frame size |
| SpeechEnhanced.FrameCount | speech_detector_enhanced.py:433-435 | a chunk of at least 100 samples has 9 frames when its length is a multiple of 10, and 10 otherwise |
| SpeechEnhanced.RecentOnsets | speech_detector_enhanced.py:452-453 | exactly the onsets less than 5 s old are kept |
| SpeechEnhanced.SpeakingRate | speech_detector_enhanced.py:446-461 | the rate lies in [0.5, 10]; it is 3.0 with fewer than two onsets overall or in the last 5 s |
| SpeechEnhanced.AverageOfOne | speech_detector_enhanced.py:466-482 | averaging a single feature set returns it |
| SpeechEnhanced.AngryScore | speech_detector_enhanced.py:491-501 | the angry score sums its five rule weights and lies in [0, 1] |
| SpeechEnhanced.HappyScore | speech_detector_enhanced.py:505-515 | the happy score sums its five rule weights and lies in [0, 1] |
| SpeechEnhanced.SadScore | speech_detector_enhanced.py:519-529 | the sad score sums its five rule weights and lies in [0, 1] |
| SpeechEnhanced.FearScore | speech_detector_enhanced.py:533-541 | the fear score sums its four rule weights and lies in [0, 1] |
| SpeechEnhanced.Scores | speech_detector_enhanced.py:544-550 | five scores in [0, 1], with neutral fixed at 0.4 |
| SpeechEnhanced.Classify | speech_detector_enhanced.py:543-559 | the result is neutral at 0.70 exactly when no non-neutral emotion scores 0.5 or more; otherwise it is the first emotion with the highest score, at min(score + 0.3, 0.95); the confidence always lies in [0.70, 0.95] |
| SpeechEnhanced.Frequency | speech_detector_enhanced.py:577-580 | the majority's share of the window is at least 0.6 exactly when its count is at least 0.6 times the window |
| SpeechEnhanced.Smoothed | speech_detector_enhanced.py:561-589 | with fewer than three labels the result passes through |
| SpeechEnhanced.SmoothingOverride | speech_detector_enhanced.py:584-587 | the label changes only to the majority of the last five, only below confidence 0.65, and with the mean of the last three confidences |
| SpeechEnhanced.SmoothingBoost | speech_detector_enhanced.py:579-582 | the confidence rises only for the majority label of the last five, held at least 60% of the time, to min(1.15 c, 0.95) |
| SpeechEnhanced.SmoothingFires | speech_detector_enhanced.py:576-587 | conversely, the majority label of the last five, held at least 60% of the time, is always boosted, and a minority label below 0.65 is always replaced by the majority with the mean of the last three confidences |
| SpeechEnhanced.SmoothingKeepsConfidentLabel | speech_detector_enhanced.py:579-589 | a confidence in [0.65, 0.95] keeps its label, and its confidence can only rise, to at most 0.95 |
| SpeechEnhanced.CalibratedBaseline | speech_detector_enhanced.py:157 | the baseline is the mean of the collected energies plus 0.01, in [0.01, 1.01] for energies in [0, 1] |
| SpeechEnhanced.ThresholdFor | speech_detector_enhanced.py:158 | the threshold is 1.5 times the baseline, never below 0.015 |
| SpeechEnhanced.ThresholdAsWrittenDeafens | speech_detector_enhanced.py:157-166 | as written, calibration without energies yields a NaN threshold that no energy exceeds |
| SpeechEnhanced.InitialDetector | speech_detector_enhanced.py:26-65 | a new detector is well formed and uncalibrated, neutral at 0.6 |
| SpeechEnhanced.Calibrate | speech_detector_enhanced.py:156-159 | ending calibration sets the baseline from the collected energies and the threshold from the baseline, at least 0.015 |
| SpeechEnhanced.Recognise | speech_detector_enhanced.py:186-195 | classifying, smoothing and adopting changes only the histories, the current result and the per-label counts |
| SpeechEnhanced.Ready | speech_detector_enhanced.py:144-159 | a chunk past calibration is counted and leaves the detector calibrated and well formed |
| SpeechEnhanced.Listen | speech_detector_enhanced.py:176-195 | a speech chunk is counted as speech and its time becomes the last speech and a new onset; calibration is untouched |
| SpeechEnhanced.NextState | speech_detector_enhanced.py:140-205 | one pass of the processing loop keeps the detector well formed |
| SpeechEnhanced.RecogniseKeepsWellFormed | speech_detector_enhanced.py:186-195 | recognition keeps the detector well formed |
| SpeechEnhanced.HeardSpeechKeepsWellFormed | speech_detector_enhanced.py:176-183 | recording a speech chunk keeps the detector well formed |
| SpeechEnhanced.CalibrationCollects | speech_detector_enhanced.py:151-155 | in the first 3 s a chunk only adds its energy to the calibration samples |
| SpeechEnhanced.CalibrationCompletes | speech_detector_enhanced.py:156-159 | the first chunk after 3 s, once energies were collected, ends calibration with baseline mean + 0.01 and threshold max(1.5 × baseline, 0.015), at most 1.515 for energies in [0, 1] |
| SpeechEnhanced.CalibrationWaitsForASample | speech_detector_enhanced.py:151-159 | with no energy collected, a chunk after 3 s is collected instead and the detector stays uncalibrated (the corrected behaviour, see Findings) |
| SpeechEnhanced.CalibrationIsFinal | speech_detector_enhanced.py:151-159 | once calibrated, the baseline and the threshold never change |
| SpeechEnhanced.SpeechIffAboveThreshold | speech_detector_enhanced.py:166-179 | after calibration, a chunk is speech exactly when its energy exceeds the threshold, and only speech is counted and time-stamped |
| SpeechEnhanced.SilenceResetsToNeutral | speech_detector_enhanced.py:197-205 | after more than 5 s of silence a non-neutral result becomes neutral at 0.65 and the feature and label histories are cleared; the confidence history stays |
| SpeechEnhanced.SpeechReportsClassifiedLabel | speech_detector_enhanced.py:186-195 | on speech with three feature sets held, a classified label that differs from the current one is always adopted, the current label never changes to anything else, and the adopted label's count goes up by one |
| SpeechEnhanced.SpeechRatio | speech_detector_enhanced.py:597-600 | the speech ratio is 0 before any chunk and lies in [0, 1] |
| SpeechEnhanced.SpeechEmotionDetector.constructor | speech_detector_enhanced.py:26-65 | chunk_samples is int(rate × duration), and the detector starts in the initial state |
| SpeechEnhanced.SpeechEmotionDetector.AudioCallback | speech_detector_enhanced.py:80-87 | while recording, the buffer is the newest 15 s of the old buffer plus the block; otherwise it is unchanged |
| SpeechEnhanced.SpeechEmotionDetector.StartRecording | speech_detector_enhanced.py:99-134 | the buffer is emptied; recording and the calibration clock start only when the stream opens |
| SpeechEnhanced.SpeechEmotionDetector.StopRecording | speech_detector_enhanced.py:123-125 | recording stops and nothing else changes |
| SpeechEnhanced.SpeechEmotionDetector.ApplyTemporalSmoothing | speech_detector_enhanced.py:561-589 | the counting loop returns the smoothed result, and both deques gain the classification |
| SpeechEnhanced.SpeechEmotionDetector.Hear | speech_detector_enhanced.py:176-195 | a speech chunk moves the state as `Listen` prescribes |
| SpeechEnhanced.SpeechEmotionDetector.Step | speech_detector_enhanced.py:136-205 | given the RMS energy and the pre-emphasised features of the newest chunk: when not recording or without a full chunk nothing happens; otherwise the state moves as `NextState` prescribes and the outcome is reported |
| SpeechEnhanced.SpeechEmotionDetector.GetSpeechRatio | speech_detector_enhanced.py:597-600 | the reported speech ratio lies in [0, 1] |
| FaceDetector.InitialState | emotion_detector_deepface.py:33-40 | a new detector is neutral at 0.5, with no detections and empty histories |
| FaceDetector.Ratio | emotion_detector_deepface.py:210-214 | the majority's share exceeds 0.5 exactly when it is a strict majority |
| FaceDetector.Remember | emotion_detector_deepface.py:197-198 | the detection becomes the newest entry of both histories, which stay of equal length and at most 10 and keep every older entry below capacity; no other field changes |
| FaceDetector.SmoothedFace | emotion_detector_deepface.py:196-225 | with fewer than three entries the result passes through; the label returned is the input or one from the history |
| FaceDetector.FaceSmoothingOverride | emotion_detector_deepface.py:219-222 | the label changes only to the most frequent label of the whole history, only below confidence 0.6, and with the mean of the confidence history |
| FaceDetector.FaceSmoothingBoost | emotion_detector_deepface.py:205-216 | the confidence rises only for a strict-majority label, to min(1.2 c, 1.0) |
| FaceDetector.FaceSmoothingFires | emotion_detector_deepface.py:205-222 | conversely, a strict-majority label is always boosted and a minority label below 0.6 is always overruled |
| FaceDetector.FaceSmoothingWithinUnit | emotion_detector_deepface.py:214-222 | smoothing keeps confidences in [0, 1] |
| FaceDetector.Fallback | emotion_detector_deepface.py:140-148 | a miss answers with the last label at decayed confidence exactly when smoothing is on and the history is non-empty; otherwise it answers (None, 0.0, None) |
| FaceDetector.DetectKeepsWellFormed | emotion_detector_deepface.py:78-159 | every call is counted, and the histories and counters stay consistent |
| FaceDetector.FoundFaceIsRemembered | emotion_detector_deepface.py:96-134 | a found face zeroes the failure streak and becomes the last detection (smoothed when enabled, against both histories with the new detection appended); the box is kept when a region is reported |
| FaceDetector.MissKeepsLastDetection | emotion_detector_deepface.py:135-159 | a miss extends the failure streak, keeps the last detection and answers with the fallback, decayed by 0.8 for no face and 0.5 for an error |
| FaceDetector.FallbackDoesNotCompound | emotion_detector_deepface.py:137-159 | successive misses keep answering with the same decay of the last real detection |
| FaceDetector.NoSmoothingNoFallback | emotion_detector_deepface.py:140-148 | with smoothing off the history stays empty, so a miss answers nothing |
| FaceDetector.SuccessRate | emotion_detector_deepface.py:338 | the rate lies in [0, 1], and times the detection count it gives the successful detections |
| FaceDetector.StatisticsOf | emotion_detector_deepface.py:329-347 | the statistics report the counters, the last detection, and the share of detections that found a face |
| FaceDetector.SuccessRateAsWrittenForgetsFailures | emotion_detector_deepface.py:338 | as written, the success rate is 1.0 right after any found face, whatever failed before |
| FaceDetector.NinetyNineMissesThenAFace | emotion_detector_deepface.py:338 | 99 misses then a face: 1.0 as written, 0.01 when every failure is counted |
| FaceDetector.FaceEmotionDetector.constructor | emotion_detector_deepface.py:27-40 | a new detector starts in the initial state |
| FaceDetector.FaceEmotionDetector.ApplySmoothing | emotion_detector_deepface.py:196-225 | the counting loop returns the smoothed result, and both deques gain the detection |
| FaceDetector.FaceEmotionDetector.Recognise | emotion_detector_deepface.py:96-134 | the success branch moves the state as `Found` prescribes |
| FaceDetector.FaceEmotionDetector.DetectEmotion | emotion_detector_deepface.py:76-159 | a call returns the detection and new state `Detect` prescribes, keeping the detector well formed |
| FaceDetector.FaceEmotionDetector.GetStatistics | emotion_detector_deepface.py:329-347 | the report is `StatisticsOf` the current state, so its success rate lies in [0, 1] |
| SpeechLegacy.MapLabel | speech_detector.py:56-64 | known SpeechBrain codes are translated and other codes pass through |
| SpeechLegacy.MapLabelIdempotent | speech_detector.py:209 | mapping a mapped label again changes nothing |
| SpeechLegacy.MappedLabelsAreFull | speech_detector.py:56-64 | every known code maps to a non-empty label, and only "sad" maps to itself |
| SpeechLegacy.ZeroCrossings | speech_detector.py:218 | the count of sign changes is at most one per adjacent pair |
| SpeechLegacy.SameSignNoCrossing | speech_detector.py:218 | a chunk of one sign has no crossing |
| SpeechLegacy.AlternatingCrossesEverywhere | speech_detector.py:218 | an alternating chunk crosses at every step |
| SpeechLegacy.SimpleDetection | speech_detector.py:221-238 | each label is chosen exactly in its region of energy, zero crossings and centroid |
| SpeechLegacy.SimpleDetectionConfidence | speech_detector.py:222-238 | the confidences are min(2e, 0.8) for angry, min(1.5e, 0.7) for happy, 0.6 for sad, and 0.5 or 0.4 for neutral depending on the energy; all lie in (0.2, 0.8] |
| SpeechLegacy.SimpleDetectionMonotone | speech_detector.py:222-228 | for the same label, a louder chunk never gets a lower confidence |
| SpeechLegacy.FallbackLabel | speech_detector.py:246 | the last-resort label is fallback_emotions[counter mod 4] |
| SpeechLegacy.FallbackCycles | speech_detector.py:244-247 | four failures in a row give all four labels, and the cycle repeats |
| SpeechLegacy.VoiceActivityOnMeanSquare | speech_detector.py:146-149 | an RMS energy above 0.01 means a mean square above 0.0001 |
| SpeechLegacy.FromAudio | speech_detector.py:171-190 | the classifier's mapped label when available, else the decision tree, else the next fallback label at 0.3 |
| SpeechLegacy.InitialStatus | speech_detector.py:34-36 | a new detector is neutral at 0.0 |
| SpeechLegacy.VoiceIsAdopted | speech_detector.py:149-157 | a voiced chunk's non-empty label becomes current with the current time; only a fallback moves the counter |
| SpeechLegacy.RulesAlwaysAnswer | speech_detector.py:189-190 | without the classifier every voiced chunk updates the result to one of four labels |
| SpeechLegacy.SilenceResets | speech_detector.py:158-163 | a quiet chunk after more than 5 s resets to neutral at 0.5 without touching the update time; earlier it changes nothing |
| SpeechLegacy.PassWithinUnit | speech_detector.py:141-163 | confidences stay in [0, 1] when the classifier's do |
| Common.NewestChunk | speech_detector.py:143 | buffer[-k:] is the newest k samples, or the whole buffer when k is 0 |
| SpeechLegacy.SpeechEmotionDetector.constructor | speech_detector.py:27-36 | chunk_samples is int(rate × duration), and the detector starts empty and idle |
| SpeechLegacy.SpeechEmotionDetector.AudioCallback | speech_detector.py:76-84 | while recording, the buffer is the newest 10 s of the old buffer plus the block; otherwise it is unchanged |
| SpeechLegacy.SpeechEmotionDetector.StartRecording | speech_detector.py:100-125 | the buffer is emptied, and recording stays on only when the stream opens |
| SpeechLegacy.SpeechEmotionDetector.StopRecording | speech_detector.py:127-129 | recording stops and nothing else changes |
| SpeechLegacy.SpeechEmotionDetector.Step | speech_detector.py:138-163 | while recording and with a full chunk, the status moves as `Pass` prescribes; when not recording or without a full chunk nothing changes |
| Common.Majority | speech_detector_enhanced.py:571-576 | the counting loop and `max` over the dict return the mode of the window (earliest first occurrence winning ties) and its count |
| Common.ArgMax | speech_detector_enhanced.py:274 | np.argmax returns the first index of the maximum |
| Common.KeepNewest | speech_detector_enhanced.py:85-87 | the buffer cut keeps the newest samples and never exceeds the limit |
| Common.TruncateToInt | speech_detector.py:29 | int() truncates toward zero |

## Left out

- Signal processing and neural networks are inputs, not models: MFCCs and the mel filterbank, LPC formants, FFT spectral features, the spectral centroid, the pitch and energy variation ratios, DeepFace's analysis, SpeechBrain's classification, and the square roots behind RMS energies. Their outputs are opaque reals or labels.
- Threads, audio streams, `time.sleep`, device listing and logging are left out. The clocks are parameters, and one processing pass uses a single time value where the source reads the clock several times.
- Processing-time statistics (`processing_times` and their averages) are left out because they measure wall-clock time.
- Floating point is not modelled: arithmetic is exact on reals, and NaN appears only in the calibration finding below.
- The enhanced analyzer's `_get_confidence_metrics` fusion-quality label and `round(session_duration, 1)` are not modelled. The per-cycle details omit the confidence metrics and the context info.
- `_get_stress_color` (stress_analyzer.py:114-131) is a display colour table and is not modelled.
- The three classes whose processing loop updates many attributes together (`StressEnhanced.StressAnalyzer`, `SpeechEnhanced.SpeechEmotionDetector` and `FaceDetector.FaceEmotionDetector`) hold them as one record field. So does `SpeechLegacy.SpeechEmotionDetector`, as `status`. The model therefore does not capture aliasing between individual attributes.
- FaceDetector.FaceEmotionDetector.DetectEmotion: an exception is modelled as raised before any state change except the detection count. An exception raised later (for example a missing score key, or one inside smoothing after the histories were appended) is not modelled.
- FaceDetector.StatisticsOf: the success rate is computed from a count of all failures (the corrected behaviour, see Findings). The source's streak counter is still kept and reported as `failedDetections`.
- SpeechEnhanced.FrameStarts: requires a chunk of at least 10 samples. With fewer, the frame size is 0 and `range` raises. The processing loop would catch that exception, and that path is not modelled.
- SpeechEnhanced.Recognise: requires a positive threshold, because the classifier divides by it. Calibration guarantees at least 0.015.
- SpeechEnhanced.InitialDetector: does not state that all five labels start with a zero count, although its body sets them.
- SpeechEnhanced.CalibratedBaseline: is taken only over a non-empty collection of energies, the corrected behaviour (see Findings). The NaN baseline of an empty collection is modelled by `ThresholdAsWritten` alone.
- SpeechEnhanced.Calibrate: requires collected energies, for the same reason.
- SpeechEnhanced.NextState: keeps collecting while no energy has been collected, even after three seconds, the corrected behaviour (see Findings). The source calibrates on the first chunk after three seconds regardless.
- SpeechEnhanced.SpeechEmotionDetector.Step: an empty newest chunk (a chunk size of 0 or less and an empty buffer) has a NaN energy in numpy, and pre-emphasis fails on it. The model then leaves the given energy and features unconstrained.
- StressEnhanced.StatisticsOf: the standard deviation is an input, constrained by its square; the model does not compute square roots.
- SpeechLegacy.SpeechEmotionDetector.Step: the RMS of an empty chunk (numpy gives NaN) is taken as 0.0. Both fail the voice test, so the branch taken is the same. A negative chunk size (negative duration) is modelled by Python's slice rule.
- The SpeechBrain path's audio normalisation and tensor conversion (speech_detector.py:192-211) is part of the external classifier. Only its label mapping is modelled.

## Findings

| source | as written | input that shows it | evidently intended | confidence | as-written member | corrected member |
|---|---|---|---|---|---|---|
| speech_detector_enhanced.py:157 | calibration takes `np.mean` of the collected energies even when none were collected, which is NaN; `max(NaN * 1.5, 0.015)` is NaN, no energy compares above it, and calibration never repeats, so the detector never hears speech again | the audio stream delivers its first full 1.5 s chunk only after the 3 s calibration window, so no energy is collected | with no energies collected when the three seconds end, stay uncalibrated and keep collecting until an energy arrives, then calibrate from it | medium; not executed | SpeechEnhanced.ThresholdAsWrittenDeafens | SpeechEnhanced.CalibrationWaitsForASample |
| emotion_detector_deepface.py:338 | the success rate is computed from `failed_detections`, which line 122 zeroes on every found face | 99 frames without a face followed by one with a face: the reported rate is 1.0 | the share of all detections that found a face: 0.01 | medium; not executed | FaceDetector.SuccessRateAsWrittenForgetsFailures | FaceDetector.StatisticsOf |
