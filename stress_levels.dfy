// What both stress analyzers share: the five stress levels they report, the
// score thresholds that bucket a score into them, the numeric code attached
// to a level name, the level distribution and the half-window trend of their
// statistics.

module StressLevels {

  import opened Common

  datatype Level = Relaxed | Calm | MildStress | ModerateStress | HighStress

  /** The level names the analyzers return. */
  function LevelName(l: Level): string
  {
    match l
    case Relaxed => "RELAXED"
    case Calm => "CALM"
    case MildStress => "MILD STRESS"
    case ModerateStress => "MODERATE STRESS"
    case HighStress => "HIGH STRESS"
  }

  /** Position of a level on the scale, RELAXED = 0 ... HIGH STRESS = 4. */
  function Rank(l: Level): nat
  {
    match l
    case Relaxed => 0
    case Calm => 1
    case MildStress => 2
    case ModerateStress => 3
    case HighStress => 4
  }

  /** Lower bounds of CALM, MILD STRESS, MODERATE STRESS and HIGH STRESS. */
  const Thresholds: seq<real> := [0.25, 0.45, 0.65, 0.80]

  /** Score to level with strict upper bounds 0.25 / 0.45 / 0.65 / 0.80. */
  function LevelOf(score: real): Level
  {
    if score < 0.25 then Relaxed
    else if score < 0.45 then Calm
    else if score < 0.65 then MildStress
    else if score < 0.80 then ModerateStress
    else HighStress
  }

  /** How many of the thresholds a score has reached. */
  function ThresholdsReached(ts: seq<real>, score: real): (n: nat)
    ensures n <= |ts|
  {
    if |ts| == 0 then 0
    else ThresholdsReached(ts[..|ts| - 1], score) + (if ts[|ts| - 1] <= score then 1 else 0)
  }

  /** The level of a score is the number of thresholds it has reached. */
  lemma LevelOfCountsThresholds(score: real)
    ensures Rank(LevelOf(score)) == ThresholdsReached(Thresholds, score)
  {
    var b0 := if 0.25 <= score then 1 else 0;
    var b1 := if 0.45 <= score then 1 else 0;
    var b2 := if 0.65 <= score then 1 else 0;
    var b3 := if 0.80 <= score then 1 else 0;
    assert Thresholds[..3] == [0.25, 0.45, 0.65];
    assert [0.25, 0.45, 0.65][..2] == [0.25, 0.45];
    assert [0.25, 0.45][..1] == [0.25];
    assert [0.25][..0] == [];
    assert ThresholdsReached([0.25], score) == b0;
    assert ThresholdsReached([0.25, 0.45], score) == b0 + b1;
    assert ThresholdsReached([0.25, 0.45, 0.65], score) == b0 + b1 + b2;
    assert ThresholdsReached(Thresholds, score) == b0 + b1 + b2 + b3;
  }

  /** Bucketing never ranks a higher score below a lower one. */
  lemma LevelOfMonotone(s: real, t: real)
    requires s <= t
    ensures Rank(LevelOf(s)) <= Rank(LevelOf(t))
  {
  }

  /**
    * The level-name-to-number map of the analyzers: the five names map to
    * 0..4 and any other string to 1.
    */
  function NumericOfName(name: string): (n: nat)
    ensures n <= 4
  {
    if name == "RELAXED" then 0
    else if name == "CALM" then 1
    else if name == "MILD STRESS" then 2
    else if name == "MODERATE STRESS" then 3
    else if name == "HIGH STRESS" then 4
    else 1
  }

  /** A string that names no level maps to 1. */
  lemma NumericOfUnknownName(name: string)
    requires forall l :: name != LevelName(l)
    ensures NumericOfName(name) == 1
  {
    assert name != LevelName(Relaxed) && name != LevelName(Calm) && name != LevelName(MildStress);
    assert name != LevelName(ModerateStress) && name != LevelName(HighStress);
  }

  /** Every level name maps back to that level's rank. */
  lemma NumericOfLevelName(l: Level)
    ensures NumericOfName(LevelName(l)) == Rank(l)
  {
  }

  /** Counter over a sequence of levels: each level that occurs, with its count. */
  function Distribution(levels: seq<Level>): (d: map<Level, nat>)
    ensures forall l :: l in d <==> l in levels
    ensures forall l :: l in d ==> d[l] == Count(levels, l)
  {
    map l | l in levels :: Count(levels, l)
  }

  datatype Trend = Increasing | Decreasing | Stable

  /**
    * Trend over a window of scores: with at least minSamples scores, the
    * mean of the second half against the mean of the first half (the first
    * half has |recent| / 2 scores), with the given margin.
    */
  function HalfTrend(recent: seq<real>, minSamples: nat, margin: real): Trend
    requires minSamples >= 2
  {
    if |recent| >= minSamples then
      var h := |recent| / 2;
      var first := Mean(recent[..h]);
      var second := Mean(recent[h..]);
      if second > first + margin then Increasing
      else if second < first - margin then Decreasing
      else Stable
    else Stable
  }

  /** A rising or falling trend needs a spread of more than the margin between the extremes. */
  lemma TrendNeedsSpread(recent: seq<real>, minSamples: nat, margin: real)
    requires minSamples >= 2
    requires HalfTrend(recent, minSamples, margin) != Stable
    ensures |recent| >= minSamples
    ensures Maximum(recent) - Minimum(recent) > margin
  {
    var h := |recent| / 2;
    var lo, hi := Minimum(recent), Maximum(recent);
    assert recent == recent[..h] + recent[h..];
    assert AllWithin(recent[..h], lo, hi);
    assert AllWithin(recent[h..], lo, hi);
    MeanBounds(recent[..h], lo, hi);
    MeanBounds(recent[h..], lo, hi);
  }

  /** A window of one repeated score has no trend. */
  lemma ConstantHasNoTrend(recent: seq<real>, minSamples: nat, margin: real, x: real)
    requires minSamples >= 2 && margin >= 0.0
    requires forall i :: 0 <= i < |recent| ==> recent[i] == x
    ensures HalfTrend(recent, minSamples, margin) == Stable
  {
    if |recent| >= minSamples {
      var h := |recent| / 2;
      MeanBounds(recent[..h], x, x);
      MeanBounds(recent[h..], x, x);
    }
  }
}
