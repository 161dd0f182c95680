// Shared vocabulary of the detectors and analyzers: optional values, numpy's
// clip, bounded deques, means and variances over score windows, counting and
// majority votes over label windows, and argmax with numpy's tie-break.

module Common {

  datatype Option<T> = None | Some(value: T)

  /** An emotion label as a detector hands it on; None stands for Python's None. */
  type EmotionLabel = Option<string>

  /** Python's `not emotion`: no label, or the empty string. */
  predicate Missing(emotion: EmotionLabel)
  {
    emotion.None? || emotion.value == ""
  }

  /** numpy.clip(x, lo, hi) on a scalar. */
  function Clip(x: real, lo: real, hi: real): (r: real)
    requires lo <= hi
    ensures lo <= r <= hi
    ensures lo <= x <= hi ==> r == x
    ensures x < lo ==> r == lo
    ensures hi < x ==> r == hi
  {
    if x < lo then lo else if x > hi then hi else x
  }

  /** Python's built-in min on two numbers. */
  function Min(a: real, b: real): (r: real)
    ensures r <= a && r <= b
    ensures r == a || r == b
  {
    if b < a then b else a
  }

  /** Python's built-in max on two numbers. */
  function Max(a: real, b: real): (r: real)
    ensures a <= r && b <= r
    ensures r == a || r == b
  {
    if b > a then b else a
  }

  /**
    * The newest k elements of s: what a deque(maxlen=k) holds after its
    * elements were appended in the order of s, and what the slice s[-k:]
    * gives for k >= 1.
    */
  function Last<T>(s: seq<T>, k: nat): (r: seq<T>)
    ensures |r| == if |s| < k then |s| else k
  {
    if |s| <= k then s else s[|s| - k..]
  }

  /** Appending x to a deque(maxlen=k) keeps x as its newest element and never overflows. */
  lemma LastAppend<T>(s: seq<T>, x: T, k: nat)
    requires k > 0
    ensures |Last(s + [x], k)| <= k
    ensures Last(s + [x], k)[|Last(s + [x], k)| - 1] == x
    ensures |s| < k ==> Last(s + [x], k) == s + [x]
  {
  }

  /**
    * A list after `if len(s) > limit: s = s[-limit:]`. For a limit of 0 the
    * slice s[-0:] is the whole list, so nothing is dropped.
    */
  function KeepNewest<T>(s: seq<T>, limit: nat): (r: seq<T>)
    ensures limit > 0 ==> |r| <= limit
    ensures |s| <= limit || limit == 0 ==> r == s
    ensures r == s[|s| - |r|..]
  {
    if limit == 0 then s else Last(s, limit)
  }

  /**
    * buffer[-k:], the newest chunk: the last k samples when 0 < k <= |buffer|,
    * the whole buffer when k is 0 or larger than the buffer, and the buffer
    * without its first -k samples when k is negative.
    */
  function NewestChunk(buffer: seq<real>, k: int): (chunk: seq<real>)
    ensures 0 < k <= |buffer| ==> |chunk| == k
    ensures |chunk| <= |buffer|
    ensures chunk == buffer[|buffer| - |chunk|..]
    ensures k == 0 || k > |buffer| ==> chunk == buffer
  {
    if 0 < k <= |buffer| then buffer[|buffer| - k..]
    else if k < 0 then buffer[if -k < |buffer| then -k else |buffer|..]
    else buffer
  }

  /** Python's int() on a number: truncation toward zero. */
  function TruncateToInt(x: real): (n: int)
    ensures x >= 0.0 ==> 0 <= n && n as real <= x < n as real + 1.0
    ensures x < 0.0 ==> n <= 0 && n as real - 1.0 < x <= n as real
  {
    if x >= 0.0 then x.Floor else -((-x).Floor)
  }

  /** Absolute value (Python's abs on a number). */
  function Abs(x: real): (r: real)
    ensures r >= 0.0 && (r == x || r == -x)
  {
    if x < 0.0 then -x else x
  }

  /** numpy.sign on a scalar. */
  function Sign(x: real): int
  {
    if x > 0.0 then 1 else if x < 0.0 then -1 else 0
  }

  // Small facts about products of reals that the solver does not find alone.

  lemma MulNonneg(a: real, b: real)
    requires a >= 0.0 && b >= 0.0
    ensures a * b >= 0.0
  {
  }

  lemma MulMono(a: real, b: real, k: real)
    requires a <= b && k >= 0.0
    ensures a * k <= b * k
  {
    MulNonneg(b - a, k);
  }

  lemma NonnegFactor(a: real, t: real)
    requires t > 0.0 && a * t >= 0.0
    ensures a >= 0.0
  {
  }

  lemma DivBounds(x: real, t: real, lo: real, hi: real)
    requires t > 0.0 && lo * t <= x <= hi * t
    ensures lo <= x / t <= hi
  {
    var q := x / t;
    assert (q - lo) * t == x - lo * t;
    assert (hi - q) * t == hi * t - x;
    NonnegFactor(q - lo, t);
    NonnegFactor(hi - q, t);
  }

  /** The point a fraction alpha of the way from y to x. */
  function Lerp(alpha: real, x: real, y: real): real
  {
    y + alpha * (x - y)
  }

  /** A convex combination of two numbers lies between them. */
  lemma BlendBetween(alpha: real, x: real, y: real)
    requires 0.0 <= alpha <= 1.0
    ensures Min(x, y) <= Lerp(alpha, x, y) <= Max(x, y)
    ensures Lerp(alpha, x, y) == alpha * x + (1.0 - alpha) * y
  {
    if x >= y {
      MulNonneg(alpha, x - y);
      MulNonneg(1.0 - alpha, x - y);
    } else {
      MulNonneg(alpha, y - x);
      MulNonneg(1.0 - alpha, y - x);
    }
  }

  /** From the midpoint on, the interpolated point is at least as close to x as to y. */
  lemma LerpCloserToX(alpha: real, x: real, y: real)
    requires 0.5 <= alpha <= 1.0
    ensures Abs(Lerp(alpha, x, y) - x) <= Abs(Lerp(alpha, x, y) - y)
  {
    if x >= y {
      MulNonneg(2.0 * alpha - 1.0, x - y);
      MulNonneg(alpha, x - y);
      MulNonneg(1.0 - alpha, x - y);
    } else {
      MulNonneg(2.0 * alpha - 1.0, y - x);
      MulNonneg(alpha, y - x);
      MulNonneg(1.0 - alpha, y - x);
    }
  }

  /** Up to the midpoint, the interpolated point is at least as close to y as to x. */
  lemma LerpCloserToY(alpha: real, x: real, y: real)
    requires 0.0 <= alpha <= 0.5
    ensures Abs(Lerp(alpha, x, y) - y) <= Abs(Lerp(alpha, x, y) - x)
  {
    if x >= y {
      MulNonneg(1.0 - 2.0 * alpha, x - y);
      MulNonneg(alpha, x - y);
      MulNonneg(1.0 - alpha, x - y);
    } else {
      MulNonneg(1.0 - 2.0 * alpha, y - x);
      MulNonneg(alpha, y - x);
      MulNonneg(1.0 - alpha, y - x);
    }
  }

  /** The share part / total of a non-negative part of a positive total. */
  lemma ShareBounds(part: real, total: real)
    requires total > 0.0 && 0.0 <= part <= total
    ensures 0.0 <= part / total <= 1.0
    ensures part / total >= 0.5 <==> part >= total - part
    ensures part / total <= 0.5 <==> part <= total - part
  {
    DivBounds(part, total, 0.0, 1.0);
    var q := part / total;
    assert (q - 0.5) * total == part - 0.5 * total;
    if part >= total - part {
      NonnegFactor(q - 0.5, total);
    } else {
      NonnegFactor(0.5 - q, total);
    }
  }

  /** Keeping the newest elements of a bounded window keeps it within bounds. */
  lemma LastWithin(s: seq<real>, x: real, k: nat, lo: real, hi: real)
    requires AllWithin(s, lo, hi) && lo <= x <= hi
    ensures AllWithin(Last(s, k), lo, hi)
    ensures AllWithin(Last(s + [x], k), lo, hi)
  {
    var t := s + [x];
    assert AllWithin(t, lo, hi);
    var r := Last(t, k);
    assert forall i :: 0 <= i < |r| ==> r[i] == t[|t| - |r| + i];
  }

  // ---------------------------------------------------------------------------
  // Sums, means and variances (numpy's sum, mean and squared population std)
  // ---------------------------------------------------------------------------

  function Sum(s: seq<real>): real
  {
    if |s| == 0 then 0.0 else Sum(s[..|s| - 1]) + s[|s| - 1]
  }

  function Mean(s: seq<real>): real
    requires |s| > 0
  {
    Sum(s) / |s| as real
  }

  predicate AllWithin(s: seq<real>, lo: real, hi: real)
  {
    forall i :: 0 <= i < |s| ==> lo <= s[i] <= hi
  }

  lemma {:induction false} SumBounds(s: seq<real>, lo: real, hi: real)
    requires AllWithin(s, lo, hi)
    ensures lo * |s| as real <= Sum(s) <= hi * |s| as real
  {
    if |s| > 0 {
      SumBounds(s[..|s| - 1], lo, hi);
    }
  }

  /** A mean lies between every lower and every upper bound of its samples. */
  lemma MeanBounds(s: seq<real>, lo: real, hi: real)
    requires |s| > 0 && AllWithin(s, lo, hi)
    ensures lo <= Mean(s) <= hi
  {
    SumBounds(s, lo, hi);
    var n := |s| as real;
    assert lo * n <= Sum(s);
    assert Sum(s) <= hi * n;
  }

  /** Some sample is at most the mean and some sample at least the mean. */
  lemma MeanAttained(s: seq<real>)
    requires |s| > 0
    ensures exists i :: 0 <= i < |s| && s[i] <= Mean(s)
    ensures exists j :: 0 <= j < |s| && s[j] >= Mean(s)
  {
    MeanBounds(s, Minimum(s), Maximum(s));
  }

  function SquaredDeviation(s: seq<real>, m: real): (r: real)
    ensures r >= 0.0
  {
    if |s| == 0 then 0.0
    else
      var d := s[|s| - 1] - m;
      assert d * d >= 0.0;
      SquaredDeviation(s[..|s| - 1], m) + d * d
  }

  /** numpy.std(s) squared: the population variance. */
  function Variance(s: seq<real>): (r: real)
    requires |s| > 0
    ensures r >= 0.0
  {
    SquaredDeviation(s, Mean(s)) / |s| as real
  }

  /** A window of equal samples has no spread. */
  lemma {:induction false} ConstantSquaredDeviation(s: seq<real>, m: real)
    requires forall i :: 0 <= i < |s| ==> s[i] == m
    ensures SquaredDeviation(s, m) == 0.0
  {
    if |s| > 0 {
      ConstantSquaredDeviation(s[..|s| - 1], m);
    }
  }

  lemma ConstantVariance(s: seq<real>, m: real)
    requires |s| > 0
    requires forall i :: 0 <= i < |s| ==> s[i] == m
    ensures Mean(s) == m && Variance(s) == 0.0
  {
    MeanBounds(s, m, m);
    ConstantSquaredDeviation(s, m);
  }

  // ---------------------------------------------------------------------------
  // Square roots: numpy.sqrt and numpy.std are stated through their squares
  // ---------------------------------------------------------------------------

  /** r is the non-negative square root of x. */
  ghost predicate IsSquareRoot(r: real, x: real)
  {
    r >= 0.0 && r * r == x
  }

  /** Comparing a square root with a threshold is comparing the square with the threshold squared. */
  lemma RootAbove(r: real, x: real, t: real)
    requires IsSquareRoot(r, x) && t >= 0.0
    ensures r > t <==> x > t * t
  {
    if r > t {
      SquareBelow(t, r);
    } else if r < t {
      SquareBelow(r, t);
    }
  }

  lemma SquareBelow(a: real, b: real)
    requires 0.0 <= a < b
    ensures a * a < b * b
  {
    PositiveProduct(b - a, b + a);
    assert (b - a) * (b + a) == b * b - a * a;
  }

  lemma PositiveProduct(a: real, b: real)
    requires a > 0.0 && b > 0.0
    ensures a * b > 0.0
  {
  }

  function Squares(x: seq<real>): (r: seq<real>)
    ensures |r| == |x|
    ensures forall i :: 0 <= i < |x| ==> r[i] == x[i] * x[i]
  {
    seq(|x|, i requires 0 <= i < |x| => x[i] * x[i])
  }

  function MeanSquare(chunk: seq<real>): real
    requires |chunk| > 0
  {
    Mean(Squares(chunk))
  }

  /** np.sqrt(np.mean(chunk ** 2)): the RMS energy of a non-empty chunk. */
  ghost predicate IsRms(energy: real, chunk: seq<real>)
  {
    |chunk| > 0 && IsSquareRoot(energy, MeanSquare(chunk))
  }

  /** Python's min over a non-empty list. */
  function Minimum(s: seq<real>): (m: real)
    requires |s| > 0
    ensures forall i :: 0 <= i < |s| ==> m <= s[i]
    ensures exists i :: 0 <= i < |s| && m == s[i]
  {
    if |s| == 1 then s[0] else Min(Minimum(s[..|s| - 1]), s[|s| - 1])
  }

  /** Python's max over a non-empty list. */
  function Maximum(s: seq<real>): (m: real)
    requires |s| > 0
    ensures forall i :: 0 <= i < |s| ==> s[i] <= m
    ensures exists i :: 0 <= i < |s| && m == s[i]
  {
    if |s| == 1 then s[0] else Max(Maximum(s[..|s| - 1]), s[|s| - 1])
  }

  // ---------------------------------------------------------------------------
  // argmax: numpy.argmax, and Python's max(..., key=...) over an ordered
  // collection, both return the FIRST position holding the maximum
  // ---------------------------------------------------------------------------

  function ArgMax(s: seq<real>): (k: nat)
    requires |s| > 0
    ensures k < |s|
    ensures forall i :: 0 <= i < |s| ==> s[i] <= s[k]
    ensures forall i :: 0 <= i < k ==> s[i] < s[k]
  {
    if |s| == 1 then 0
    else
      var j := ArgMax(s[..|s| - 1]);
      if s[|s| - 1] > s[j] then |s| - 1 else j
  }

  // ---------------------------------------------------------------------------
  // Counting and majority vote over a window of labels
  // ---------------------------------------------------------------------------

  function Count<T(==)>(s: seq<T>, x: T): (n: nat)
    ensures n <= |s|
    ensures n > 0 <==> x in s
  {
    if |s| == 0 then 0
    else
      assert s == s[..|s| - 1] + [s[|s| - 1]];
      Count(s[..|s| - 1], x) + (if s[|s| - 1] == x then 1 else 0)
  }

  function FirstIndex<T(==)>(s: seq<T>, x: T): (i: nat)
    requires x in s
    ensures i < |s| && s[i] == x
    ensures x !in s[..i]
  {
    if s[0] == x then 0
    else
      var j := FirstIndex(s[1..], x);
      assert s[..j + 1] == [s[0]] + s[1..][..j];
      j + 1
  }

  /**
    * x is the label Python's `max(counts, key=counts.get)` picks when counts
    * was filled by one pass over w: it occurs in w, no label occurs more
    * often, and among the labels that occur as often it was seen first.
    */
  ghost predicate IsMode<T>(w: seq<T>, x: T)
  {
    && x in w
    && (forall y :: y in w ==> Count(w, y) <= Count(w, x))
    && (forall y :: y in w && Count(w, y) == Count(w, x) ==> FirstIndex(w, x) <= FirstIndex(w, y))
  }

  /** Per position, how often the label at that position occurs in w. */
  function PositionCounts<T(==)>(w: seq<T>): (cs: seq<real>)
    ensures |cs| == |w|
    ensures forall i :: 0 <= i < |w| ==> cs[i] == Count(w, w[i]) as real
  {
    seq(|w|, i requires 0 <= i < |w| => Count(w, w[i]) as real)
  }

  /** The majority label of a non-empty window, earliest first occurrence winning ties. */
  function Mode<T(==)>(w: seq<T>): (x: T)
    requires |w| > 0
    ensures IsMode(w, x)
  {
    var cs := PositionCounts(w);
    var i := ArgMax(cs);
    ModeAt(w, cs, i);
    w[i]
  }

  lemma ModeAt<T>(w: seq<T>, cs: seq<real>, i: nat)
    requires |w| > 0 && cs == PositionCounts(w)
    requires i < |w|
    requires forall k :: 0 <= k < |cs| ==> cs[k] <= cs[i]
    requires forall k :: 0 <= k < i ==> cs[k] < cs[i]
    ensures IsMode(w, w[i])
  {
    var x := w[i];
    var fx := FirstIndex(w, x);
    assert fx <= i;
    forall y | y in w
      ensures Count(w, y) <= Count(w, x)
      ensures Count(w, y) == Count(w, x) ==> fx <= FirstIndex(w, y)
    {
      var j := FirstIndex(w, y);
      assert cs[j] == Count(w, y) as real;
      if Count(w, y) == Count(w, x) {
        assert cs[j] == cs[i];
        assert j >= i;
      }
    }
  }

  /** At most one label is the mode of a window. */
  lemma ModeUnique<T>(w: seq<T>, x: T, y: T)
    requires IsMode(w, x) && IsMode(w, y)
    ensures x == y
  {
    assert Count(w, x) == Count(w, y);
    assert FirstIndex(w, x) == FirstIndex(w, y);
  }

  /** Dictionary insertion order: keys listed once each, in first-seen order in w. */
  ghost predicate InFirstSeenOrder<T>(w: seq<T>, order: seq<T>)
  {
    && (forall a :: 0 <= a < |order| ==> order[a] in w)
    && (forall a, b :: 0 <= a < b < |order| ==> FirstIndex(w, order[a]) < FirstIndex(w, order[b]))
  }

  /**
    * The counting loop of the source: one pass over w that bumps
    * counts[e] (inserting e with count 1 the first time it is seen).
    */
  method CountLabels<T(==)>(w: seq<T>) returns (counts: map<T, nat>, order: seq<T>)
    ensures forall k :: k in counts <==> k in w
    ensures forall k :: k in counts ==> counts[k] == Count(w, k)
    ensures forall k :: k in counts <==> k in order
    ensures InFirstSeenOrder(w, order)
  {
    counts := map[];
    order := [];
    var i := 0;
    while i < |w|
      invariant 0 <= i <= |w|
      invariant forall k :: k in counts <==> k in w[..i]
      invariant forall k :: k in counts ==> counts[k] == Count(w[..i], k)
      invariant forall k :: k in counts <==> k in order
      invariant forall a :: 0 <= a < |order| ==> order[a] in w && FirstIndex(w, order[a]) < i
      invariant InFirstSeenOrder(w, order)
    {
      var e := w[i];
      CountsGrow(w, i, counts);
      if e in counts {
        counts := counts[e := counts[e] + 1];
      } else {
        OrderGrows(w, i, order);
        counts := counts[e := 1];
        order := order + [e];
      }
      i := i + 1;
    }
    assert w[..i] == w;
  }

  /** One more sample of w: the counts over w[..i + 1] are those over w[..i], with w[i] counted once more. */
  lemma CountsGrow<T>(w: seq<T>, i: nat, counts: map<T, nat>)
    requires i < |w|
    requires forall k :: k in counts <==> k in w[..i]
    requires forall k :: k in counts ==> counts[k] == Count(w[..i], k)
    ensures var e := w[i];
            var grown := if e in counts then counts[e := counts[e] + 1] else counts[e := 1];
            && (forall k :: k in grown <==> k in w[..i + 1])
            && (forall k :: k in grown ==> grown[k] == Count(w[..i + 1], k))
  {
    assert w[..i + 1] == w[..i] + [w[i]];
  }

  /** A label first seen at index i extends the first-seen order. */
  lemma OrderGrows<T>(w: seq<T>, i: nat, order: seq<T>)
    requires i < |w| && w[i] !in w[..i]
    requires forall a :: 0 <= a < |order| ==> order[a] in w && FirstIndex(w, order[a]) < i
    requires InFirstSeenOrder(w, order)
    ensures forall a :: 0 <= a < |order| + 1 ==> (order + [w[i]])[a] in w && FirstIndex(w, (order + [w[i]])[a]) < i + 1
    ensures InFirstSeenOrder(w, order + [w[i]])
  {
    assert FirstIndex(w, w[i]) == i;
  }

  /** Python's max(counts, key=counts.get): the first key, in order, with the largest count. */
  method FirstMaxKey<T(==)>(counts: map<T, nat>, order: seq<T>) returns (bi: nat)
    requires |order| > 0
    requires forall a :: 0 <= a < |order| ==> order[a] in counts
    ensures bi < |order|
    ensures forall k :: 0 <= k < |order| ==> counts[order[k]] <= counts[order[bi]]
    ensures forall k :: 0 <= k < bi ==> counts[order[k]] < counts[order[bi]]
  {
    bi := 0;
    var j := 1;
    while j < |order|
      invariant 1 <= j <= |order|
      invariant 0 <= bi < j
      invariant forall k :: 0 <= k < j ==> counts[order[k]] <= counts[order[bi]]
      invariant forall k :: 0 <= k < bi ==> counts[order[k]] < counts[order[bi]]
    {
      if counts[order[j]] > counts[order[bi]] {
        bi := j;
      }
      j := j + 1;
    }
  }

  lemma MajorityIsMode<T>(w: seq<T>, counts: map<T, nat>, order: seq<T>, bi: nat)
    requires forall k :: k in counts <==> k in w
    requires forall k :: k in counts ==> counts[k] == Count(w, k)
    requires forall k :: k in counts <==> k in order
    requires InFirstSeenOrder(w, order)
    requires bi < |order|
    requires forall k :: 0 <= k < |order| ==> counts[order[k]] <= counts[order[bi]]
    requires forall k :: 0 <= k < bi ==> counts[order[k]] < counts[order[bi]]
    ensures IsMode(w, order[bi])
  {
    var best := order[bi];
    forall y | y in w
      ensures Count(w, y) <= Count(w, best)
      ensures Count(w, y) == Count(w, best) ==> FirstIndex(w, best) <= FirstIndex(w, y)
    {
      var k :| 0 <= k < |order| && order[k] == y;
      assert counts[order[k]] == Count(w, y);
      if Count(w, y) == Count(w, best) {
        assert bi <= k;
        if bi < k {
          assert FirstIndex(w, order[bi]) < FirstIndex(w, order[k]);
        }
      }
    }
  }

  /** The majority vote of the source: count the labels of w, then take the most frequent. */
  method Majority<T(==)>(w: seq<T>) returns (best: T, count: nat)
    requires |w| > 0
    ensures best == Mode(w)
    ensures count == Count(w, best)
  {
    var counts, order := CountLabels(w);
    assert w[0] in order;
    var bi := FirstMaxKey(counts, order);
    best := order[bi];
    count := counts[best];
    MajorityIsMode(w, counts, order, bi);
    ModeUnique(w, best, Mode(w));
  }

  // ---------------------------------------------------------------------------
  // Text
  // ---------------------------------------------------------------------------

  function LowerChar(c: char): char
  {
    if 'A' <= c <= 'Z' then (c as int + 32) as char else c
  }

  /** str.lower() on ASCII letters. */
  function ToLower(s: string): (r: string)
    ensures |r| == |s|
    ensures forall i :: 0 <= i < |s| ==> r[i] == LowerChar(s[i])
  {
    seq(|s|, i requires 0 <= i < |s| => LowerChar(s[i]))
  }

  lemma ToLowerIdempotent(s: string)
    ensures ToLower(ToLower(s)) == ToLower(s)
  {
  }
}
