/**
  Ratio intervals and verdicts (src/format_bench/equivalence.py), over exact reals and an
  arbitrary source of resampling indices.
*/
module Equivalence {
  import opened Common

  datatype Verdict = PracticallyEquivalent | MeaningfulDifference | Inconclusive | NotApplicable

  datatype Metric = NativeBytes | TransportBytes | P50 | P95

  datatype Bounds = Bounds(size: real, p50: real, p95: real)

  datatype RatioInterval = RatioInterval(metric: Metric, ratio: real, lower: real, upper: real,
                                         samples: nat, alpha: real, lowerIndex: int, upperIndex: int)

  datatype Failure = TooFewSamples | BadAlpha | TooFewObservations | NotPositive

  datatype Outcome = Estimated(interval: RatioInterval) | Raised(failure: Failure)

  /** For a seed, a replicate and a draw within it: any number at all, taken modulo the group's size. */
  type Rng = (int, nat, nat) -> nat

  function ForMetric(b: Bounds, metric: Metric): real {
    match metric
    case NativeBytes | TransportBytes => b.size
    case P50 => b.p50
    case P95 => b.p95
  }

  // ---------- Verdicts ----------

  function ClassifyInterval(i: RatioInterval, b: Bounds): Verdict {
    var lower, upper := 1.0 - ForMetric(b, i.metric), 1.0 + ForMetric(b, i.metric);
    if i.lower >= lower && i.upper <= upper then PracticallyEquivalent
    else if i.upper < lower || i.lower > upper then MeaningfulDifference
    else Inconclusive
  }

  /** A ratio of the interval. */
  predicate Spans(i: RatioInterval, x: real) { i.lower <= x <= i.upper }

  /**
    The verdict in numbers: equivalent exactly when every ratio of the interval is within
    the metric's bound of one, different exactly when it is not and they all lie below or
    all above that range.
  */
  lemma VerdictMeans(i: RatioInterval, b: Bounds, d: real)
    requires i.lower <= i.upper
    requires d == if i.metric == P50 then b.p50 else if i.metric == P95 then b.p95 else b.size
    ensures ClassifyInterval(i, b) == PracticallyEquivalent <==> forall x :: Spans(i, x) ==> 1.0 - d <= x <= 1.0 + d
    ensures ClassifyInterval(i, b) == MeaningfulDifference <==>
      !(forall x :: Spans(i, x) ==> 1.0 - d <= x <= 1.0 + d)
      && ((forall x :: Spans(i, x) ==> x < 1.0 - d) || (forall x :: Spans(i, x) ==> x > 1.0 + d))
    ensures ClassifyInterval(i, b) != NotApplicable
  {
    assert Spans(i, i.lower) && Spans(i, i.upper);
  }

  function Verdicts(intervals: seq<RatioInterval>, b: Bounds): set<Verdict> {
    set i | i in intervals :: ClassifyInterval(i, b)
  }

  function ClassifyMetrics(intervals: seq<RatioInterval>, b: Bounds): Verdict {
    if intervals == [] then NotApplicable
    else if MeaningfulDifference in Verdicts(intervals, b) then MeaningfulDifference
    else if Verdicts(intervals, b) == {PracticallyEquivalent} then PracticallyEquivalent
    else Inconclusive
  }

  /** j covers i, for the same metric. */
  predicate Wider(j: RatioInterval, i: RatioInterval) {
    j.metric == i.metric && j.lower <= i.lower <= i.upper <= j.upper
  }

  /** A wider interval keeps its verdict or loses it to INCONCLUSIVE; an inconclusive one stays so. */
  lemma WideningKeepsOrBlurs(i: RatioInterval, j: RatioInterval, b: Bounds)
    requires Wider(j, i)
    ensures ClassifyInterval(j, b) == ClassifyInterval(i, b) || ClassifyInterval(j, b) == Inconclusive
    ensures ClassifyInterval(i, b) == Inconclusive ==> ClassifyInterval(j, b) == Inconclusive
  {
  }

  ghost predicate AllWider(ys: seq<RatioInterval>, xs: seq<RatioInterval>) {
    |ys| == |xs| && forall k :: 0 <= k < |xs| ==> Wider(ys[k], xs[k])
  }

  /** The three verdicts in terms of the single intervals. */
  lemma ClassifyMetricsMeans(xs: seq<RatioInterval>, b: Bounds)
    ensures ClassifyMetrics(xs, b) == NotApplicable <==> xs == []
    ensures ClassifyMetrics(xs, b) == MeaningfulDifference <==> exists k :: 0 <= k < |xs| && ClassifyInterval(xs[k], b) == MeaningfulDifference
    ensures ClassifyMetrics(xs, b) == PracticallyEquivalent <==>
      xs != [] && forall k :: 0 <= k < |xs| ==> ClassifyInterval(xs[k], b) == PracticallyEquivalent
  {
    if exists k :: 0 <= k < |xs| && ClassifyInterval(xs[k], b) == MeaningfulDifference {
      var k :| 0 <= k < |xs| && ClassifyInterval(xs[k], b) == MeaningfulDifference;
      assert xs[k] in xs;
    }
    if xs != [] {
      assert xs[0] in xs;
      assert ClassifyInterval(xs[0], b) in Verdicts(xs, b);
      forall k | 0 <= k < |xs| ensures ClassifyInterval(xs[k], b) in Verdicts(xs, b) { assert xs[k] in xs; }
    }
  }

  /** Several metrics together behave the same. */
  lemma WideningMetrics(xs: seq<RatioInterval>, ys: seq<RatioInterval>, b: Bounds)
    requires AllWider(ys, xs)
    ensures ClassifyMetrics(ys, b) == ClassifyMetrics(xs, b) || ClassifyMetrics(ys, b) == Inconclusive
    ensures ClassifyMetrics(xs, b) == Inconclusive ==> ClassifyMetrics(ys, b) == Inconclusive
  {
    ClassifyMetricsMeans(xs, b);
    ClassifyMetricsMeans(ys, b);
    forall k | 0 <= k < |xs|
      ensures ClassifyInterval(ys[k], b) == ClassifyInterval(xs[k], b) || ClassifyInterval(ys[k], b) == Inconclusive
      ensures ClassifyInterval(xs[k], b) == Inconclusive ==> ClassifyInterval(ys[k], b) == Inconclusive
    {
      WideningKeepsOrBlurs(xs[k], ys[k], b);
    }
  }

  // ---------- Sorted reals and medians ----------

  function Insert(x: real, s: seq<real>): seq<real> {
    if s == [] || x <= s[0] then [x] + s else [s[0]] + Insert(x, s[1..])
  }

  function Sorted(s: seq<real>): (r: seq<real>)
    ensures |r| == |s|
  {
    if s == [] then [] else InsertLength(s[0], Sorted(s[1..])); Insert(s[0], Sorted(s[1..]))
  }

  lemma InsertLength(x: real, s: seq<real>)
    ensures |Insert(x, s)| == |s| + 1
  {
  }

  ghost predicate Ascending(s: seq<real>) { forall i, j :: 0 <= i < j < |s| ==> s[i] <= s[j] }

  ghost predicate Within(s: seq<real>, lo: real, hi: real) { forall i :: 0 <= i < |s| ==> lo <= s[i] <= hi }

  lemma {:induction false} InsertElements(x: real, s: seq<real>)
    ensures multiset(Insert(x, s)) == multiset(s) + multiset{x}
  {
    if s != [] {
      if x > s[0] { InsertElements(x, s[1..]); }
      assert s == [s[0]] + s[1..];
    }
  }

  lemma InsertMember(x: real, s: seq<real>, y: real)
    requires y in Insert(x, s)
    ensures y == x || y in s
  {
  }

  lemma {:induction false} InsertAscending(x: real, s: seq<real>)
    requires Ascending(s)
    ensures Ascending(Insert(x, s))
  {
    if s != [] && x > s[0] {
      var rest := Insert(x, s[1..]);
      InsertAscending(x, s[1..]);
      forall j | 0 <= j < |rest| ensures s[0] <= rest[j] { InsertMember(x, s[1..], rest[j]); }
    }
  }

  lemma {:induction false} SortedElements(s: seq<real>)
    ensures multiset(Sorted(s)) == multiset(s)
  {
    if s != [] {
      SortedElements(s[1..]);
      InsertElements(s[0], Sorted(s[1..]));
      assert s == [s[0]] + s[1..];
    }
  }

  lemma {:induction false} SortedAscending(s: seq<real>)
    ensures Ascending(Sorted(s))
  {
    if s != [] {
      SortedAscending(s[1..]);
      InsertAscending(s[0], Sorted(s[1..]));
    }
  }

  lemma SortedSorts(s: seq<real>)
    ensures Ascending(Sorted(s)) && multiset(Sorted(s)) == multiset(s)
  {
    SortedAscending(s);
    SortedElements(s);
  }

  lemma SortedWithin(s: seq<real>, lo: real, hi: real)
    requires Within(s, lo, hi)
    ensures Within(Sorted(s), lo, hi)
  {
    SortedSorts(s);
    forall i | 0 <= i < |Sorted(s)| ensures lo <= Sorted(s)[i] <= hi {
      assert Sorted(s)[i] in multiset(s);
    }
  }

  /** statistics.median. */
  function Median(s: seq<real>): real
    requires s != []
  {
    var n := |s|;
    if n % 2 == 1 then Sorted(s)[n / 2] else (Sorted(s)[n / 2 - 1] + Sorted(s)[n / 2]) / 2.0
  }

  lemma SameSize(s: seq<real>, t: seq<real>)
    requires multiset(s) == multiset(t)
    ensures |s| == |t|
  {
    assert |s| == |multiset(s)| == |multiset(t)| == |t|;
  }

  lemma WithoutFirst(s: seq<real>)
    requires s != []
    ensures multiset(s[1..]) == multiset(s) - multiset{s[0]}
  {
    assert s == [s[0]] + s[1..];
  }

  lemma RestsSame(s: seq<real>, t: seq<real>)
    requires s != [] && t != [] && s[0] == t[0] && multiset(s) == multiset(t)
    ensures multiset(s[1..]) == multiset(t[1..])
  {
    WithoutFirst(s);
    WithoutFirst(t);
  }

  lemma FirstsSame(s: seq<real>, t: seq<real>)
    requires s != [] && t != [] && Ascending(s) && Ascending(t) && multiset(s) == multiset(t)
    ensures s[0] == t[0]
  {
    LeastFirst(s, t[0], t);
    LeastFirst(t, s[0], s);
  }

  lemma FirstAndRest(s: seq<real>, t: seq<real>)
    requires s != [] && t != [] && s[0] == t[0] && s[1..] == t[1..]
    ensures s == t
  {
    assert s == [s[0]] + s[1..] && t == [t[0]] + t[1..];
  }

  lemma AscendingRest(s: seq<real>)
    requires s != [] && Ascending(s)
    ensures Ascending(s[1..])
  {
  }

  lemma {:induction false} AscendingUnique(s: seq<real>, t: seq<real>)
    requires Ascending(s) && Ascending(t) && multiset(s) == multiset(t)
    ensures s == t
  {
    hide Ascending;
    SameSize(s, t);
    if s != [] {
      FirstsSame(s, t);
      RestsSame(s, t);
      AscendingRest(s);
      AscendingRest(t);
      AscendingUnique(s[1..], t[1..]);
      FirstAndRest(s, t);
    }
  }

  lemma LeastFirst(s: seq<real>, x: real, t: seq<real>)
    requires Ascending(s) && t != [] && x == t[0] && multiset(s) == multiset(t)
    ensures s != [] && s[0] <= x
  {
    assert x in multiset(t);
    assert x in s;
  }

  /** The median is the middle of the observations in ascending order, or halfway between the two middle ones. */
  lemma MedianMeans(s: seq<real>, t: seq<real>)
    requires s != [] && Ascending(t) && multiset(t) == multiset(s)
    ensures |t| == |s|
    ensures |s| % 2 == 1 ==> Median(s) == t[|s| / 2]
    ensures |s| % 2 == 0 ==> Median(s) == (t[|s| / 2 - 1] + t[|s| / 2]) / 2.0
  {
    SortedSorts(s);
    AscendingUnique(Sorted(s), t);
  }

  lemma MedianWithin(s: seq<real>, lo: real, hi: real)
    requires s != [] && Within(s, lo, hi)
    ensures lo <= Median(s) <= hi
  {
    SortedWithin(s, lo, hi);
  }

  // ---------- Bootstrap ----------

  predicate Positive(s: seq<real>) { forall i :: 0 <= i < |s| ==> s[i] > 0.0 }

  function Resample(s: seq<real>, rng: Rng, seed: int, replicate: nat, start: nat): (r: seq<real>)
    requires s != []
    ensures |r| == |s| && forall i :: 0 <= i < |r| ==> r[i] in s
  {
    seq(|s|, j requires 0 <= j < |s| => s[rng(seed, replicate, start + j) % |s|])
  }

  lemma SmallRemainder(a: nat, n: nat)
    requires a < n
    ensures a % n == a
  {
  }

  /** Every choice of observations, repeated or not, is drawn by some generator. */
  lemma AnyDraw(s: seq<real>, picks: seq<nat>, seed: int, replicate: nat, start: nat) returns (rng: Rng)
    requires s != [] && |picks| == |s| && forall j :: 0 <= j < |s| ==> picks[j] < |s|
    ensures forall j :: 0 <= j < |s| ==> Resample(s, rng, seed, replicate, start)[j] == s[picks[j]]
  {
    hide Median;
    rng := (a: int, b: nat, k: nat) => if start <= k < start + |picks| then picks[k - start] else 0;
    forall j | 0 <= j < |s| ensures Resample(s, rng, seed, replicate, start)[j] == s[picks[j]] {
      assert rng(seed, replicate, start + j) == picks[j];
      SmallRemainder(picks[j], |s|);
    }
  }

  lemma ResampleWithin(s: seq<real>, rng: Rng, seed: int, replicate: nat, start: nat, lo: real, hi: real)
    requires s != [] && Within(s, lo, hi)
    ensures Within(Resample(s, rng, seed, replicate, start), lo, hi)
  {
  }

  lemma ResamplePositive(s: seq<real>, rng: Rng, seed: int, replicate: nat, start: nat)
    requires s != [] && Positive(s)
    ensures Median(Resample(s, rng, seed, replicate, start)) > 0.0
  {
    var r := Resample(s, rng, seed, replicate, start);
    SortedSorts(r);
    forall i | 0 <= i < |r| ensures Sorted(r)[i] > 0.0 {
      assert Sorted(r)[i] in multiset(r);
    }
  }

  /** One replicate's ratio of medians: the reference group is drawn first. */
  function Replicate(left: seq<real>, right: seq<real>, rng: Rng, seed: int, i: nat): real
    requires left != [] && right != [] && Positive(left)
  {
    ResamplePositive(left, rng, seed, i, 0);
    Median(Resample(right, rng, seed, i, |left|)) / Median(Resample(left, rng, seed, i, 0))
  }

  function Replicates(left: seq<real>, right: seq<real>, rng: Rng, seed: int, samples: nat): (r: seq<real>)
    requires left != [] && right != [] && Positive(left)
    ensures |r| == samples
  {
    seq(samples, i requires 0 <= i < samples => Replicate(left, right, rng, seed, i))
  }

  function Ceil(x: real): int { -((-x).Floor) }

  /** The replicates below the interval, and those not above it, before rounding. */
  function Below(alpha: real, samples: nat): real { alpha / 2.0 * samples as real }

  function NotAbove(alpha: real, samples: nat): real { (1.0 - alpha / 2.0) * samples as real }

  function LowerIndex(alpha: real, samples: nat): int { Below(alpha, samples).Floor }

  function UpperIndex(alpha: real, samples: nat): int { Ceil(NotAbove(alpha, samples)) - 1 }

  lemma FloorBounds(x: real)
    ensures x.Floor as real <= x < x.Floor as real + 1.0
  {
  }

  lemma CeilReflects(x: real, n: int)
    ensures Ceil(n as real - x) == n - x.Floor
  {
    assert -(n as real - x) == x - n as real;
    FloorBounds(x);
    FloorBounds(x - n as real);
  }

  lemma Scaled(alpha: real, s: real)
    requires 0.0 < alpha < 1.0 && s >= 1.0
    ensures 0.0 <= alpha / 2.0 * s && 2.0 * (alpha / 2.0 * s) < s
    ensures (1.0 - alpha / 2.0) * s == s - alpha / 2.0 * s
  {
    assert alpha * s < s by { assert (1.0 - alpha) * s > 0.0; }
  }

  lemma BelowHalf(alpha: real, samples: nat)
    requires 0.0 < alpha < 1.0 && samples >= 1
    ensures 0.0 <= Below(alpha, samples) && 2.0 * Below(alpha, samples) < samples as real
    ensures NotAbove(alpha, samples) == samples as real - Below(alpha, samples)
  {
    Scaled(alpha, samples as real);
  }

  lemma BelowGrows(small: real, large: real, samples: nat)
    requires small <= large
    ensures Below(small, samples) <= Below(large, samples)
  {
    assert (large - small) / 2.0 * samples as real >= 0.0;
  }

  lemma Mirror(x: real, n: int)
    requires 0.0 <= x && 2.0 * x < n as real
    ensures 0 <= x.Floor <= n - x.Floor - 1 < n
  {
    FloorBounds(x);
  }

  /** The two indices mirror each other, are in range and in order. */
  lemma IndicesMirror(alpha: real, samples: nat)
    requires 0.0 < alpha < 1.0 && samples >= 1
    ensures LowerIndex(alpha, samples) + UpperIndex(alpha, samples) == samples - 1
    ensures 0 <= LowerIndex(alpha, samples) <= UpperIndex(alpha, samples) < samples
  {
    hide Below, NotAbove;
    BelowHalf(alpha, samples);
    CeilReflects(Below(alpha, samples), samples);
    Mirror(Below(alpha, samples), samples);
  }

  lemma FloorMonotone(x: real, y: real)
    requires x <= y
    ensures x.Floor <= y.Floor
  {
    FloorBounds(x);
    FloorBounds(y);
  }

  lemma IndicesWiden(small: real, large: real, samples: nat)
    requires 0.0 < small <= large < 1.0 && samples >= 1
    ensures 0 <= LowerIndex(small, samples) <= LowerIndex(large, samples)
    ensures UpperIndex(large, samples) <= UpperIndex(small, samples) < samples
  {
    hide Below, NotAbove;
    IndicesMirror(small, samples);
    IndicesMirror(large, samples);
    BelowGrows(small, large, samples);
    FloorMonotone(Below(small, samples), Below(large, samples));
  }

  lemma Quotient(x: real, y: real, a: real, b: real, c: real, d: real)
    requires 0.0 < a <= y <= b && 0.0 <= c <= x <= d
    ensures c / b <= x / y <= d / a
  {
    var q := x / y;
    assert q * y == x;
    assert q >= 0.0;
    assert q * b >= q * y by { assert q * (b - y) >= 0.0; }
    assert q * a <= q * y by { assert q * (y - a) >= 0.0; }
  }

  /** Every replicate lies between the extreme ratios of the two groups. */
  lemma ReplicateWithin(left: seq<real>, right: seq<real>, rng: Rng, seed: int, i: nat, a: real, b: real, c: real, d: real)
    requires left != [] && right != [] && Positive(left) && 0.0 < a && 0.0 <= c
    requires Within(left, a, b) && Within(right, c, d)
    ensures b > 0.0 && c / b <= Replicate(left, right, rng, seed, i) <= d / a
  {
    assert a <= left[0] <= b;
    var l, r := Resample(left, rng, seed, i, 0), Resample(right, rng, seed, i, |left|);
    ResampleWithin(left, rng, seed, i, 0, a, b);
    ResampleWithin(right, rng, seed, i, |left|, c, d);
    MedianWithin(l, a, b);
    MedianWithin(r, c, d);
    Quotient(Median(r), Median(l), a, b, c, d);
  }

  predicate Acceptable(left: seq<real>, right: seq<real>, samples: int, alpha: real) {
    samples >= 2 && 0.0 < alpha < 1.0 && |left| >= 2 && |right| >= 2 && Positive(left) && Positive(right)
  }

  lemma MedianPositive(s: seq<real>)
    requires s != [] && Positive(s)
    ensures Median(s) > 0.0
  {
    SortedSorts(s);
    forall i | 0 <= i < |s| ensures Sorted(s)[i] > 0.0 {
      assert Sorted(s)[i] in multiset(s);
    }
  }

  /** The interval read off the sorted replicates. */
  function Interval(left: seq<real>, right: seq<real>, metric: Metric, rng: Rng, seed: int, samples: int, alpha: real): RatioInterval
    requires Acceptable(left, right, samples, alpha)
  {
    IndicesMirror(alpha, samples);
    MedianPositive(left);
    var sorted := Sorted(Replicates(left, right, rng, seed, samples));
    RatioInterval(metric, Median(right) / Median(left), sorted[LowerIndex(alpha, samples)], sorted[UpperIndex(alpha, samples)],
                  samples, alpha, LowerIndex(alpha, samples), UpperIndex(alpha, samples))
  }

  /** bootstrap_ratio_interval; it raises exactly for the inputs its checks name. */
  method Bootstrap(left: seq<real>, right: seq<real>, metric: Metric, rng: Rng, seed: int, samples: int, alpha: real) returns (r: Outcome)
    ensures r.Estimated? <==> Acceptable(left, right, samples, alpha)
    ensures r.Estimated? ==> r.interval == Interval(left, right, metric, rng, seed, samples, alpha)
    ensures r == Raised(TooFewSamples) <==> samples < 2
    ensures r == Raised(NotPositive) ==> samples >= 2 && |left| >= 2 && |right| >= 2 && !(Positive(left) && Positive(right))
  {
    hide Positive, Median, LowerIndex, UpperIndex;
    if samples < 2 { return Raised(TooFewSamples); }
    if !(0.0 < alpha < 1.0) { return Raised(BadAlpha); }
    if |left| < 2 || |right| < 2 { return Raised(TooFewObservations); }
    if !Positive(left) || !Positive(right) { return Raised(NotPositive); }
    MedianPositive(left);
    var point := Median(right) / Median(left);
    var bootstrapped: seq<real> := [];
    for i := 0 to samples
      invariant bootstrapped == Replicates(left, right, rng, seed, i)
    {
      ResamplePositive(left, rng, seed, i, 0);
      var leftMedian := Median(Resample(left, rng, seed, i, 0));
      var rightMedian := Median(Resample(right, rng, seed, i, |left|));
      bootstrapped := bootstrapped + [rightMedian / leftMedian];
    }
    var sorted := Sorted(bootstrapped);
    IndicesMirror(alpha, samples);
    var lowerIndex, upperIndex := LowerIndex(alpha, samples), UpperIndex(alpha, samples);
    r := Estimated(RatioInterval(metric, point, sorted[lowerIndex], sorted[upperIndex], samples, alpha, lowerIndex, upperIndex));
  }

  /** The indices are the two tails of alpha, rounded into the interval's favour. */
  lemma IndicesMean(alpha: real, samples: nat, tail: real, k: int)
    requires 0.0 < alpha < 1.0 && samples >= 1
    requires tail == alpha / 2.0 * samples as real && k as real <= tail < k as real + 1.0
    ensures LowerIndex(alpha, samples) == k && UpperIndex(alpha, samples) == samples - 1 - k
  {
    hide Below, NotAbove;
    BelowIs(alpha, samples);
    FloorBounds(Below(alpha, samples));
    IndicesMirror(alpha, samples);
  }

  lemma BelowIs(alpha: real, samples: nat)
    ensures Below(alpha, samples) == alpha / 2.0 * samples as real
  {
  }

  /** The interval's ends are the k-th replicate from either side in ascending order. */
  lemma IntervalMeans(left: seq<real>, right: seq<real>, metric: Metric, rng: Rng, seed: int, samples: int, alpha: real,
                       tail: real, k: int, t: seq<real>)
    requires Acceptable(left, right, samples, alpha)
    requires tail == alpha / 2.0 * samples as real && k as real <= tail < k as real + 1.0
    requires Ascending(t) && multiset(t) == multiset(Replicates(left, right, rng, seed, samples))
    ensures |t| == samples && 0 <= k <= samples - 1 - k < samples
    ensures var i := Interval(left, right, metric, rng, seed, samples, alpha);
      i.lower == t[k] && i.upper == t[samples - 1 - k] && i.metric == metric && i.alpha == alpha
  {
    hide Below, NotAbove, Replicates, Median, LowerIndex, UpperIndex;
    IndicesMean(alpha, samples, tail, k);
    IndicesMirror(alpha, samples);
    SortedSorts(Replicates(left, right, rng, seed, samples));
    AscendingUnique(Sorted(Replicates(left, right, rng, seed, samples)), t);
  }

  // ---------- Verdicts from the observations ----------

  /** The place of a least or a greatest observation. */
  lemma {:induction false} LeastAt(s: seq<real>) returns (i: int)
    requires s != []
    ensures 0 <= i < |s| && forall j :: 0 <= j < |s| ==> s[i] <= s[j]
  {
    if |s| == 1 { return 0; }
    var k := LeastAt(s[1..]);
    i := k + 1;
    assert forall j :: 1 <= j < |s| ==> s[j] == s[1..][j - 1];
    if s[0] < s[i] { i := 0; }
  }

  lemma {:induction false} GreatestAt(s: seq<real>) returns (i: int)
    requires s != []
    ensures 0 <= i < |s| && forall j :: 0 <= j < |s| ==> s[j] <= s[i]
  {
    if |s| == 1 { return 0; }
    var k := GreatestAt(s[1..]);
    i := k + 1;
    assert forall j :: 1 <= j < |s| ==> s[j] == s[1..][j - 1];
    if s[0] > s[i] { i := 0; }
  }

  /** A candidate's observation over a reference's. */
  function RatioAt(left: seq<real>, right: seq<real>, i: int, j: int): real
    requires 0 <= i < |left| && 0 <= j < |right| && Positive(left)
  {
    right[j] / left[i]
  }

  /**
    If every ratio of the observations is within the bound of one, the interval's verdict
    is equivalence; if they all exceed it, or all fall short of it, it is a difference.
  */
  lemma RatiosDecide(left: seq<real>, right: seq<real>, metric: Metric, rng: Rng, seed: int, samples: int, alpha: real, b: Bounds, d: real)
    requires Acceptable(left, right, samples, alpha)
    requires d == if metric == P50 then b.p50 else if metric == P95 then b.p95 else b.size
    ensures var v := ClassifyInterval(Interval(left, right, metric, rng, seed, samples, alpha), b);
      && ((forall i, j :: 0 <= i < |left| && 0 <= j < |right| ==> 1.0 - d <= RatioAt(left, right, i, j) <= 1.0 + d) ==> v == PracticallyEquivalent)
      && ((forall i, j :: 0 <= i < |left| && 0 <= j < |right| ==> RatioAt(left, right, i, j) > 1.0 + d) ==> v == MeaningfulDifference)
      && ((forall i, j :: 0 <= i < |left| && 0 <= j < |right| ==> RatioAt(left, right, i, j) < 1.0 - d) ==> v == MeaningfulDifference)
  {
    hide Interval;
    var l := LeastAt(left);
    var u := GreatestAt(left);
    var x := LeastAt(right);
    var y := GreatestAt(right);
    IntervalWithin(left, right, metric, rng, seed, samples, alpha, left[l], left[u], right[x], right[y]);
    assert RatioAt(left, right, u, x) == right[x] / left[u] && RatioAt(left, right, l, y) == right[y] / left[l];
    IntervalMetric(left, right, metric, rng, seed, samples, alpha);
  }

  lemma IntervalMetric(left: seq<real>, right: seq<real>, metric: Metric, rng: Rng, seed: int, samples: int, alpha: real)
    requires Acceptable(left, right, samples, alpha)
    ensures Interval(left, right, metric, rng, seed, samples, alpha).metric == metric
  {
  }

  lemma ReplicatesWithin(left: seq<real>, right: seq<real>, rng: Rng, seed: int, samples: nat, a: real, b: real, c: real, d: real)
    requires left != [] && right != [] && Positive(left) && 0.0 < a && 0.0 <= c
    requires Within(left, a, b) && Within(right, c, d)
    ensures b != 0.0 && Within(Sorted(Replicates(left, right, rng, seed, samples)), c / b, d / a)
  {
    var all := Replicates(left, right, rng, seed, samples);
    assert a <= left[0] <= b;
    forall i | 0 <= i < samples ensures c / b <= all[i] <= d / a {
      ReplicateWithin(left, right, rng, seed, i, a, b, c, d);
    }
    SortedWithin(all, c / b, d / a);
  }

  /** An interval is ordered, and it and its point estimate stay between the extreme ratios of the observations. */
  lemma IntervalWithin(left: seq<real>, right: seq<real>, metric: Metric, rng: Rng, seed: int, samples: int, alpha: real,
                       a: real, b: real, c: real, d: real)
    requires Acceptable(left, right, samples, alpha) && 0.0 < a && 0.0 <= c
    requires Within(left, a, b) && Within(right, c, d)
    ensures b != 0.0
    ensures var i := Interval(left, right, metric, rng, seed, samples, alpha);
      c / b <= i.lower <= i.upper <= d / a && c / b <= i.ratio <= d / a
  {
    hide Sorted;
    IndicesMirror(alpha, samples);
    ReplicatesWithin(left, right, rng, seed, samples, a, b, c, d);
    SortedSorts(Replicates(left, right, rng, seed, samples));
    MedianWithin(left, a, b);
    MedianWithin(right, c, d);
    Quotient(Median(right), Median(left), a, b, c, d);
  }

  lemma AscendingAt(s: seq<real>, i: int, j: int)
    requires Ascending(s) && 0 <= i <= j < |s|
    ensures s[i] <= s[j]
  {
  }

  /** On the same replicates a smaller alpha gives a wider interval. */
  lemma SmallerAlphaWidens(left: seq<real>, right: seq<real>, metric: Metric, rng: Rng, seed: int, samples: int, small: real, large: real)
    requires Acceptable(left, right, samples, small) && Acceptable(left, right, samples, large) && small <= large
    ensures Wider(Interval(left, right, metric, rng, seed, samples, small), Interval(left, right, metric, rng, seed, samples, large))
  {
    var sorted := Sorted(Replicates(left, right, rng, seed, samples));
    SortedSorts(Replicates(left, right, rng, seed, samples));
    IndicesWiden(small, large, samples);
    IndicesMirror(large, samples);
    AscendingAt(sorted, LowerIndex(small, samples), LowerIndex(large, samples));
    AscendingAt(sorted, LowerIndex(large, samples), UpperIndex(large, samples));
    AscendingAt(sorted, UpperIndex(large, samples), UpperIndex(small, samples));
  }

  /** So dividing alpha among more comparisons can only turn a verdict into INCONCLUSIVE. */
  lemma SmallerAlphaKeepsOrBlurs(left: seq<real>, right: seq<real>, metric: Metric, rng: Rng, seed: int, samples: int, small: real, large: real, b: Bounds)
    requires Acceptable(left, right, samples, small) && Acceptable(left, right, samples, large) && small <= large
    ensures var v := ClassifyInterval(Interval(left, right, metric, rng, seed, samples, small), b);
      v == Inconclusive || v == ClassifyInterval(Interval(left, right, metric, rng, seed, samples, large), b)
  {
    SmallerAlphaWidens(left, right, metric, rng, seed, samples, small, large);
    WideningKeepsOrBlurs(Interval(left, right, metric, rng, seed, samples, large), Interval(left, right, metric, rng, seed, samples, small), b);
  }
}
