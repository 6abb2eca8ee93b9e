/**
  One candidate against a reference, and a pair of them
  (src/format_bench/equivalence_compare.py): storage and timing intervals, the primary
  endpoint that alone decides, and the verdict over several candidates.
*/
module EquivalenceCompare {
  import opened Common
  import opened Equivalence
  import opened SizeEvidence

  datatype Endpoint = Storage(metric: Metric) | Operation(operation: string, metric: Metric)

  datatype Timing = Timing(p50: seq<real>, p95: seq<real>)

  datatype Job = Job(measured: bool, sizes: Option<Observations>, operations: map<string, Timing>)

  datatype Setting = Setting(bounds: Bounds, seed: int, endpoint: Endpoint, alpha: real, rng: Rng, operations: seq<string>)

  /** One metric: too few observations, refused observations, or an interval. */
  datatype Step = Missing | Refused | Has(interval: RatioInterval)

  datatype Group = Group(verdict: Verdict, steps: seq<Step>)

  datatype Comparison = Comparison(verdict: Verdict, primary: Option<RatioInterval>,
                                   storage: Option<Group>, operations: map<string, Group>)

  const FAMILY_ALPHA: real := 0.05
  const SAMPLES: int := 2000

  // ---------- One metric ----------

  function Reals(s: seq<int>): (r: seq<real>)
    ensures |r| == |s|
  {
    seq(|s|, i requires 0 <= i < |s| => s[i] as real)
  }

  function StepOf(left: seq<real>, right: seq<real>, metric: Metric, seed: int, alpha: real, rng: Rng): Step {
    if |left| < 2 || |right| < 2 then Missing
    else if !Acceptable(left, right, SAMPLES, alpha) then Refused
    else Has(Interval(left, right, metric, rng, seed, SAMPLES, alpha))
  }

  method Judge(left: seq<real>, right: seq<real>, metric: Metric, seed: int, alpha: real, rng: Rng) returns (step: Step)
    ensures step == StepOf(left, right, metric, seed, alpha, rng)
  {
    if |left| < 2 || |right| < 2 { return Missing; }
    var r := Bootstrap(left, right, metric, rng, seed, SAMPLES, alpha);
    step := match r case Estimated(i) => Has(i) case Raised(_) => Refused;
  }

  function AlphaFor(s: Setting, endpoint: Endpoint): real { if s.endpoint == endpoint then s.alpha else FAMILY_ALPHA }

  // ---------- Storage and operations ----------

  /** The storage step of one metric. */
  function StorageStep(reference: seq<int>, candidate: seq<int>, metric: Metric, offset: int, s: Setting): Step {
    StepOf(Reals(reference), Reals(candidate), metric, s.seed + 10000 + offset, AlphaFor(s, Storage(metric)), s.rng)
  }

  function StorageSteps(reference: Job, candidate: Job, s: Setting): seq<Step> {
    [StorageStep(Samples(reference.sizes, NativeBytes), Samples(candidate.sizes, NativeBytes), NativeBytes, 0, s),
     StorageStep(Samples(reference.sizes, TransportBytes), Samples(candidate.sizes, TransportBytes), TransportBytes, 1, s)]
  }

  function TimingSteps(reference: Timing, candidate: Timing, operation: string, offset: int, s: Setting): seq<Step> {
    [StepOf(reference.p50, candidate.p50, P50, s.seed + offset * 2, AlphaFor(s, Operation(operation, P50)), s.rng),
     StepOf(reference.p95, candidate.p95, P95, s.seed + offset * 2 + 1, AlphaFor(s, Operation(operation, P95)), s.rng)]
  }

  function Intervals(steps: seq<Step>): seq<RatioInterval> {
    if steps == [] then []
    else Intervals(steps[..|steps| - 1]) + if steps[|steps| - 1].Has? then [steps[|steps| - 1].interval] else []
  }

  /** A group with a missing metric has the verdict given for it. */
  function GroupOf(steps: seq<Step>, missing: Verdict, b: Bounds): Group {
    Group(if Missing in steps then missing else ClassifyMetrics(Intervals(steps), b), steps)
  }

  /** The groups of the first n operations; a later one of the same name replaces an earlier. */
  function Groups(reference: Job, candidate: Job, s: Setting, n: nat): map<string, Group>
    requires n <= |s.operations| && Present(reference, candidate, s, n)
  {
    if n == 0 then map[]
    else
      var o := s.operations[n - 1];
      Groups(reference, candidate, s, n - 1)
        [o := GroupOf(TimingSteps(reference.operations[o], candidate.operations[o], o, n - 1, s), Inconclusive, s.bounds)]
  }

  predicate Present(reference: Job, candidate: Job, s: Setting, n: nat)
    requires n <= |s.operations|
  {
    forall i :: 0 <= i < n ==> s.operations[i] in reference.operations && s.operations[i] in candidate.operations
  }

  /** No bootstrap of the first n operations raises. */
  predicate Timed(reference: Job, candidate: Job, s: Setting, n: nat)
    requires n <= |s.operations|
  {
    && Present(reference, candidate, s, n)
    && (forall i :: 0 <= i < n ==>
          Refused !in TimingSteps(reference.operations[s.operations[i]], candidate.operations[s.operations[i]], s.operations[i], i, s))
  }

  // ---------- The primary endpoint ----------

  function Matching(steps: seq<Step>, metric: Metric): seq<RatioInterval> {
    if steps == [] then []
    else
      var last := steps[|steps| - 1];
      Matching(steps[..|steps| - 1], metric) + if last.Has? && last.interval.metric == metric then [last.interval] else []
  }

  /** _primary_interval: exactly one interval of the endpoint's metric, or none. */
  function Primary(endpoint: Endpoint, storage: seq<Step>, operations: map<string, Group>): Option<RatioInterval> {
    var steps := match endpoint
                 case Storage(_) => storage
                 case Operation(o, _) => if o in operations then operations[o].steps else [];
    var m := Matching(steps, endpoint.metric);
    if |m| == 1 then Some(m[0]) else None
  }

  function Unavailable(endpoint: Endpoint): Verdict { if endpoint.Storage? then NotApplicable else Inconclusive }

  function VerdictOf(primary: Option<RatioInterval>, s: Setting): Verdict {
    if primary.Some? then ClassifyInterval(primary.value, s.bounds) else Unavailable(s.endpoint)
  }

  /** Where no comparison is made at all. */
  const NOTHING: Comparison := Comparison(NotApplicable, None, None, map[])

  predicate Completes(reference: Job, candidate: Job, s: Setting) {
    && Refused !in StorageSteps(reference, candidate, s)
    && Timed(reference, candidate, s, |s.operations|)
  }

  function Compared(reference: Job, candidate: Job, s: Setting): Option<Comparison> {
    if !reference.measured || !candidate.measured then Some(NOTHING)
    else if !Completes(reference, candidate, s) then None
    else
      var storage := StorageSteps(reference, candidate, s);
      var groups := Groups(reference, candidate, s, |s.operations|);
      var primary := Primary(s.endpoint, storage, groups);
      Some(Comparison(VerdictOf(primary, s), primary, Some(GroupOf(storage, NotApplicable, s.bounds)), groups))
  }

  method StorageMetric(reference: Job, candidate: Job, metric: Metric, offset: int, s: Setting) returns (step: Step)
    ensures step == StorageStep(Samples(reference.sizes, metric), Samples(candidate.sizes, metric), metric, offset, s)
  {
    hide StepOf;
    var left := SizeSamples(reference.sizes, metric);
    var right := SizeSamples(candidate.sizes, metric);
    step := Judge(Reals(left), Reals(right), metric, s.seed + 10000 + offset, AlphaFor(s, Storage(metric)), s.rng);
  }

  /** _storage_evidence, metric after metric. */
  method StorageEvidence(reference: Job, candidate: Job, s: Setting) returns (steps: seq<Step>)
    ensures steps == StorageSteps(reference, candidate, s)
  {
    steps := [];
    var metrics := [NativeBytes, TransportBytes];
    for offset := 0 to 2
      invariant |steps| == offset
      invariant forall k :: 0 <= k < offset ==>
        steps[k] == StorageStep(Samples(reference.sizes, metrics[k]), Samples(candidate.sizes, metrics[k]), metrics[k], k, s)
    {
      var step := StorageMetric(reference, candidate, metrics[offset], offset, s);
      steps := steps + [step];
    }
  }

  method TimingEvidence(left: Timing, right: Timing, o: string, offset: int, s: Setting) returns (steps: seq<Step>)
    ensures steps == TimingSteps(left, right, o, offset, s)
  {
    hide StepOf;
    var first := Judge(left.p50, right.p50, P50, s.seed + offset * 2, AlphaFor(s, Operation(o, P50)), s.rng);
    var second := Judge(left.p95, right.p95, P95, s.seed + offset * 2 + 1, AlphaFor(s, Operation(o, P95)), s.rng);
    steps := [first, second];
  }

  /** The timing groups of all operations; None at the first exception. */
  method OperationEvidence(reference: Job, candidate: Job, s: Setting) returns (groups: Option<map<string, Group>>)
    ensures groups == if Timed(reference, candidate, s, |s.operations|) then Some(Groups(reference, candidate, s, |s.operations|)) else None
  {
    hide StepOf, GroupOf;
    var all: map<string, Group> := map[];
    for offset := 0 to |s.operations|
      invariant Timed(reference, candidate, s, offset)
      invariant all == Groups(reference, candidate, s, offset)
    {
      var o := s.operations[offset];
      if o !in reference.operations || o !in candidate.operations { return None; }
      var steps := TimingEvidence(reference.operations[o], candidate.operations[o], o, offset, s);
      if Refused in steps { return None; }
      all := all[o := GroupOf(steps, Inconclusive, s.bounds)];
    }
    groups := Some(all);
  }

  /** compare_candidate; None where an exception of a bootstrap or a missing operation leaves it. */
  method CompareCandidate(reference: Job, candidate: Job, s: Setting) returns (result: Option<Comparison>)
    ensures result == Compared(reference, candidate, s)
  {
    if !reference.measured || !candidate.measured { return Some(NOTHING); }
    var storage := StorageEvidence(reference, candidate, s);
    if Refused in storage { return None; }
    var groups := OperationEvidence(reference, candidate, s);
    if groups == None { return None; }
    var primary := Primary(s.endpoint, storage, groups.value);
    result := Some(Comparison(VerdictOf(primary, s), primary, Some(GroupOf(storage, NotApplicable, s.bounds)), groups.value));
  }

  // ---------- Only the primary endpoint decides ----------

  /** The interval of one storage metric, from its samples alone. */
  function Alone(reference: seq<int>, candidate: seq<int>, metric: Metric, s: Setting): Option<RatioInterval> {
    match StorageStep(reference, candidate, metric, if metric == NativeBytes then 0 else 1, s)
    case Has(i) => Some(i)
    case _ => None
  }

  lemma MatchingTwo(a: Step, b: Step, metric: Metric)
    ensures Matching([a, b], metric)
      == (if a.Has? && a.interval.metric == metric then [a.interval] else [])
       + (if b.Has? && b.interval.metric == metric then [b.interval] else [])
  {
    assert [a, b][..1] == [a];
    assert [a][..0] == [];
    assert Matching([], metric) == [];
    assert Matching([a], metric) == if a.Has? && a.interval.metric == metric then [a.interval] else [];
  }

  /** A storage endpoint is decided by the samples of its own metric. */
  lemma StoragePrimary(reference: Job, candidate: Job, s: Setting)
    requires s.endpoint == Storage(NativeBytes) || s.endpoint == Storage(TransportBytes)
    requires reference.measured && candidate.measured && Compared(reference, candidate, s).Some?
    ensures var m := s.endpoint.metric;
      var alone := Alone(Samples(reference.sizes, m), Samples(candidate.sizes, m), m, s);
      Compared(reference, candidate, s).value.primary == alone && Compared(reference, candidate, s).value.verdict == VerdictOf(alone, s)
    ensures var c := Compared(reference, candidate, s).value;
      && (c.primary.None? ==> c.verdict == NotApplicable)
      && (c.primary.Some? ==> c.primary.value.metric == s.endpoint.metric && c.primary.value.alpha == s.alpha && c.primary.value.samples == 2000)
  {
    var steps := StorageSteps(reference, candidate, s);
    MatchingTwo(steps[0], steps[1], s.endpoint.metric);
    assert steps == [steps[0], steps[1]];
  }

  lemma {:induction false} GroupsAt(reference: Job, candidate: Job, s: Setting, n: nat, i: int)
    requires n <= |s.operations| && Present(reference, candidate, s, n)
    requires 0 <= i < n && forall j :: i < j < n ==> s.operations[j] != s.operations[i]
    ensures var o := s.operations[i];
      o in Groups(reference, candidate, s, n)
      && Groups(reference, candidate, s, n)[o].steps == TimingSteps(reference.operations[o], candidate.operations[o], o, i, s)
  {
    hide TimingSteps, ClassifyMetrics;
    if i < n - 1 { GroupsAt(reference, candidate, s, n - 1, i); }
  }

  lemma {:induction false} GroupsOnly(reference: Job, candidate: Job, s: Setting, n: nat, o: string)
    requires n <= |s.operations| && Present(reference, candidate, s, n) && o !in s.operations[..n]
    ensures o !in Groups(reference, candidate, s, n)
  {
    if n > 0 {
      assert s.operations[n - 1] in s.operations[..n];
      assert forall x :: x in s.operations[..n - 1] ==> x in s.operations[..n];
      GroupsOnly(reference, candidate, s, n - 1, o);
    }
  }

  /**
    A timing endpoint is decided by the medians or the 95th percentiles of its own
    operation, where that is listed last; with fewer than two of either it is inconclusive.
  */
  lemma OperationPrimary(reference: Job, candidate: Job, s: Setting, o: string)
    requires s.endpoint == Operation(o, P50) || s.endpoint == Operation(o, P95)
    requires reference.measured && candidate.measured && Compared(reference, candidate, s).Some?
    ensures var c := Compared(reference, candidate, s).value;
      && (c.primary.None? ==> c.verdict == Inconclusive)
      && (c.primary.Some? ==> c.primary.value.metric == s.endpoint.metric && c.primary.value.alpha == s.alpha && c.primary.value.samples == 2000
                              && c.verdict == ClassifyInterval(c.primary.value, s.bounds))
      && (o !in s.operations ==> c.primary == None)
    ensures forall i :: 0 <= i < |s.operations| && s.operations[i] == o && (forall j :: i < j < |s.operations| ==> s.operations[j] != o) ==>
      o in reference.operations && o in candidate.operations
      && var a, b := reference.operations[o], candidate.operations[o];
      && (s.endpoint.metric == P50 ==> (Compared(reference, candidate, s).value.primary.Some? <==> |a.p50| >= 2 && |b.p50| >= 2))
      && (s.endpoint.metric == P95 ==> (Compared(reference, candidate, s).value.primary.Some? <==> |a.p95| >= 2 && |b.p95| >= 2))
  {
    hide ClassifyInterval, ClassifyMetrics, StepOf, StorageSteps;
    var n := |s.operations|;
    assert s.operations[..n] == s.operations;
    if o !in s.operations {
      GroupsOnly(reference, candidate, s, n, o);
    } else {
      hide Matching;
      var i := LastPlace(s.operations, o);
      GroupsAt(reference, candidate, s, n, i);
      var a, b := reference.operations[o], candidate.operations[o];
      var steps := TimingSteps(a, b, o, i, s);
      StepHeader(a.p50, b.p50, P50, s.seed + i * 2, AlphaFor(s, Operation(o, P50)), s.rng);
      StepHeader(a.p95, b.p95, P95, s.seed + i * 2 + 1, AlphaFor(s, Operation(o, P95)), s.rng);
      PrimaryOfTwo(steps[0], steps[1], s.endpoint.metric);
      assert Refused !in steps;
      assert steps == [steps[0], steps[1]];
    }
  }

  /** Of a P50 and a P95 step the endpoint's own is taken. */
  lemma PrimaryOfTwo(a: Step, b: Step, metric: Metric)
    requires (metric == P50 || metric == P95) && (a.Has? ==> a.interval.metric == P50) && (b.Has? ==> b.interval.metric == P95)
    ensures Matching([a, b], metric) == var own := if metric == P50 then a else b; if own.Has? then [own.interval] else []
  {
    MatchingTwo(a, b, metric);
  }

  lemma StepHeader(left: seq<real>, right: seq<real>, metric: Metric, seed: int, alpha: real, rng: Rng)
    ensures var step := StepOf(left, right, metric, seed, alpha, rng);
      && (step.Has? ==> step.interval.metric == metric && step.interval.alpha == alpha && step.interval.samples == 2000)
      && (step == Missing <==> |left| < 2 || |right| < 2)
  {
  }

  lemma {:induction false} LastPlace(names: seq<string>, o: string) returns (i: int)
    requires o in names
    ensures 0 <= i < |names| && names[i] == o && forall j :: i < j < |names| ==> names[j] != o
  {
    var n := |names| - 1;
    if names[n] == o { return n; }
    i := LastPlace(names[..n], o);
  }

  /** Every metric but the primary one keeps the family's alpha. */
  lemma SecondaryAlpha(reference: seq<int>, candidate: seq<int>, left: Timing, right: Timing, metric: Metric, offset: int, o: string, s: Setting)
    ensures var step := StorageStep(reference, candidate, metric, offset, s);
      step.Has? && s.endpoint != Storage(metric) ==> step.interval.alpha == 0.05
    ensures var steps := TimingSteps(left, right, o, offset, s);
      && (steps[0].Has? ==> steps[0].interval.alpha == if s.endpoint == Operation(o, P50) then s.alpha else 0.05)
      && (steps[1].Has? ==> steps[1].interval.alpha == if s.endpoint == Operation(o, P95) then s.alpha else 0.05)
  {
  }

  /** A group of two metrics: missing ones first, then any difference, then equivalence of both. */
  lemma GroupMeans(a: Step, c: Step, missing: Verdict, b: Bounds)
    requires a != Refused && c != Refused
    ensures a == Missing || c == Missing ==> GroupOf([a, c], missing, b).verdict == missing
    ensures a.Has? && c.Has? ==>
      var v, x, y := GroupOf([a, c], missing, b).verdict, ClassifyInterval(a.interval, b), ClassifyInterval(c.interval, b);
      && (v == MeaningfulDifference <==> x == MeaningfulDifference || y == MeaningfulDifference)
      && (v == PracticallyEquivalent <==> x == PracticallyEquivalent && y == PracticallyEquivalent)
      && v != NotApplicable
  {
    hide ClassifyInterval, ClassifyMetrics;
    if a.Has? && c.Has? {
      assert [a, c][..1] == [a];
      assert [a][..0] == [];
      assert Intervals([]) == [];
      assert Intervals([a]) == [a.interval];
      assert Intervals([a, c]) == [a.interval, c.interval];
      ClassifyMetricsMeans([a.interval, c.interval], b);
      assert [a.interval, c.interval][0] == a.interval && [a.interval, c.interval][1] == c.interval;
    }
  }

  /**
    The storage verdict from the native sizes themselves: equivalent when every candidate
    size over every reference size is within the bound of one, different when they all
    exceed it or all fall short of it, and not applicable with fewer than two of either.
  */
  lemma SizesDecide(reference: Job, candidate: Job, s: Setting)
    requires s.endpoint == Storage(NativeBytes)
    requires reference.measured && candidate.measured && Compared(reference, candidate, s).Some?
    ensures var l, r, d, v := Samples(reference.sizes, NativeBytes), Samples(candidate.sizes, NativeBytes), s.bounds.size,
                             Compared(reference, candidate, s).value.verdict;
      && (|l| < 2 || |r| < 2 ==> v == NotApplicable)
      && (|l| >= 2 && |r| >= 2 ==>
            && ((forall i, j :: 0 <= i < |l| && 0 <= j < |r| ==> 1.0 - d <= r[j] as real / l[i] as real <= 1.0 + d) ==> v == PracticallyEquivalent)
            && ((forall i, j :: 0 <= i < |l| && 0 <= j < |r| ==> r[j] as real / l[i] as real > 1.0 + d) ==> v == MeaningfulDifference)
            && ((forall i, j :: 0 <= i < |l| && 0 <= j < |r| ==> r[j] as real / l[i] as real < 1.0 - d) ==> v == MeaningfulDifference))
  {
    hide ClassifyInterval, Interval, Compared, Samples;
    StoragePrimary(reference, candidate, s);
    NotRefused(reference, candidate, s);
    AloneDecides(Samples(reference.sizes, NativeBytes), Samples(candidate.sizes, NativeBytes), s);
  }

  lemma NotRefused(reference: Job, candidate: Job, s: Setting)
    requires reference.measured && candidate.measured && Compared(reference, candidate, s).Some?
    ensures StorageStep(Samples(reference.sizes, NativeBytes), Samples(candidate.sizes, NativeBytes), NativeBytes, 0, s) != Refused
  {
    hide StorageStep;
    assert StorageSteps(reference, candidate, s)[0] != Refused;
  }

  lemma AloneDecides(l: seq<int>, r: seq<int>, s: Setting)
    requires s.endpoint == Storage(NativeBytes) && StorageStep(l, r, NativeBytes, 0, s) != Refused
    requires forall i :: 0 <= i < |l| ==> l[i] > 0
    ensures |l| < 2 || |r| < 2 ==> Alone(l, r, NativeBytes, s) == None
    ensures |l| >= 2 && |r| >= 2 ==>
      var d, v := s.bounds.size, VerdictOf(Alone(l, r, NativeBytes, s), s);
      && ((forall i, j :: 0 <= i < |l| && 0 <= j < |r| ==> 1.0 - d <= r[j] as real / l[i] as real <= 1.0 + d) ==> v == PracticallyEquivalent)
      && ((forall i, j :: 0 <= i < |l| && 0 <= j < |r| ==> r[j] as real / l[i] as real > 1.0 + d) ==> v == MeaningfulDifference)
      && ((forall i, j :: 0 <= i < |l| && 0 <= j < |r| ==> r[j] as real / l[i] as real < 1.0 - d) ==> v == MeaningfulDifference)
  {
    hide ClassifyInterval, Interval;
    if |l| >= 2 && |r| >= 2 {
      RatiosDecide(Reals(l), Reals(r), NativeBytes, s.rng, s.seed + 10000, SAMPLES, s.alpha, s.bounds, s.bounds.size);
    }
  }

  /**
    Two comparisons in the same setting whose jobs agree on status and native-byte
    samples have the same verdict and primary interval, whatever their transport sizes
    and timings, provided neither is cut short by an exception.
  */
  lemma OnlyTheEndpointDecides(r1: Job, c1: Job, r2: Job, c2: Job, s: Setting)
    requires s.endpoint == Storage(NativeBytes)
    requires r1.measured == r2.measured && c1.measured == c2.measured
    requires Samples(r1.sizes, NativeBytes) == Samples(r2.sizes, NativeBytes)
    requires Samples(c1.sizes, NativeBytes) == Samples(c2.sizes, NativeBytes)
    requires Compared(r1, c1, s).Some? && Compared(r2, c2, s).Some?
    ensures Compared(r1, c1, s).value.verdict == Compared(r2, c2, s).value.verdict
    ensures Compared(r1, c1, s).value.primary == Compared(r2, c2, s).value.primary
  {
    if r1.measured && c1.measured {
      StoragePrimary(r1, c1, s);
      StoragePrimary(r2, c2, s);
    }
  }

  /** Every timing list that is long enough to be used is positive, and every operation is there. */
  predicate WellTimed(reference: Job, candidate: Job, s: Setting) {
    && Present(reference, candidate, s, |s.operations|)
    && (forall i :: 0 <= i < |s.operations| ==> Fit(reference.operations[s.operations[i]], candidate.operations[s.operations[i]]))
  }

  predicate Fit(a: Timing, b: Timing) {
    && (|a.p50| >= 2 && |b.p50| >= 2 ==> Positive(a.p50) && Positive(b.p50))
    && (|a.p95| >= 2 && |b.p95| >= 2 ==> Positive(a.p95) && Positive(b.p95))
  }

  lemma TimingRefused(a: Timing, b: Timing, o: string, offset: int, s: Setting)
    requires 0.0 < s.alpha < 1.0
    ensures Refused in TimingSteps(a, b, o, offset, s) <==> !Fit(a, b)
  {
  }

  lemma StorageNeverRefused(reference: Job, candidate: Job, s: Setting)
    requires 0.0 < s.alpha < 1.0
    ensures Refused !in StorageSteps(reference, candidate, s)
  {
  }

  /** With an alpha between zero and one, a comparison is cut short exactly by a missing operation or a timing that is not positive. */
  lemma CompletesExactly(reference: Job, candidate: Job, s: Setting)
    requires 0.0 < s.alpha < 1.0 && reference.measured && candidate.measured
    ensures Compared(reference, candidate, s).Some? <==> WellTimed(reference, candidate, s)
  {
    StorageNeverRefused(reference, candidate, s);
    if Present(reference, candidate, s, |s.operations|) {
      forall i | 0 <= i < |s.operations|
        ensures Refused in TimingSteps(reference.operations[s.operations[i]], candidate.operations[s.operations[i]], s.operations[i], i, s)
          <==> !Fit(reference.operations[s.operations[i]], candidate.operations[s.operations[i]])
      {
        TimingRefused(reference.operations[s.operations[i]], candidate.operations[s.operations[i]], s.operations[i], i, s);
      }
    }
  }

  /** A measured pair of admitted entries is always judged on storage. */
  lemma AdmittedPairIsJudged(reference: Job, candidate: Job, s: Setting, fixture: bool, left: Option<Digest>, right: Option<Digest>)
    requires s.endpoint == Storage(NativeBytes) && 0.0 < s.alpha < 1.0
    requires reference.measured && candidate.measured && WellTimed(reference, candidate, s)
    requires Admitted(reference.sizes, ExpectedObservations(fixture), left)
    requires Admitted(candidate.sizes, ExpectedObservations(fixture), right)
    ensures Compared(reference, candidate, s).Some? && Compared(reference, candidate, s).value.primary.Some?
    ensures Compared(reference, candidate, s).value.verdict != NotApplicable
  {
    CompletesExactly(reference, candidate, s);
    StoragePrimary(reference, candidate, s);
    AdmittedSamples(reference.sizes, fixture, left, NativeBytes);
    AdmittedSamples(candidate.sizes, fixture, right, NativeBytes);
  }

  lemma AloneBlurs(left: seq<int>, right: seq<int>, s: Setting)
    requires s.endpoint == Storage(NativeBytes) && 0.0 < s.alpha <= FAMILY_ALPHA
    ensures var v := VerdictOf(Alone(left, right, NativeBytes, s), s);
      v == Inconclusive || v == VerdictOf(Alone(left, right, NativeBytes, s.(alpha := FAMILY_ALPHA)), s.(alpha := FAMILY_ALPHA))
  {
    hide Interval, ClassifyInterval;
    var a, b := Reals(left), Reals(right);
    if |a| >= 2 && |b| >= 2 && Positive(a) && Positive(b) {
      SmallerAlphaKeepsOrBlurs(a, b, NativeBytes, s.rng, s.seed + 10000, SAMPLES, s.alpha, FAMILY_ALPHA, s.bounds);
    }
  }

  /** Sharing the family's alpha among comparisons can only turn the storage verdict into INCONCLUSIVE. */
  lemma SharedAlphaKeepsOrBlurs(reference: Job, candidate: Job, s: Setting)
    requires s.endpoint == Storage(NativeBytes) && 0.0 < s.alpha <= FAMILY_ALPHA
    requires reference.measured && candidate.measured
    requires Compared(reference, candidate, s).Some? && Compared(reference, candidate, s.(alpha := FAMILY_ALPHA)).Some?
    ensures var v := Compared(reference, candidate, s).value.verdict;
      v == Inconclusive || v == Compared(reference, candidate, s.(alpha := FAMILY_ALPHA)).value.verdict
  {
    StoragePrimary(reference, candidate, s);
    StoragePrimary(reference, candidate, s.(alpha := FAMILY_ALPHA));
    AloneBlurs(Samples(reference.sizes, NativeBytes), Samples(candidate.sizes, NativeBytes), s);
  }

  // ---------- A pair ----------

  /** pair_evidence over the candidates' verdicts. */
  function PairVerdict(verdicts: seq<Verdict>): Verdict {
    if MeaningfulDifference in verdicts then MeaningfulDifference
    else if forall i :: 0 <= i < |verdicts| ==> verdicts[i] == PracticallyEquivalent then PracticallyEquivalent
    else if Inconclusive in verdicts then Inconclusive
    else NotApplicable
  }

  /** The pair's verdict from its candidates': any difference, else equivalence of all, else anything inconclusive. */
  lemma PairVerdictMeans(vs: seq<Verdict>)
    ensures PairVerdict(vs) == MeaningfulDifference <==> exists i :: 0 <= i < |vs| && vs[i] == MeaningfulDifference
    ensures PairVerdict(vs) == PracticallyEquivalent <==> forall i :: 0 <= i < |vs| ==> vs[i] == PracticallyEquivalent
    ensures PairVerdict(vs) == Inconclusive <==>
      (exists i :: 0 <= i < |vs| && vs[i] == Inconclusive) && forall i :: 0 <= i < |vs| ==> vs[i] != MeaningfulDifference
    ensures PairVerdict(vs) == NotApplicable <==>
      (exists i :: 0 <= i < |vs| && vs[i] == NotApplicable)
      && forall i :: 0 <= i < |vs| ==> vs[i] == NotApplicable || vs[i] == PracticallyEquivalent
  {
    assert forall v :: v in vs <==> exists i :: 0 <= i < |vs| && vs[i] == v;
    if exists i :: 0 <= i < |vs| && vs[i] != PracticallyEquivalent {
      var i :| 0 <= i < |vs| && vs[i] != PracticallyEquivalent;
    }
  }

  lemma PairVerdictOfSet(a: seq<Verdict>, b: seq<Verdict>)
    requires forall v :: v in a <==> v in b
    ensures PairVerdict(a) == PairVerdict(b)
  {
    if forall i :: 0 <= i < |a| ==> a[i] == PracticallyEquivalent {
      forall i | 0 <= i < |b| ensures b[i] == PracticallyEquivalent { assert b[i] in a; }
    }
    if forall i :: 0 <= i < |b| ==> b[i] == PracticallyEquivalent {
      forall i | 0 <= i < |a| ensures a[i] == PracticallyEquivalent { assert a[i] in b; }
    }
  }

  predicate Comparable(jobs: map<string, Job>, reference: string, candidate: string, s: Setting) {
    reference in jobs && candidate in jobs && Compared(jobs[reference], jobs[candidate], s).Some?
  }

  function ComparisonOf(jobs: map<string, Job>, reference: string, candidate: string, s: Setting): Comparison {
    if Comparable(jobs, reference, candidate, s) then Compared(jobs[reference], jobs[candidate], s).value else NOTHING
  }

  function VerdictsOf(jobs: map<string, Job>, reference: string, candidates: seq<string>, s: Setting): seq<Verdict> {
    seq(|candidates|, i requires 0 <= i < |candidates| => ComparisonOf(jobs, reference, candidates[i], s).verdict)
  }

  /** What a pair's evidence holds. */
  ghost predicate Judged(verdict: Verdict, formats: map<string, Comparison>, jobs: map<string, Job>, reference: string, candidates: seq<string>, s: Setting) {
    && (forall c :: c in formats <==> c in candidates)
    && (forall c :: c in formats ==> formats[c] == ComparisonOf(jobs, reference, c, s))
    && verdict == PairVerdict(VerdictsOf(jobs, reference, candidates, s))
  }

  method CompareNamed(jobs: map<string, Job>, reference: string, candidate: string, s: Setting) returns (result: Option<Comparison>)
    ensures result == if Comparable(jobs, reference, candidate, s) then Some(ComparisonOf(jobs, reference, candidate, s)) else None
  {
    if reference !in jobs || candidate !in jobs { return None; }
    result := CompareCandidate(jobs[reference], jobs[candidate], s);
  }

  /** The candidates in order; the first exception ends the pair. */
  method PairEvidence(jobs: map<string, Job>, reference: string, candidates: seq<string>, s: Setting)
    returns (verdict: Verdict, formats: map<string, Comparison>, ok: bool)
    ensures ok <==> forall i :: 0 <= i < |candidates| ==> Comparable(jobs, reference, candidates[i], s)
    ensures ok ==> Judged(verdict, formats, jobs, reference, candidates, s)
  {
    formats := map[];
    verdict := NotApplicable;
    var verdicts: seq<Verdict> := [];
    for i := 0 to |candidates|
      invariant forall c :: c in formats <==> c in candidates[..i]
      invariant forall c :: c in formats ==> formats[c] == ComparisonOf(jobs, reference, c, s)
      invariant verdicts == VerdictsOf(jobs, reference, candidates[..i], s)
      invariant forall j :: 0 <= j < i ==> Comparable(jobs, reference, candidates[j], s)
    {
      var one := CompareNamed(jobs, reference, candidates[i], s);
      if one == None { return verdict, formats, false; }
      formats := formats[candidates[i] := one.value];
      verdicts := verdicts + [one.value.verdict];
      assert candidates[..i + 1] == candidates[..i] + [candidates[i]];
    }
    assert candidates[..|candidates|] == candidates;
    verdict := PairVerdict(verdicts);
    ok := true;
  }

  /** Listing the candidates in another order changes neither their evidence nor the pair's verdict. */
  lemma CandidateOrderIrrelevant(a: seq<string>, b: seq<string>, jobs: map<string, Job>, reference: string, s: Setting,
                                 va: Verdict, vb: Verdict, fa: map<string, Comparison>, fb: map<string, Comparison>)
    requires forall c :: c in a <==> c in b
    requires Judged(va, fa, jobs, reference, a, s) && Judged(vb, fb, jobs, reference, b, s)
    ensures va == vb && fa == fb
  {
    forall v ensures v in VerdictsOf(jobs, reference, a, s) <==> v in VerdictsOf(jobs, reference, b, s) {
      VerdictWithin(a, b, jobs, reference, s, v);
      VerdictWithin(b, a, jobs, reference, s, v);
    }
    PairVerdictOfSet(VerdictsOf(jobs, reference, a, s), VerdictsOf(jobs, reference, b, s));
    assert fa.Keys == fb.Keys;
  }

  lemma VerdictWithin(a: seq<string>, b: seq<string>, jobs: map<string, Job>, reference: string, s: Setting, v: Verdict)
    requires forall c :: c in a ==> c in b
    ensures v in VerdictsOf(jobs, reference, a, s) ==> v in VerdictsOf(jobs, reference, b, s)
  {
    var x, y := VerdictsOf(jobs, reference, a, s), VerdictsOf(jobs, reference, b, s);
    if v in x {
      var i :| 0 <= i < |x| && x[i] == v;
      assert a[i] in b;
      var j :| 0 <= j < |b| && b[j] == a[i];
      assert y[j] == v;
    }
  }
}
