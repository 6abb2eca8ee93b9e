/**
  Repeated size observations of one format: taken and recorded when a run is prepared,
  completed by its verification (src/format_bench/workflow.py), admitted before an
  equivalence measurement (equivalence_admission.py), and read back as samples
  (equivalence_compare.py).
*/
module SizeEvidence {
  import opened Common
  import opened Equivalence

  type Digest = string

  datatype State = Discovered | Encoded | RoundtripVerified | Failed | Unsupported

  datatype Attempt = Measured(index: nat, native: int, transport: int, digest: Digest, verified: bool)
                   | FailedAttempt(index: nat)

  /** The recorded observations; current is set when version and resampling unit are the present ones. */
  datatype Observations = Observations(current: bool, attempted: nat, completed: nat, attempts: seq<Attempt>)

  datatype Fault = NoFault | ImportFault | OtherFault

  /**
    What happens to one encoding: a fault before it starts, one in encoding, verifying or
    digesting it, its sizes and digest otherwise, and a fault in removing it again.
  */
  datatype Trial = Trial(before: Fault, body: Fault, native: int, transport: int, digest: Digest, removal: Fault)

  type Trials = nat -> Trial

  predicate IsSha256(d: Digest) { |d| == 64 && forall i :: 0 <= i < |d| ==> d[i] in "0123456789abcdef" }

  // ---------- Preparation ----------

  /** The fault an encoding ends in: the first is kept and not removed. */
  function FaultOf(t: Trial, i: nat): Fault {
    if i == 0 then t.body
    else if t.before != NoFault then t.before
    else if t.removal != NoFault then t.removal
    else t.body
  }

  predicate Measures(t: Trial, i: nat) { t.body == NoFault && (i > 0 ==> t.before == NoFault) }

  /** The first faulty encoding from i on, or n. */
  function StopsAt(trials: Trials, i: nat, n: nat): (k: nat)
    requires i <= n
    ensures i <= k <= n && (k < n ==> FaultOf(trials(k), k) != NoFault)
    ensures forall j :: i <= j < k ==> FaultOf(trials(j), j) == NoFault
    decreases n - i
  {
    if i == n || FaultOf(trials(i), i) != NoFault then i else StopsAt(trials, i + 1, n)
  }

  function Observed(trials: Trials, i: nat): Attempt {
    Measured(i, trials(i).native, trials(i).transport, trials(i).digest, i > 0)
  }

  function ObservedUpTo(trials: Trials, k: nat): seq<Attempt> { seq(k, i requires 0 <= i < k => Observed(trials, i)) }

  /** An encoding that was measured and then could not be removed is on record twice. */
  predicate RemovedLate(trials: Trials, k: nat) { FaultOf(trials(k), k) != NoFault && Measures(trials(k), k) }

  function Recorded(trials: Trials, n: nat): seq<Attempt> {
    var k := StopsAt(trials, 0, n);
    ObservedUpTo(trials, k)
      + (if k == n then [] else if RemovedLate(trials, k) then [Observed(trials, k), FailedAttempt(k)] else [FailedAttempt(k)])
  }

  lemma RecordedFailure(trials: Trials, n: nat, before: seq<Attempt>)
    requires StopsAt(trials, 0, n) < n
    requires var k := StopsAt(trials, 0, n); before == ObservedUpTo(trials, k) + if Measures(trials(k), k) then [Observed(trials, k)] else []
    ensures before + [FailedAttempt(StopsAt(trials, 0, n))] == Recorded(trials, n)
  {
  }

  /** A missing import makes the format unsupported, any other fault failed. */
  function StateAfter(trials: Trials, n: nat): State {
    var k := StopsAt(trials, 0, n);
    if k == n then Encoded else if FaultOf(trials(k), k) == ImportFault then Unsupported else Failed
  }

  predicate Numbered(attempts: seq<Attempt>) { forall i :: 0 <= i < |attempts| ==> attempts[i].index == i }

  function MeasuredCount(attempts: seq<Attempt>): nat {
    if attempts == [] then 0
    else MeasuredCount(attempts[..|attempts| - 1]) + if attempts[|attempts| - 1].Measured? then 1 else 0
  }

  lemma {:induction false} MeasuredMore(a: seq<Attempt>, x: Attempt)
    ensures MeasuredCount(a + [x]) == MeasuredCount(a) + if x.Measured? then 1 else 0
  {
  }

  /** The recorded indices are 0..k-1 exactly unless the run stopped at an encoding measured but not removed. */
  lemma RecordedNumbered(trials: Trials, n: nat)
    ensures Numbered(Recorded(trials, n)) <==> !(StopsAt(trials, 0, n) < n && RemovedLate(trials, StopsAt(trials, 0, n)))
  {
    var k := StopsAt(trials, 0, n);
    if k < n && RemovedLate(trials, k) {
      assert Recorded(trials, n)[k + 1] == FailedAttempt(k);
    }
  }

  lemma ObservedMore(trials: Trials, k: nat)
    ensures ObservedUpTo(trials, k + 1) == ObservedUpTo(trials, k) + [Observed(trials, k)]
  {
  }

  class Entry {
    var state: State
    var attempted: nat
    var completed: nat
    var attempts: seq<Attempt>

    constructor (attempted: nat)
      ensures state == Discovered && this.attempted == attempted && completed == 0 && attempts == []
    {
      state, this.attempted, completed, attempts := Discovered, attempted, 0, [];
    }

    /** completed counts the measured attempts. */
    ghost predicate Counted()
      reads this
    {
      completed == MeasuredCount(attempts)
    }

    method Append(trials: Trials, i: nat)
      requires Counted()
      modifies this`attempts, this`completed
      ensures Counted() && attempts == old(attempts) + [Observed(trials, i)]
    {
      MeasuredMore(attempts, Observed(trials, i));
      attempts := attempts + [Observed(trials, i)];
      completed := completed + 1;
    }

    /** One repeated encoding, removed again whether it was measured or not. */
    method Repeat(trials: Trials, i: nat) returns (fault: Fault)
      requires Counted() && i >= 1
      modifies this`attempts, this`completed
      ensures Counted() && fault == FaultOf(trials(i), i)
      ensures attempts == old(attempts) + if Measures(trials(i), i) then [Observed(trials, i)] else []
    {
      var t := trials(i);
      fault := t.before;
      if fault == NoFault {
        fault := t.body;
        if fault == NoFault { Append(trials, i); }
        if t.removal != NoFault { fault := t.removal; }
      }
    }

    /** The kept encoding and the repeated ones, up to the first fault. */
    method Observe(trials: Trials, n: nat) returns (index: nat, fault: Fault)
      requires n >= 1 && Counted() && attempts == []
      modifies this`attempts, this`completed
      ensures Counted() && index == StopsAt(trials, 0, n)
      ensures fault == if index == n then NoFault else FaultOf(trials(index), index)
      ensures attempts == ObservedUpTo(trials, index) + if index < n && Measures(trials(index), index) then [Observed(trials, index)] else []
    {
      index, fault := 0, trials(0).body;
      if fault != NoFault { return; }
      Append(trials, 0);
      index := 1;
      while index < n
        invariant 1 <= index <= n && Counted()
        invariant StopsAt(trials, 0, n) == StopsAt(trials, index, n)
        invariant attempts == ObservedUpTo(trials, index)
        decreases n - index
      {
        fault := Repeat(trials, index);
        if fault != NoFault { return; }
        ObservedMore(trials, index);
        index := index + 1;
      }
      fault := NoFault;
    }

    /** Encode once for keeps and n - 1 times for its size; the first fault ends the entry. */
    method Prepare(trials: Trials, n: nat)
      requires n >= 1 && state == Discovered && completed == 0 && attempts == []
      modifies this`state, this`attempts, this`completed
      ensures Counted() && attempts == Recorded(trials, n) && state == StateAfter(trials, n)
    {
      var index, fault := Observe(trials, n);
      if fault == NoFault {
        state := Encoded;
      } else {
        MeasuredMore(attempts, FailedAttempt(index));
        RecordedFailure(trials, n, attempts);
        attempts := attempts + [FailedAttempt(index)];
        state := if fault == ImportFault then Unsupported else Failed;
      }
    }

    /**
      verify_run on this entry: passed is None where the adapter raises.  Only an encoded
      entry can advance, and only over the artifact whose sizes were taken.
    */
    method Verify(passed: Option<bool>, digest: Option<Digest>)
      requires state == Encoded ==> attempts != [] && attempts[0].Measured?
      requires Counted()
      modifies this`state, this`attempts
      ensures old(state) != Encoded ==> state == old(state) && attempts == old(attempts)
      ensures old(state) == Encoded ==>
        (state == RoundtripVerified <==> passed == Some(true) && digest == Some(old(attempts)[0].digest))
      ensures old(state) == Encoded && state != RoundtripVerified ==> state == Failed && attempts == old(attempts)
      ensures old(state) == Encoded && state == RoundtripVerified ==>
        attempts == old(attempts)[0 := old(attempts)[0].(verified := true)]
      ensures Counted()
    {
      if state != Encoded { return; }
      if passed != Some(true) || digest == None || attempts[0].digest != digest.value {
        state := Failed;
        return;
      }
      FirstVerified(attempts);
      attempts := attempts[0 := attempts[0].(verified := true)];
      state := RoundtripVerified;
    }

    function Evidence(): Observations
      reads this
    {
      Observations(true, attempted, completed, attempts)
    }
  }

  lemma {:induction false} FirstVerified(attempts: seq<Attempt>)
    requires attempts != [] && attempts[0].Measured?
    ensures MeasuredCount(attempts[0 := attempts[0].(verified := true)]) == MeasuredCount(attempts)
    decreases |attempts|
  {
    var n := |attempts| - 1;
    var after := attempts[0 := attempts[0].(verified := true)];
    if n > 0 {
      FirstVerified(attempts[..n]);
      assert after[..n] == attempts[..n][0 := attempts[0].(verified := true)];
    } else {
      assert after[..0] == attempts[..0];
    }
  }

  // ---------- Admission and samples ----------

  function ExpectedObservations(fixture: bool): nat { if fixture then 2 else 10 }

  /** One attempt the admission accepts at its place. */
  predicate Sound(a: Attempt, i: nat) {
    a.Measured? && a.index == i && a.verified && IsSha256(a.digest) && a.native > 0 && a.transport > 0
  }

  /** _validate_entry: artifact is the digest of the kept file, None if it cannot be taken. */
  predicate Admitted(evidence: Option<Observations>, expected: nat, artifact: Option<Digest>)
    requires expected >= 1
  {
    && evidence.Some?
    && var e := evidence.value;
    && e.current && e.attempted == e.completed == |e.attempts| == expected
    && (forall i :: 0 <= i < |e.attempts| ==> Sound(e.attempts[i], i))
    && artifact == Some(e.attempts[0].digest)
  }

  function Size(a: Attempt, metric: Metric): int
    requires a.Measured?
  {
    if metric == TransportBytes then a.transport else a.native
  }

  /** One attempt the samples accept: only the metric asked for has to be positive. */
  predicate Usable(a: Attempt, i: nat, metric: Metric) {
    a.Measured? && a.index == i && a.verified && IsSha256(a.digest) && Size(a, metric) > 0
  }

  predicate UsableEvidence(evidence: Option<Observations>, metric: Metric) {
    && evidence.Some?
    && var e := evidence.value;
    && e.current && e.attempted == e.completed == |e.attempts|
    && (forall i :: 0 <= i < |e.attempts| ==> Usable(e.attempts[i], i, metric))
  }

  function Samples(evidence: Option<Observations>, metric: Metric): (r: seq<int>)
    ensures r != [] ==> UsableEvidence(evidence, metric)
    ensures UsableEvidence(evidence, metric) ==> |r| == |evidence.value.attempts|
    ensures forall i :: 0 <= i < |r| ==> r[i] > 0
  {
    if !UsableEvidence(evidence, metric) then []
    else
      var a := evidence.value.attempts;
      seq(|a|, i requires 0 <= i < |a| && UsableEvidence(evidence, metric) => Size(a[i], metric))
  }

  /** _size_samples: one bad attempt and there are no samples at all. */
  method SizeSamples(evidence: Option<Observations>, metric: Metric) returns (values: seq<int>)
    ensures values == Samples(evidence, metric)
  {
    if evidence == None { return []; }
    var e := evidence.value;
    if !e.current || e.attempted != e.completed || e.completed != |e.attempts| { return []; }
    values := [];
    for i := 0 to |e.attempts|
      invariant |values| == i
      invariant forall j :: 0 <= j < i ==> Usable(e.attempts[j], j, metric) && values[j] == Size(e.attempts[j], metric)
    {
      if !Usable(e.attempts[i], i, metric) { return []; }
      values := values + [Size(e.attempts[i], metric)];
    }
  }

  // ---------- Soundness, field by field ----------

  /** Sixty-four lower-case hexadecimal digits. */
  ghost predicate Hex64(d: Digest) { |d| == 64 && forall i :: 0 <= i < |d| ==> '0' <= d[i] <= '9' || 'a' <= d[i] <= 'f' }

  lemma HexDigit(c: char)
    ensures c in "0123456789abcdef" <==> '0' <= c <= '9' || 'a' <= c <= 'f'
  {
    var digits := "0123456789abcdef";
    assert digits[0] == '0' && digits[1] == '1' && digits[2] == '2' && digits[3] == '3' && digits[4] == '4' && digits[5] == '5';
    assert digits[6] == '6' && digits[7] == '7' && digits[8] == '8' && digits[9] == '9' && digits[10] == 'a' && digits[11] == 'b';
    assert digits[12] == 'c' && digits[13] == 'd' && digits[14] == 'e' && digits[15] == 'f';
  }

  lemma Sha256Means(d: Digest)
    ensures IsSha256(d) <==> Hex64(d)
  {
    forall i | 0 <= i < |d| ensures d[i] in "0123456789abcdef" <==> '0' <= d[i] <= '9' || 'a' <= d[i] <= 'f' { HexDigit(d[i]); }
  }

  /** One attempt, measured at its place, verified and soundly digested. */
  ghost predicate InOrder(a: Attempt, i: nat) { a.Measured? && a.index == i && a.verified && Hex64(a.digest) }

  lemma SoundMeans(a: Attempt, i: nat)
    ensures Sound(a, i) <==> InOrder(a, i) && a.native > 0 && a.transport > 0
    ensures Usable(a, i, NativeBytes) <==> InOrder(a, i) && a.native > 0
    ensures Usable(a, i, TransportBytes) <==> InOrder(a, i) && a.transport > 0
  {
    if a.Measured? { Sha256Means(a.digest); }
  }

  /** Samples are given exactly when every attempt is in order and positive; then they are the sizes in order. */
  lemma SamplesMean(e: Observations)
    ensures Samples(Some(e), NativeBytes) != [] <==>
      e.current && e.attempted == e.completed == |e.attempts| > 0
      && forall i :: 0 <= i < |e.attempts| ==> InOrder(e.attempts[i], i) && e.attempts[i].native > 0
    ensures Samples(Some(e), TransportBytes) != [] <==>
      e.current && e.attempted == e.completed == |e.attempts| > 0
      && forall i :: 0 <= i < |e.attempts| ==> InOrder(e.attempts[i], i) && e.attempts[i].transport > 0
    ensures forall i :: 0 <= i < |Samples(Some(e), NativeBytes)| ==> Samples(Some(e), NativeBytes)[i] == e.attempts[i].native
    ensures forall i :: 0 <= i < |Samples(Some(e), TransportBytes)| ==> Samples(Some(e), TransportBytes)[i] == e.attempts[i].transport
  {
    hide IsSha256, Hex64;
    forall i | 0 <= i < |e.attempts|
      ensures Usable(e.attempts[i], i, NativeBytes) <==> InOrder(e.attempts[i], i) && e.attempts[i].native > 0
      ensures Usable(e.attempts[i], i, TransportBytes) <==> InOrder(e.attempts[i], i) && e.attempts[i].transport > 0
    {
      SoundMeans(e.attempts[i], i);
    }
    if Samples(Some(e), NativeBytes) != [] { UsableSizes(e, NativeBytes); }
    if Samples(Some(e), TransportBytes) != [] { UsableSizes(e, TransportBytes); }
  }

  lemma UsableSizes(e: Observations, metric: Metric)
    requires Samples(Some(e), metric) != []
    ensures |Samples(Some(e), metric)| == |e.attempts|
    ensures forall i :: 0 <= i < |e.attempts| ==>
      e.attempts[i].Measured? && Samples(Some(e), metric)[i] == if metric == TransportBytes then e.attempts[i].transport else e.attempts[i].native
  {
    hide IsSha256;
    assert forall i :: 0 <= i < |e.attempts| ==> Usable(e.attempts[i], i, metric);
  }

  /** Evidence is admitted exactly with two observations of a fixture or ten otherwise, all in order, positive and of this artifact. */
  lemma AdmittedMeans(e: Observations, fixture: bool, artifact: Option<Digest>)
    ensures Admitted(Some(e), ExpectedObservations(fixture), artifact) <==>
      e.current && e.attempted == e.completed == |e.attempts| == (if fixture then 2 else 10)
      && (forall i :: 0 <= i < |e.attempts| ==> InOrder(e.attempts[i], i) && e.attempts[i].native > 0 && e.attempts[i].transport > 0)
      && artifact == Some(e.attempts[0].digest)
  {
    hide IsSha256, Hex64;
    forall i | 0 <= i < |e.attempts|
      ensures Sound(e.attempts[i], i) <==> InOrder(e.attempts[i], i) && e.attempts[i].native > 0 && e.attempts[i].transport > 0
    {
      SoundMeans(e.attempts[i], i);
    }
  }

  /** Admitted evidence gives as many samples of either size as the run mode asks for. */
  lemma AdmittedSamples(evidence: Option<Observations>, fixture: bool, artifact: Option<Digest>, metric: Metric)
    requires Admitted(evidence, ExpectedObservations(fixture), artifact)
    ensures |Samples(evidence, metric)| == ExpectedObservations(fixture) >= 2
  {
  }

  lemma {:induction false} AllMeasured(attempts: seq<Attempt>)
    requires forall i :: 0 <= i < |attempts| ==> attempts[i].Measured?
    ensures MeasuredCount(attempts) == |attempts|
  {
    if attempts != [] { AllMeasured(attempts[..|attempts| - 1]); }
  }

  predicate SizedTrials(trials: Trials, n: nat) {
    forall i :: 0 <= i < n ==> trials(i).native > 0 && trials(i).transport > 0 && IsSha256(trials(i).digest)
  }

  /** The evidence of an entry prepared without a fault and then verified. */
  function Verified(trials: Trials, n: nat): seq<Attempt>
    requires n >= 1
  {
    ObservedUpTo(trials, n)[0 := Observed(trials, 0).(verified := true)]
  }

  /**
    Evidence that came through preparation and verification is admitted exactly when as
    many observations were asked for as expected, every size was positive and digest
    well formed, and the artifact has not changed since.
  */
  lemma VerifiedAdmission(trials: Trials, n: nat, expected: nat, artifact: Option<Digest>)
    requires n >= 1 && expected >= 1
    ensures Admitted(Some(Observations(true, n, n, Verified(trials, n))), expected, artifact)
      <==> n == expected && SizedTrials(trials, n) && artifact == Some(trials(0).digest)
  {
    var a := Verified(trials, n);
    assert forall i :: 0 <= i < n ==> a[i] == Observed(trials, i).(verified := true);
    if forall i :: 0 <= i < n ==> Sound(a[i], i) {
      forall i | 0 <= i < n ensures trials(i).native > 0 && trials(i).transport > 0 && IsSha256(trials(i).digest) {
        assert Sound(a[i], i);
      }
    }
  }

  /** Evidence of an entry that was not verified is never admitted. */
  lemma UnverifiedRefused(trials: Trials, n: nat, completed: nat, expected: nat, artifact: Option<Digest>)
    requires n >= 1 && expected >= 1
    ensures !Admitted(Some(Observations(true, n, completed, Recorded(trials, n))), expected, artifact)
  {
  }

  lemma VerifiedCount(trials: Trials, n: nat)
    requires n >= 1
    ensures MeasuredCount(Verified(trials, n)) == n == |Verified(trials, n)|
  {
    AllMeasured(Verified(trials, n));
  }

  /** The whole chain: what is admitted was verified, and gives every observed size of both kinds. */
  method Admit(trials: Trials, n: nat, passed: Option<bool>, atVerify: Option<Digest>, atAdmission: Option<Digest>, fixture: bool)
    returns (state: State, admitted: bool, evidence: Option<Observations>)
    requires n >= 1
    ensures state == RoundtripVerified <==> StopsAt(trials, 0, n) == n && passed == Some(true) && atVerify == Some(trials(0).digest)
    ensures evidence.Some? && evidence.value.completed == MeasuredCount(evidence.value.attempts)
    ensures admitted <==> state == RoundtripVerified && n == ExpectedObservations(fixture) && SizedTrials(trials, n)
                          && atAdmission == Some(trials(0).digest)
    ensures admitted <==> Admitted(evidence, ExpectedObservations(fixture), atAdmission)
    ensures state == RoundtripVerified ==> evidence.value.attempts == Verified(trials, n)
  {
    var entry := new Entry(n);
    entry.Prepare(trials, n);
    entry.Verify(passed, atVerify);
    state, evidence := entry.state, Some(entry.Evidence());
    if state == RoundtripVerified {
      assert entry.attempts == Verified(trials, n);
      VerifiedCount(trials, n);
      VerifiedAdmission(trials, n, ExpectedObservations(fixture), atAdmission);
    } else {
      UnverifiedRefused(trials, n, entry.completed, ExpectedObservations(fixture), atAdmission);
    }
    admitted := Admitted(evidence, ExpectedObservations(fixture), atAdmission);
  }

  function SizesOf(trials: Trials, n: nat, metric: Metric): seq<int> {
    seq(n, i requires 0 <= i < n => if metric == TransportBytes then trials(i).transport else trials(i).native)
  }

  /** The samples of admitted evidence are the sizes that were measured, in order. */
  lemma SamplesAreTheSizes(trials: Trials, n: nat, metric: Metric)
    requires n >= 1 && SizedTrials(trials, n)
    ensures Samples(Some(Observations(true, n, n, Verified(trials, n))), metric)
      == SizesOf(trials, n, metric)
  {
  }
}
