/**
  Merging independently measured shards of one run (src/format_bench/shards.py): the
  identity of a format across shards, the conflict checks, and the merged evidence.
*/
module Shards {
  import opened Common
  import Ordering

  /** JSON values are compared, never looked into. */
  type Value = int

  datatype State = Discovered | Encoded | RoundtripVerified | Benchmarked | Reported | Unsupported | Failed

  /** A manifest's entry for one format; payload stands for the fields that are copied as they are. */
  datatype Entry = Entry(name: string, state: State, failure: Value, payload: Value, pathOk: bool, digest: Option<Value>)

  datatype Identity = Identity(payload: Value, state: Option<State>, failure: Option<Value>, digest: Option<Value>)

  datatype Core = Core(status: Value, result: Value, evidence: Value)

  /** A job's record: what has to agree between shards, and the rest of it. */
  datatype Job = Job(core: Core, rest: Value)

  datatype Shard = Shard(dataset: Value, inputManifest: Value, source: Value, formats: seq<Entry>,
                         manifestState: State, resultsState: State, measured: bool, equivalenceProfile: bool,
                         contract: Value, endpoints: map<string, Value>, pairs: map<string, Value>,
                         jobs: map<string, Job>, environment: Value, measurement: Value)

  datatype Base = Base(state: State, dataset: Value, inputManifest: Value, source: Value, formats: seq<Entry>)

  // ---------- Identities ----------

  predicate Terminal(s: State) { s == Unsupported || s == Failed }

  predicate Active(s: State) { s == RoundtripVerified || s == Benchmarked || s == Reported }

  function IdentityOf(e: Entry): Identity {
    Identity(e.payload, if Terminal(e.state) then Some(e.state) else None, if Terminal(e.state) then Some(e.failure) else None, e.digest)
  }

  /** A terminal format may lack its artifact; any other must have one and be verified. */
  predicate Identifiable(e: Entry) { e.pathOk && (Terminal(e.state) || (Active(e.state) && e.digest.Some?)) }

  ghost predicate AllIdentifiable(entries: seq<Entry>) {
    && (forall i :: 0 <= i < |entries| ==> Identifiable(entries[i]))
    && (forall i, j :: 0 <= i < j < |entries| ==> entries[i].name != entries[j].name)
  }

  /** An entry of this name with this identity is listed. */
  ghost predicate Lists(entries: seq<Entry>, name: string, identity: Identity) {
    exists i :: 0 <= i < |entries| && entries[i].name == name && IdentityOf(entries[i]) == identity
  }

  ghost predicate IdentitiesAre(m: map<string, Identity>, entries: seq<Entry>) {
    forall k, identity :: Lists(entries, k, identity) <==> k in m && m[k] == identity
  }

  lemma ListsMore(entries: seq<Entry>, e: Entry, name: string, identity: Identity)
    ensures Lists(entries + [e], name, identity) <==> Lists(entries, name, identity) || (e.name == name && IdentityOf(e) == identity)
  {
    var all := entries + [e];
    if i :| 0 <= i < |entries| && entries[i].name == name && IdentityOf(entries[i]) == identity {
      assert all[i].name == name && IdentityOf(all[i]) == identity;
    }
    if e.name == name && IdentityOf(e) == identity { assert all[|entries|].name == name && IdentityOf(all[|entries|]) == identity; }
  }

  lemma IdentitiesMore(m: map<string, Identity>, entries: seq<Entry>, e: Entry)
    requires IdentitiesAre(m, entries) && e.name !in m
    ensures IdentitiesAre(m[e.name := IdentityOf(e)], entries + [e])
  {
    forall k, identity
      ensures Lists(entries + [e], k, identity) <==> k in m[e.name := IdentityOf(e)] && m[e.name := IdentityOf(e)][k] == identity
    {
      ListsMore(entries, e, k, identity);
      assert Lists(entries, k, identity) <==> k in m && m[k] == identity;
    }
  }

  /** A name is taken exactly when an earlier entry has it. */
  lemma IdentifiableMore(m: map<string, Identity>, entries: seq<Entry>, n: nat)
    requires n < |entries| && AllIdentifiable(entries[..n]) && IdentitiesAre(m, entries[..n])
    ensures AllIdentifiable(entries[..n + 1]) <==> entries[n].name !in m && Identifiable(entries[n])
  {
    var now, next := entries[..n], entries[..n + 1];
    assert next == now + [entries[n]];
    if entries[n].name in m {
      assert Lists(now, entries[n].name, m[entries[n].name]);
      var i :| 0 <= i < |now| && now[i].name == entries[n].name;
      assert next[i].name == next[n].name;
    } else {
      forall i | 0 <= i < n ensures entries[i].name != entries[n].name {
        assert now[i] == entries[i];
        assert Lists(now, entries[i].name, IdentityOf(now[i]));
      }
    }
    assert next[n] == entries[n];
  }

  lemma IdentifiableLess(entries: seq<Entry>, n: nat)
    requires n <= |entries| && AllIdentifiable(entries)
    ensures AllIdentifiable(entries[..n])
  {
  }

  /** _format_identities: None where a name repeats, a path is refused or a state is not verified. */
  method FormatIdentities(entries: seq<Entry>) returns (identities: Option<map<string, Identity>>)
    ensures identities.Some? <==> AllIdentifiable(entries)
    ensures identities.Some? ==> IdentitiesAre(identities.value, entries)
  {
    hide IdentitiesAre;
    var m: map<string, Identity> := map[];
    NoIdentities();
    assert entries[..0] == [];
    for n := 0 to |entries|
      invariant AllIdentifiable(entries[..n]) && IdentitiesAre(m, entries[..n])
    {
      IdentifiableMore(m, entries, n);
      if entries[n].name in m || !Identifiable(entries[n]) {
        if AllIdentifiable(entries) { IdentifiableLess(entries, n + 1); }
        return None;
      }
      IdentitiesMore(m, entries[..n], entries[n]);
      assert entries[..n + 1] == entries[..n] + [entries[n]];
      m := m[entries[n].name := IdentityOf(entries[n])];
    }
    assert entries[..|entries|] == entries;
    identities := Some(m);
  }

  lemma NoIdentities()
    ensures IdentitiesAre(map[], [])
  {
  }

  /** A format measured or reported since keeps its identity; one that failed since does not. */
  lemma IdentityIgnoresProgress(e: Entry, s: State)
    requires Active(e.state)
    ensures IdentityOf(e) == IdentityOf(e.(state := s)) <==> !Terminal(s)
  {
  }

  // ---------- Merging maps ----------

  predicate Agree<V(==)>(a: map<string, V>, b: map<string, V>) { forall k :: k in a && k in b ==> a[k] == b[k] }

  predicate Apart<V>(a: map<string, V>, b: map<string, V>) { forall k :: k in a ==> k !in b }

  ghost predicate Within<V>(part: map<string, V>, m: map<string, V>) { forall k :: k in part ==> k in m && m[k] == part[k] }

  /** m holds exactly what the parts hold. */
  ghost predicate Union<V>(m: map<string, V>, parts: seq<map<string, V>>) {
    && (forall i :: 0 <= i < |parts| ==> Within(parts[i], m))
    && (forall k :: k in m ==> exists i :: 0 <= i < |parts| && k in parts[i])
  }

  lemma UnionSame<V>(m: map<string, V>, n: map<string, V>, parts: seq<map<string, V>>)
    requires Union(m, parts) && Union(n, parts)
    ensures m == n
  {
    hide Union;
    UnionWithin(m, n, parts);
    UnionWithin(n, m, parts);
    assert m.Keys == n.Keys;
  }

  lemma UnionWithin<V>(m: map<string, V>, n: map<string, V>, parts: seq<map<string, V>>)
    requires Union(m, parts) && Union(n, parts)
    ensures Within(m, n)
  {
  }

  lemma UnionMore<V>(m: map<string, V>, parts: seq<map<string, V>>, next: map<string, V>)
    requires Union(m, parts)
    ensures Agree(m, next) ==> Union(m + next, parts + [next])
    ensures Agree(m, next) <==> forall i :: 0 <= i < |parts| ==> Agree(parts[i], next)
    ensures Apart(m, next) <==> forall i :: 0 <= i < |parts| ==> Apart(parts[i], next)
  {
    if Agree(m, next) { UnionGrows(m, parts, next); }
    forall i | 0 <= i < |parts| ensures Within(parts[i], m) { }
    if forall i :: 0 <= i < |parts| ==> Agree(parts[i], next) {
      forall k | k in m && k in next ensures m[k] == next[k] {
        var i :| 0 <= i < |parts| && k in parts[i];
        assert Agree(parts[i], next);
      }
    }
    if forall i :: 0 <= i < |parts| ==> Apart(parts[i], next) {
      forall k | k in m ensures k !in next {
        var i :| 0 <= i < |parts| && k in parts[i];
        assert Apart(parts[i], next);
      }
    }
  }

  lemma UnionGrows<V>(m: map<string, V>, parts: seq<map<string, V>>, next: map<string, V>)
    requires Union(m, parts) && Agree(m, next)
    ensures Union(m + next, parts + [next])
  {
    var all := parts + [next];
    forall i | 0 <= i < |all| ensures Within(all[i], m + next) {
      if i < |parts| { assert Within(parts[i], m); }
    }
    forall k | k in m + next ensures exists i :: 0 <= i < |all| && k in all[i] {
      if k in next {
        assert k in all[|parts|];
      } else {
        var i :| 0 <= i < |parts| && k in parts[i];
        assert k in all[i];
      }
    }
  }

  // ---------- One shard into the merge ----------

  function Cores(jobs: map<string, Job>): map<string, Core> { map k | k in jobs :: jobs[k].core }

  /** Endpoints may repeat, but not differ. */
  method AddEndpoints(merged: map<string, Value>, more: map<string, Value>) returns (result: Option<map<string, Value>>)
    ensures result == if Agree(merged, more) then Some(merged + more) else None
  {
    var m, left := merged, more.Keys;
    while left != {}
      invariant left <= more.Keys
      invariant m.Keys == merged.Keys + (more.Keys - left)
      invariant forall k :: k in m ==> m[k] == if k in more && k !in left then more[k] else merged[k]
      invariant forall k :: k in merged && k in more && k !in left ==> merged[k] == more[k]
      decreases left
    {
      var k :| k in left;
      if k in m && m[k] != more[k] { return None; }
      m := m[k := more[k]];
      left := left - {k};
    }
    assert m == merged + more;
    result := Some(m);
  }

  /** A pair may not repeat at all. */
  method AddPairs(merged: map<string, Value>, more: map<string, Value>) returns (result: Option<map<string, Value>>)
    ensures result == if Apart(merged, more) then Some(merged + more) else None
  {
    var m, left := merged, more.Keys;
    while left != {}
      invariant left <= more.Keys
      invariant m.Keys == merged.Keys + (more.Keys - left)
      invariant forall k :: k in m ==> m[k] == if k in more && k !in left then more[k] else merged[k]
      invariant forall k :: k in merged ==> k !in more || k in left
      decreases left
    {
      var k :| k in left;
      if k in m { return None; }
      m := m[k := more[k]];
      left := left - {k};
    }
    assert m == merged + more;
    result := Some(m);
  }

  datatype Jobs = Jobs(merged: map<string, Job>, shared: seq<string>)

  /** While jobs are added: what is merged and what is left. */
  ghost predicate Adding(before: map<string, Job>, more: map<string, Job>, now: map<string, Job>, left: set<string>) {
    && (forall k :: k in left ==> k in more)
    && (forall k :: k in now <==> k in before || (k in more && k !in left))
    && (forall k :: k in now ==> now[k] == if k in before then before[k] else more[k])
    && (forall k :: k in before && k in more && k !in left ==> before[k].core == more[k].core)
  }

  lemma AddShared(before: map<string, Job>, more: map<string, Job>, now: map<string, Job>, left: set<string>, k: string)
    requires Adding(before, more, now, left) && k in left && k in now && now[k].core == more[k].core
    ensures Adding(before, more, now, left - {k})
  {
  }

  lemma AddNew(before: map<string, Job>, more: map<string, Job>, now: map<string, Job>, left: set<string>, k: string)
    requires Adding(before, more, now, left) && k in left && k !in now
    ensures Adding(before, more, now[k := more[k]], left - {k})
  {
  }

  lemma OneMore(m: map<string, Job>, k: string, v: Job)
    requires k !in m
    ensures |m[k := v]| == |m| + 1
  {
  }

  lemma AddConflict(before: map<string, Job>, more: map<string, Job>, now: map<string, Job>, left: set<string>, k: string)
    requires Adding(before, more, now, left) && k in left && k in now && now[k].core != more[k].core
    ensures !Agree(Cores(before), Cores(more))
  {
    assert k in before && k in Cores(before) && k in Cores(more);
  }

  lemma AddDone(before: map<string, Job>, more: map<string, Job>, now: map<string, Job>)
    requires Adding(before, more, now, {})
    ensures Agree(Cores(before), Cores(more)) && Within(Cores(before), Cores(now)) && Within(Cores(more), Cores(now))
    ensures forall k :: k in Cores(now) ==> k in Cores(before) || k in Cores(more)
  {
  }

  lemma SumOf<V>(a: map<string, V>, b: map<string, V>, m: map<string, V>)
    requires Within(a, m) && Within(b, m) && forall k :: k in m ==> k in a || k in b
    ensures m == a + b
  {
  }

  /** A job seen before must agree in status, result and evidence; its first record is kept. */
  method AddJobs(before: Jobs, more: map<string, Job>) returns (result: Option<Jobs>)
    ensures result.Some? <==> Agree(Cores(before.merged), Cores(more))
    ensures result.Some? ==> Cores(result.value.merged) == Cores(before.merged) + Cores(more)
    ensures result.Some? ==> |result.value.merged| + |result.value.shared| == |before.merged| + |before.shared| + |more|
  {
    hide Agree, Cores, Within;
    var m, shared, left := before.merged, before.shared, more.Keys;
    while left != {}
      invariant Adding(before.merged, more, m, left)
      invariant |m| + |shared| + |left| == |before.merged| + |before.shared| + |more|
      decreases left
    {
      var k :| k in left;
      if k in m {
        if m[k].core != more[k].core {
          AddConflict(before.merged, more, m, left, k);
          return None;
        }
        AddShared(before.merged, more, m, left, k);
        shared := shared + [k];
      } else {
        AddNew(before.merged, more, m, left, k);
        OneMore(m, k, more[k]);
        m := m[k := more[k]];
      }
      left := left - {k};
    }
    AddDone(before.merged, more, m);
    SumOf(Cores(before.merged), Cores(more), Cores(m));
    result := Some(Jobs(m, shared));
  }

  // ---------- Acceptance ----------

  predicate Measured(s: State) { s == Benchmarked || s == Reported }

  predicate StartsWith(s: string, prefix: string) { |prefix| <= |s| && s[..|prefix|] == prefix }

  predicate JobOf(job: string, format: string) { StartsWith(job, format + "/") }

  predicate NoTerminalJob(formats: seq<Entry>, jobs: map<string, Job>) {
    forall i :: 0 <= i < |formats| && Terminal(formats[i].state) ==> forall k :: k in jobs ==> !JobOf(k, formats[i].name)
  }

  /** What one shard must satisfy beside the base run. */
  ghost predicate Fits(base: Base, s: Shard) {
    && s.dataset == base.dataset && s.inputManifest == base.inputManifest && s.source == base.source
    && AllIdentifiable(s.formats) && SameIdentities(base.formats, s.formats)
    && Measured(s.manifestState) && Measured(s.resultsState) && s.measured
    && NoTerminalJob(base.formats, s.jobs) && s.equivalenceProfile && s.pairs != map[]
  }

  /** The two manifests list the same formats with the same identities. */
  ghost predicate SameIdentities(a: seq<Entry>, b: seq<Entry>) {
    forall name, identity :: Lists(a, name, identity) <==> Lists(b, name, identity)
  }

  /** What two shards must agree on. */
  predicate Compatible(a: Shard, b: Shard) {
    && Agree(a.endpoints, b.endpoints) && Apart(a.pairs, b.pairs) && Agree(Cores(a.jobs), Cores(b.jobs))
    && a.environment == b.environment && a.measurement == b.measurement && a.contract == b.contract
  }

  ghost predicate AllCompatible(shards: seq<Shard>) {
    forall i, j :: 0 <= i < j < |shards| ==> Compatible(shards[i], shards[j])
  }

  ghost predicate Acceptable(base: Base, outputExists: bool, shards: seq<Shard>) {
    && base.state == RoundtripVerified && !outputExists && shards != [] && AllIdentifiable(base.formats)
    && (forall i :: 0 <= i < |shards| ==> Fits(base, shards[i]))
    && AllCompatible(shards)
  }

  // ---------- The merge ----------

  function CoreParts(shards: seq<Shard>): seq<map<string, Core>> { seq(|shards|, i requires 0 <= i < |shards| => Cores(shards[i].jobs)) }

  function PairParts(shards: seq<Shard>): seq<map<string, Value>> { seq(|shards|, i requires 0 <= i < |shards| => shards[i].pairs) }

  function EndpointParts(shards: seq<Shard>): seq<map<string, Value>> { seq(|shards|, i requires 0 <= i < |shards| => shards[i].endpoints) }

  function JobTotal(shards: seq<Shard>): nat {
    if shards == [] then 0 else JobTotal(shards[..|shards| - 1]) + |shards[|shards| - 1].jobs|
  }

  function PairTotal(shards: seq<Shard>): nat {
    if shards == [] then 0 else PairTotal(shards[..|shards| - 1]) + |shards[|shards| - 1].pairs|
  }

  /** The merged maps are the unions of the shards' maps, and every job is counted once as merged or shared. */
  ghost predicate Folded(jobs: Jobs, pairs: map<string, Value>, endpoints: map<string, Value>, shards: seq<Shard>) {
    && Union(Cores(jobs.merged), CoreParts(shards)) && Union(pairs, PairParts(shards)) && Union(endpoints, EndpointParts(shards))
    && |jobs.merged| + |jobs.shared| == JobTotal(shards) && |pairs| == PairTotal(shards)
  }

  /** The checks against what is merged so far are the checks against every shard so far. */
  lemma FoldedChecks(jobs: Jobs, pairs: map<string, Value>, endpoints: map<string, Value>, shards: seq<Shard>, next: Shard)
    requires Folded(jobs, pairs, endpoints, shards)
    ensures Agree(endpoints, next.endpoints) <==> forall i :: 0 <= i < |shards| ==> Agree(shards[i].endpoints, next.endpoints)
    ensures Apart(pairs, next.pairs) <==> forall i :: 0 <= i < |shards| ==> Apart(shards[i].pairs, next.pairs)
    ensures Agree(Cores(jobs.merged), Cores(next.jobs)) <==> forall i :: 0 <= i < |shards| ==> Agree(Cores(shards[i].jobs), Cores(next.jobs))
  {
    hide Agree, Apart, Cores, Union;
    UnionMore(endpoints, EndpointParts(shards), next.endpoints);
    UnionMore(pairs, PairParts(shards), next.pairs);
    UnionMore(Cores(jobs.merged), CoreParts(shards), Cores(next.jobs));
    assert forall i :: 0 <= i < |shards| ==> EndpointParts(shards)[i] == shards[i].endpoints;
    assert forall i :: 0 <= i < |shards| ==> PairParts(shards)[i] == shards[i].pairs;
    assert forall i :: 0 <= i < |shards| ==> CoreParts(shards)[i] == Cores(shards[i].jobs);
  }

  lemma FoldedMore(jobs: Jobs, pairs: map<string, Value>, endpoints: map<string, Value>, shards: seq<Shard>, next: Shard, more: Jobs)
    requires Folded(jobs, pairs, endpoints, shards)
    requires Agree(endpoints, next.endpoints) && Apart(pairs, next.pairs) && Agree(Cores(jobs.merged), Cores(next.jobs))
    requires Cores(more.merged) == Cores(jobs.merged) + Cores(next.jobs)
    requires |more.merged| + |more.shared| == |jobs.merged| + |jobs.shared| + |next.jobs|
    ensures Folded(more, pairs + next.pairs, endpoints + next.endpoints, shards + [next])
  {
    hide Union, Cores, Agree, Apart;
    ApartAgree(pairs, next.pairs);
    UnionMore(endpoints, EndpointParts(shards), next.endpoints);
    UnionMore(pairs, PairParts(shards), next.pairs);
    UnionMore(Cores(jobs.merged), CoreParts(shards), Cores(next.jobs));
    var all := shards + [next];
    assert all[..|shards|] == shards;
    assert EndpointParts(all) == EndpointParts(shards) + [next.endpoints];
    assert PairParts(all) == PairParts(shards) + [next.pairs];
    assert CoreParts(all) == CoreParts(shards) + [Cores(next.jobs)];
    ApartSize(pairs, next.pairs);
  }

  lemma ApartAgree(a: map<string, Value>, b: map<string, Value>)
    requires Apart(a, b)
    ensures Agree(a, b)
  {
  }

  lemma ApartSize(a: map<string, Value>, b: map<string, Value>)
    requires Apart(a, b)
    ensures |a + b| == |a| + |b|
  {
  }

  // ---------- Acceptance, field by field ----------

  /** An entry whose path is safe and which is failed or unsupported, or verified or beyond with its artifact's digest. */
  ghost predicate SoundEntry(e: Entry) {
    && e.pathOk
    && (e.state == Failed || e.state == Unsupported
        || ((e.state == RoundtripVerified || e.state == Benchmarked || e.state == Reported) && e.digest.Some?))
  }

  ghost predicate SoundEntries(entries: seq<Entry>) {
    && (forall i :: 0 <= i < |entries| ==> SoundEntry(entries[i]))
    && (forall i, j :: 0 <= i < j < |entries| ==> entries[i].name != entries[j].name)
  }

  /** The same format: its fields and digest agree, and its state and failure unless both are active. */
  ghost predicate SameFormat(a: Entry, b: Entry) {
    && a.name == b.name && a.payload == b.payload && a.digest == b.digest
    && (if a.state == Failed || a.state == Unsupported then b.state == a.state && b.failure == a.failure
        else b.state != Failed && b.state != Unsupported)
  }

  ghost predicate Counterpart(e: Entry, entries: seq<Entry>) { exists j :: 0 <= j < |entries| && SameFormat(e, entries[j]) }

  ghost predicate SameFormats(a: seq<Entry>, b: seq<Entry>) {
    && (forall i :: 0 <= i < |a| ==> Counterpart(a[i], b))
    && (forall j :: 0 <= j < |b| ==> Counterpart(b[j], a))
  }

  /** Some job of the format: its name, a slash, an operation. */
  ghost predicate Ran(jobs: map<string, Job>, name: string) { exists operation :: RanAs(jobs, name, operation) }

  predicate RanAs(jobs: map<string, Job>, name: string, operation: string) { name + "/" + operation in jobs }

  ghost predicate Suits(base: Base, s: Shard) {
    && s.dataset == base.dataset && s.inputManifest == base.inputManifest && s.source == base.source
    && SoundEntries(s.formats) && SameFormats(base.formats, s.formats)
    && (s.manifestState == Benchmarked || s.manifestState == Reported)
    && (s.resultsState == Benchmarked || s.resultsState == Reported)
    && s.measured && s.equivalenceProfile && |s.pairs| > 0
    && (forall i :: 0 <= i < |base.formats| && (base.formats[i].state == Failed || base.formats[i].state == Unsupported) ==>
          !Ran(s.jobs, base.formats[i].name))
  }

  ghost predicate Consistent(a: Shard, b: Shard) {
    && (forall k :: k in a.endpoints && k in b.endpoints ==> a.endpoints[k] == b.endpoints[k])
    && (forall k :: k in a.pairs ==> k !in b.pairs)
    && (forall k :: k in a.jobs && k in b.jobs ==>
          a.jobs[k].core.status == b.jobs[k].core.status && a.jobs[k].core.result == b.jobs[k].core.result
          && a.jobs[k].core.evidence == b.jobs[k].core.evidence)
    && a.environment == b.environment && a.measurement == b.measurement && a.contract == b.contract
  }

  ghost predicate AcceptableInWords(base: Base, outputExists: bool, shards: seq<Shard>) {
    && base.state == RoundtripVerified && !outputExists && |shards| > 0 && SoundEntries(base.formats)
    && (forall i :: 0 <= i < |shards| ==> Suits(base, shards[i]))
    && (forall i, j :: 0 <= i < j < |shards| ==> Consistent(shards[i], shards[j]))
  }

  lemma SoundEntriesMean(entries: seq<Entry>)
    ensures AllIdentifiable(entries) <==> SoundEntries(entries)
  {
    forall i | 0 <= i < |entries| ensures Identifiable(entries[i]) <==> SoundEntry(entries[i]) { }
  }

  lemma IdentityMeans(a: Entry, b: Entry)
    ensures a.name == b.name && IdentityOf(a) == IdentityOf(b) <==> SameFormat(a, b)
  {
  }

  lemma ListedThen(a: seq<Entry>, b: seq<Entry>, name: string, identity: Identity)
    requires forall i :: 0 <= i < |a| ==> Counterpart(a[i], b)
    ensures Lists(a, name, identity) ==> Lists(b, name, identity)
  {
    hide SameFormat, IdentityOf;
    if i :| 0 <= i < |a| && a[i].name == name && IdentityOf(a[i]) == identity {
      var j :| 0 <= j < |b| && SameFormat(a[i], b[j]);
      IdentityMeans(a[i], b[j]);
    }
  }

  lemma SameFormatsMean(a: seq<Entry>, b: seq<Entry>)
    ensures SameIdentities(a, b) <==> SameFormats(a, b)
  {
    hide Counterpart, Lists;
    if SameIdentities(a, b) {
      forall i | 0 <= i < |a| ensures Counterpart(a[i], b) { ListedAlike(a, b, i); }
      forall j | 0 <= j < |b| ensures Counterpart(b[j], a) { ListedAlike(b, a, j); }
    }
    if SameFormats(a, b) {
      forall name, identity ensures Lists(a, name, identity) <==> Lists(b, name, identity) {
        ListedThen(a, b, name, identity);
        ListedThen(b, a, name, identity);
      }
    }
  }

  lemma ListedAlike(a: seq<Entry>, b: seq<Entry>, i: nat)
    requires SameIdentities(a, b) && i < |a|
    ensures Counterpart(a[i], b)
  {
    hide SameFormat, IdentityOf;
    assert Lists(a, a[i].name, IdentityOf(a[i]));
    var j :| 0 <= j < |b| && b[j].name == a[i].name && IdentityOf(b[j]) == IdentityOf(a[i]);
    IdentityMeans(a[i], b[j]);
  }

  /** A job identifier names a format exactly when it is the format's name, a slash and something more or nothing. */
  lemma JobOfMeans(job: string, name: string)
    ensures JobOf(job, name) <==> exists operation :: job == name + "/" + operation
  {
    if JobOf(job, name) { assert job == name + "/" + job[|name| + 1..]; }
    if operation :| job == name + "/" + operation { assert job[..|name| + 1] == name + "/"; }
  }

  lemma RanMeans(jobs: map<string, Job>, name: string)
    ensures HasJob(jobs, name) <==> Ran(jobs, name)
  {
    hide JobOf;
    if k :| k in jobs && JobOf(k, name) {
      JobOfMeans(k, name);
      var operation :| k == name + "/" + operation;
      assert RanAs(jobs, name, operation);
    }
    if operation :| RanAs(jobs, name, operation) {
      JobOfMeans(name + "/" + operation, name);
      assert JobOf(name + "/" + operation, name);
    }
  }

  lemma NoTerminalJobMeans(formats: seq<Entry>, jobs: map<string, Job>)
    ensures NoTerminalJob(formats, jobs) <==>
      forall i :: 0 <= i < |formats| && (formats[i].state == Failed || formats[i].state == Unsupported) ==> !Ran(jobs, formats[i].name)
  {
    hide JobOf, Ran;
    forall i | 0 <= i < |formats| ensures HasJob(jobs, formats[i].name) <==> Ran(jobs, formats[i].name) { RanMeans(jobs, formats[i].name); }
    if NoTerminalJob(formats, jobs) {
      forall i | 0 <= i < |formats| && (formats[i].state == Failed || formats[i].state == Unsupported) ensures !Ran(jobs, formats[i].name) {
        assert Terminal(formats[i].state);
      }
    }
  }

  lemma SuitsMeans(base: Base, s: Shard)
    ensures Fits(base, s) <==> Suits(base, s)
  {
    hide AllIdentifiable, SoundEntries, SameIdentities, SameFormats, NoTerminalJob, Ran;
    SoundEntriesMean(s.formats);
    SameFormatsMean(base.formats, s.formats);
    NoTerminalJobMeans(base.formats, s.jobs);
    assert s.pairs != map[] <==> |s.pairs| > 0;
  }

  lemma ConsistentMeans(a: Shard, b: Shard)
    ensures Compatible(a, b) <==> Consistent(a, b)
  {
    var x, y := Cores(a.jobs), Cores(b.jobs);
    assert forall k :: (k in x <==> k in a.jobs) && (k in y <==> k in b.jobs);
    if Compatible(a, b) {
      forall k | k in a.jobs && k in b.jobs ensures a.jobs[k].core == b.jobs[k].core { assert k in x && k in y; }
    }
  }

  lemma AcceptableMeans(base: Base, outputExists: bool, shards: seq<Shard>)
    ensures Acceptable(base, outputExists, shards) <==> AcceptableInWords(base, outputExists, shards)
  {
    hide Fits, Suits, Compatible, Consistent, AllIdentifiable, SoundEntries;
    SoundEntriesMean(base.formats);
    forall i | 0 <= i < |shards| ensures Fits(base, shards[i]) <==> Suits(base, shards[i]) { SuitsMeans(base, shards[i]); }
    forall i, j | 0 <= i < j < |shards| ensures Compatible(shards[i], shards[j]) <==> Consistent(shards[i], shards[j]) {
      ConsistentMeans(shards[i], shards[j]);
    }
  }

  /** A shard that differs from the base run only in how far its active formats got, in its jobs and in its pairs. */
  ghost predicate Progressed(base: Base, s: Shard) {
    && s.dataset == base.dataset && s.inputManifest == base.inputManifest && s.source == base.source
    && |s.formats| == |base.formats|
    && (forall i :: 0 <= i < |base.formats| ==>
          s.formats[i] == base.formats[i]
          || ((s.formats[i].state == Benchmarked || s.formats[i].state == Reported) && base.formats[i].state == RoundtripVerified
              && s.formats[i] == base.formats[i].(state := s.formats[i].state)))
    && (s.manifestState == Benchmarked || s.manifestState == Reported)
    && (s.resultsState == Benchmarked || s.resultsState == Reported)
    && s.measured && s.equivalenceProfile && |s.pairs| > 0
    && (forall i :: 0 <= i < |base.formats| && (base.formats[i].state == Failed || base.formats[i].state == Unsupported) ==>
          !Ran(s.jobs, base.formats[i].name))
  }

  /** Such shards are accepted as soon as they are consistent with one another. */
  lemma ProgressIsAccepted(base: Base, shards: seq<Shard>)
    requires base.state == RoundtripVerified && SoundEntries(base.formats) && |shards| > 0
    requires forall i :: 0 <= i < |shards| ==> Progressed(base, shards[i])
    requires forall i, j :: 0 <= i < j < |shards| ==> Consistent(shards[i], shards[j])
    ensures Acceptable(base, false, shards)
  {
    hide Consistent, Acceptable, SoundEntries, Progressed, Suits;
    forall i | 0 <= i < |shards| ensures Suits(base, shards[i]) { ProgressedSuits(base, shards[i]); }
    AcceptableMeans(base, false, shards);
  }

  lemma ProgressedSuits(base: Base, s: Shard)
    requires SoundEntries(base.formats) && Progressed(base, s)
    ensures Suits(base, s)
  {
    hide Ran;
    forall i | 0 <= i < |base.formats| ensures SoundEntry(s.formats[i]) && SameFormat(base.formats[i], s.formats[i]) {
      assert SoundEntry(base.formats[i]);
    }
    forall i, j | 0 <= i < j < |s.formats| ensures s.formats[i].name != s.formats[j].name {
      assert base.formats[i].name != base.formats[j].name;
    }
    assert SameFormats(base.formats, s.formats) by {
      forall i | 0 <= i < |base.formats| ensures Counterpart(base.formats[i], s.formats) && Counterpart(s.formats[i], base.formats) {
        assert SameFormat(base.formats[i], s.formats[i]) && SameFormat(s.formats[i], base.formats[i]);
      }
    }
  }

  // ---------- The run ----------

  lemma IdentitiesEqual(m: map<string, Identity>, a: seq<Entry>, n: map<string, Identity>, b: seq<Entry>)
    requires IdentitiesAre(m, a) && IdentitiesAre(n, b)
    ensures m == n <==> SameIdentities(a, b)
  {
    hide Lists;
    if SameIdentities(a, b) {
      forall k | k in m ensures k in n && n[k] == m[k] { assert Lists(a, k, m[k]); }
      forall k | k in n ensures k in m { assert Lists(b, k, n[k]); }
      assert m.Keys == n.Keys;
    }
  }

  /** The checks on one shard against the base run. */
  method CheckShard(base: Base, identities: map<string, Identity>, s: Shard) returns (ok: bool)
    requires AllIdentifiable(base.formats) && IdentitiesAre(identities, base.formats)
    ensures ok <==> Fits(base, s)
  {
    hide AllIdentifiable, IdentitiesAre, SameIdentities, NoTerminalJob;
    if s.dataset != base.dataset || s.inputManifest != base.inputManifest || s.source != base.source { return false; }
    var own := FormatIdentities(s.formats);
    if own == None { return false; }
    IdentitiesEqual(identities, base.formats, own.value, s.formats);
    if own.value != identities { return false; }
    if !Measured(s.manifestState) || !Measured(s.resultsState) || !s.measured { return false; }
    if !NoTerminalJob(base.formats, s.jobs) { return false; }
    ok := s.equivalenceProfile && s.pairs != map[];
  }

  /** The part of two shards' compatibility that is checked while merging. */
  predicate MapsCompatible(a: Shard, b: Shard) {
    Agree(a.endpoints, b.endpoints) && Apart(a.pairs, b.pairs) && Agree(Cores(a.jobs), Cores(b.jobs))
  }

  predicate SameProtocol(a: Shard, b: Shard) {
    a.environment == b.environment && a.measurement == b.measurement && a.contract == b.contract
  }

  ghost predicate CompatibleUpTo(shards: seq<Shard>, n: nat)
    requires n <= |shards|
  {
    forall i, j :: 0 <= i < j < n ==> MapsCompatible(shards[i], shards[j])
  }

  lemma CompatibleMore(shards: seq<Shard>, n: nat)
    requires n < |shards| && CompatibleUpTo(shards, n)
    ensures CompatibleUpTo(shards, n + 1) <==> forall i :: 0 <= i < n ==> MapsCompatible(shards[i], shards[n])
  {
  }

  lemma CompatibleParts(shards: seq<Shard>)
    ensures AllCompatible(shards) <==>
      CompatibleUpTo(shards, |shards|) && forall i :: 0 <= i < |shards| ==> SameProtocol(shards[0], shards[i])
  {
  }

  /** What merging the shards so far has given. */
  datatype Fold = Fold(jobs: Jobs, pairs: map<string, Value>, endpoints: map<string, Value>)

  ghost predicate FoldOf(f: Fold, shards: seq<Shard>) { Folded(f.jobs, f.pairs, f.endpoints, shards) }

  /** One shard merged in; a conflict with anything merged before is refused. */
  method MergeOne(f: Fold, ghost before: seq<Shard>, s: Shard) returns (r: Option<Fold>)
    requires FoldOf(f, before)
    ensures r.Some? <==> forall i :: 0 <= i < |before| ==> MapsCompatible(before[i], s)
    ensures r.Some? ==> FoldOf(r.value, before + [s])
  {
    hide Agree, Apart, Cores, Folded;
    FoldedChecks(f.jobs, f.pairs, f.endpoints, before, s);
    var endpoints := AddEndpoints(f.endpoints, s.endpoints);
    if endpoints == None { return None; }
    var jobs := AddJobs(f.jobs, s.jobs);
    if jobs == None { return None; }
    var pairs := AddPairs(f.pairs, s.pairs);
    if pairs == None { return None; }
    FoldedMore(f.jobs, f.pairs, f.endpoints, before, s, jobs.value);
    r := Some(Fold(jobs.value, pairs.value, endpoints.value));
  }

  lemma NothingFolded()
    ensures FoldOf(Fold(Jobs(map[], []), map[], map[]), [])
  {
  }

  /** All shards merged, in the order of their directory names; None at the first refusal. */
  method MergeAll(base: Base, identities: map<string, Identity>, shards: seq<Shard>) returns (r: Option<Fold>)
    requires AllIdentifiable(base.formats) && IdentitiesAre(identities, base.formats)
    ensures r.Some? <==> (forall i :: 0 <= i < |shards| ==> Fits(base, shards[i])) && CompatibleUpTo(shards, |shards|)
    ensures r.Some? ==> FoldOf(r.value, shards)
  {
    hide AllIdentifiable, IdentitiesAre, Fits, MapsCompatible, FoldOf, CompatibleUpTo;
    var f := Fold(Jobs(map[], []), map[], map[]);
    NothingFolded();
    NoneCompatible(shards);
    assert shards[..0] == [];
    for n := 0 to |shards|
      invariant FoldOf(f, shards[..n]) && CompatibleUpTo(shards, n)
      invariant forall i :: 0 <= i < n ==> Fits(base, shards[i])
    {
      var ok := CheckShard(base, identities, shards[n]);
      if !ok { return None; }
      var next := MergeOne(f, shards[..n], shards[n]);
      CompatibleMore(shards, n);
      if next == None {
        CompatibleLess(shards, n + 1);
        return None;
      }
      assert shards[..n + 1] == shards[..n] + [shards[n]];
      f := next.value;
    }
    assert shards[..|shards|] == shards;
    r := Some(f);
  }

  lemma NoneCompatible(shards: seq<Shard>)
    ensures CompatibleUpTo(shards, 0)
  {
  }

  lemma CompatibleLess(shards: seq<Shard>, n: nat)
    requires n <= |shards|
    ensures CompatibleUpTo(shards, |shards|) ==> CompatibleUpTo(shards, n)
  {
  }

  // ---------- The merged run ----------

  predicate HasJob(jobs: map<string, Job>, name: string) { exists k :: k in jobs && JobOf(k, name) }

  /** A format with a merged job is benchmarked now. */
  function Advance(e: Entry, jobs: map<string, Job>): Entry { if HasJob(jobs, e.name) then e.(state := Benchmarked) else e }

  function AdvanceAll(entries: seq<Entry>, jobs: map<string, Job>): seq<Entry> {
    seq(|entries|, i requires 0 <= i < |entries| => Advance(entries[i], jobs))
  }

  method AdvanceFormats(entries: seq<Entry>, jobs: map<string, Job>) returns (r: seq<Entry>)
    ensures r == AdvanceAll(entries, jobs)
  {
    hide HasJob;
    r := [];
    for i := 0 to |entries|
      invariant |r| == i && forall j :: 0 <= j < i ==> r[j] == Advance(entries[j], jobs)
    {
      r := r + [if HasJob(jobs, entries[i].name) then entries[i].(state := Benchmarked) else entries[i]];
    }
  }

  predicate OneProtocol(shards: seq<Shard>) { forall i :: 0 <= i < |shards| ==> SameProtocol(shards[0], shards[i]) }

  /** merge_equivalence_shards: refused exactly for the listed reasons. */
  method MergeShards(base: Base, outputExists: bool, shards: seq<Shard>) returns (r: Option<Fold>, formats: seq<Entry>)
    ensures r.Some? <==> AcceptableInWords(base, outputExists, shards)
    ensures r.Some? <==> Acceptable(base, outputExists, shards)
    ensures r.Some? ==> FoldOf(r.value, shards) && formats == AdvanceAll(base.formats, r.value.jobs.merged)
  {
    AcceptableMeans(base, outputExists, shards);
    hide AcceptableInWords, AllIdentifiable, IdentitiesAre, Fits, AllCompatible, CompatibleUpTo, FoldOf, SameProtocol;
    formats := base.formats;
    if base.state != RoundtripVerified || outputExists || shards == [] { return None, formats; }
    var identities := FormatIdentities(base.formats);
    if identities == None { return None, formats; }
    CompatibleParts(shards);
    var f := MergeAll(base, identities.value, shards);
    if f == None || !OneProtocol(shards) { return None, formats; }
    formats := AdvanceFormats(base.formats, f.value.jobs.merged);
    r := f;
  }

  // ---------- What the merge guarantees ----------

  lemma MergedJobs(f: Fold, shards: seq<Shard>, k: string)
    requires FoldOf(f, shards)
    ensures k in f.jobs.merged <==> exists i :: 0 <= i < |shards| && k in shards[i].jobs
  {
    var parts := CoreParts(shards);
    if k in f.jobs.merged {
      assert k in Cores(f.jobs.merged);
      var i :| 0 <= i < |parts| && k in parts[i];
      assert k in shards[i].jobs;
    }
    if i :| 0 <= i < |shards| && k in shards[i].jobs {
      assert Within(parts[i], Cores(f.jobs.merged));
      assert k in parts[i];
    }
  }

  /** Every shard that measured a job agrees with what is merged of it. */
  lemma SharedJobsAgree(f: Fold, shards: seq<Shard>, i: nat, k: string)
    requires FoldOf(f, shards) && i < |shards| && k in shards[i].jobs
    ensures k in f.jobs.merged && f.jobs.merged[k].core == shards[i].jobs[k].core
  {
    assert Within(CoreParts(shards)[i], Cores(f.jobs.merged));
    assert k in CoreParts(shards)[i];
    assert Cores(f.jobs.merged)[k] == CoreParts(shards)[i][k];
  }

  lemma MergedHasJob(f: Fold, shards: seq<Shard>, name: string)
    requires FoldOf(f, shards)
    ensures HasJob(f.jobs.merged, name) <==> exists i :: 0 <= i < |shards| && HasJob(shards[i].jobs, name)
  {
    hide FoldOf, JobOf;
    if HasJob(f.jobs.merged, name) {
      var k :| k in f.jobs.merged && JobOf(k, name);
      MergedJobs(f, shards, k);
      var i :| 0 <= i < |shards| && k in shards[i].jobs;
      assert HasJob(shards[i].jobs, name);
    }
    if i :| 0 <= i < |shards| && HasJob(shards[i].jobs, name) {
      var k :| k in shards[i].jobs && JobOf(k, name);
      MergedJobs(f, shards, k);
    }
  }

  lemma TerminalHasNoJob(base: Base, s: Shard, e: int)
    requires NoTerminalJob(base.formats, s.jobs) && 0 <= e < |base.formats| && Terminal(base.formats[e].state)
    ensures !HasJob(s.jobs, base.formats[e].name)
  {
  }

  /** A failed or unsupported format has no merged job. */
  lemma TerminalHasNoMergedJob(base: Base, shards: seq<Shard>, f: Fold, e: int)
    requires FoldOf(f, shards) && 0 <= e < |base.formats| && Terminal(base.formats[e].state)
    requires forall i :: 0 <= i < |shards| ==> NoTerminalJob(base.formats, shards[i].jobs)
    ensures !HasJob(f.jobs.merged, base.formats[e].name)
  {
    hide FoldOf, HasJob, NoTerminalJob;
    MergedHasJob(f, shards, base.formats[e].name);
    forall i | 0 <= i < |shards| ensures !HasJob(shards[i].jobs, base.formats[e].name) {
      TerminalHasNoJob(base, shards[i], e);
    }
  }

  lemma AcceptableJobs(base: Base, outputExists: bool, shards: seq<Shard>)
    requires Acceptable(base, outputExists, shards)
    ensures forall i :: 0 <= i < |shards| ==> NoTerminalJob(base.formats, shards[i].jobs)
  {
  }

  /** A failed or unsupported format is never benchmarked; any other is exactly when some shard measured a job of it. */
  lemma OnlyMeasuredAdvance(base: Base, outputExists: bool, shards: seq<Shard>, f: Fold, e: int)
    requires Acceptable(base, outputExists, shards) && FoldOf(f, shards) && 0 <= e < |base.formats|
    ensures Terminal(base.formats[e].state) ==> Advance(base.formats[e], f.jobs.merged) == base.formats[e]
    ensures base.formats[e].state == RoundtripVerified ==>
      (Advance(base.formats[e], f.jobs.merged).state == Benchmarked <==>
        exists i :: 0 <= i < |shards| && HasJob(shards[i].jobs, base.formats[e].name))
  {
    hide FoldOf, HasJob, Acceptable, NoTerminalJob;
    MergedHasJob(f, shards, base.formats[e].name);
    AcceptableJobs(base, outputExists, shards);
    if Terminal(base.formats[e].state) { TerminalHasNoMergedJob(base, shards, f, e); }
  }

  /** The formats' states after the merge, by the jobs the shards ran. */
  lemma StatesAfter(base: Base, outputExists: bool, shards: seq<Shard>, f: Fold, e: int)
    requires Acceptable(base, outputExists, shards) && FoldOf(f, shards) && 0 <= e < |base.formats|
    ensures |AdvanceAll(base.formats, f.jobs.merged)| == |base.formats|
    ensures var before, after := base.formats[e], AdvanceAll(base.formats, f.jobs.merged)[e];
      && (before.state == Failed || before.state == Unsupported ==> after == before)
      && (before.state == RoundtripVerified ==>
            after == before.(state := after.state)
            && after.state == if exists i :: 0 <= i < |shards| && Ran(shards[i].jobs, before.name) then Benchmarked else RoundtripVerified)
  {
    hide Acceptable, FoldOf, HasJob, Ran;
    OnlyMeasuredAdvance(base, outputExists, shards, f, e);
    forall i | 0 <= i < |shards| ensures HasJob(shards[i].jobs, base.formats[e].name) <==> Ran(shards[i].jobs, base.formats[e].name) {
      RanMeans(shards[i].jobs, base.formats[e].name);
    }
  }

  // ---------- Order ----------

  lemma CompatibleSymmetric(a: Shard, b: Shard)
    requires Compatible(a, b)
    ensures Compatible(b, a)
  {
  }

  lemma OtherIndex<T>(s: seq<T>, i: nat)
    requires i < |s| && multiset(s)[s[i]] >= 2
    ensures exists j :: 0 <= j < |s| && j != i && s[j] == s[i]
  {
    assert s == s[..i] + [s[i]] + s[i + 1..];
    assert multiset(s) == multiset(s[..i]) + multiset{s[i]} + multiset(s[i + 1..]);
    if s[i] in multiset(s[..i]) {
      var j :| 0 <= j < i && s[..i][j] == s[i];
      assert s[j] == s[i];
    } else {
      assert s[i] in multiset(s[i + 1..]);
      var j :| 0 <= j < |s[i + 1..]| && s[i + 1..][j] == s[i];
      assert s[i + 1 + j] == s[i];
    }
  }

  /** Two places in one order are two places in the other. */
  lemma TwoPlaces(a: seq<Shard>, b: seq<Shard>, i: nat, j: nat)
    requires multiset(a) == multiset(b) && i < j < |b|
    ensures exists x, y :: 0 <= x < |a| && 0 <= y < |a| && x != y && a[x] == b[i] && a[y] == b[j]
  {
    assert b[i] in multiset(a) && b[j] in multiset(a);
    var x :| 0 <= x < |a| && a[x] == b[i];
    if b[i] == b[j] {
      Ordering.CountTwice(b, i, j);
      OtherIndex(a, x);
      var y :| 0 <= y < |a| && y != x && a[y] == a[x];
      assert a[x] == b[i] && a[y] == b[j];
    } else {
      var y :| 0 <= y < |a| && a[y] == b[j];
      assert a[x] == b[i] && a[y] == b[j];
    }
  }

  lemma AcceptableReordered(base: Base, outputExists: bool, a: seq<Shard>, b: seq<Shard>)
    requires multiset(a) == multiset(b) && Acceptable(base, outputExists, a)
    ensures Acceptable(base, outputExists, b)
  {
    hide Fits, Compatible, AllIdentifiable;
    assert |a| == |multiset(a)| == |multiset(b)| == |b|;
    forall i | 0 <= i < |b| ensures Fits(base, b[i]) {
      assert b[i] in multiset(a);
      assert b[i] in a;
    }
    forall i, j | 0 <= i < j < |b| ensures Compatible(b[i], b[j]) {
      TwoPlaces(a, b, i, j);
      var x, y :| 0 <= x < |a| && 0 <= y < |a| && x != y && a[x] == b[i] && a[y] == b[j];
      if x < y { assert Compatible(a[x], a[y]); } else { CompatibleSymmetric(a[y], a[x]); }
    }
  }

  lemma UnionReordered<V>(m: map<string, V>, a: seq<map<string, V>>, b: seq<map<string, V>>)
    requires Union(m, a) && forall p :: p in a <==> p in b
    ensures Union(m, b)
  {
    forall i | 0 <= i < |b| ensures Within(b[i], m) {
      assert b[i] in a;
    }
    forall k | k in m ensures exists i :: 0 <= i < |b| && k in b[i] {
      var i :| 0 <= i < |a| && k in a[i];
      assert a[i] in b;
      var j :| 0 <= j < |b| && b[j] == a[i];
    }
  }

  lemma PartsReordered(a: seq<Shard>, b: seq<Shard>)
    requires multiset(a) == multiset(b)
    ensures forall p :: p in CoreParts(a) ==> p in CoreParts(b)
    ensures forall p :: p in PairParts(a) ==> p in PairParts(b)
    ensures forall p :: p in EndpointParts(a) ==> p in EndpointParts(b)
  {
    hide Cores;
    forall i | 0 <= i < |a|
      ensures CoreParts(a)[i] in CoreParts(b) && PairParts(a)[i] in PairParts(b) && EndpointParts(a)[i] in EndpointParts(b)
    {
      assert a[i] in multiset(b);
      assert a[i] in b;
      var j :| 0 <= j < |b| && b[j] == a[i];
      assert CoreParts(b)[j] == CoreParts(a)[i] && PairParts(b)[j] == PairParts(a)[i] && EndpointParts(b)[j] == EndpointParts(a)[i];
    }
  }

  lemma HasJobSame(a: map<string, Job>, b: map<string, Job>, name: string)
    requires Cores(a) == Cores(b)
    ensures HasJob(a, name) == HasJob(b, name)
  {
    assert forall k :: k in a <==> k in Cores(a);
    assert forall k :: k in b <==> k in Cores(b);
  }

  /**
    The order in which shards are read changes neither whether they are accepted nor
    the merged status, result and evidence of any job, the pairs, the endpoints or the
    formats' states.
  */
  lemma ShardOrderIrrelevant(base: Base, outputExists: bool, a: seq<Shard>, b: seq<Shard>, fa: Fold, fb: Fold)
    requires multiset(a) == multiset(b) && FoldOf(fa, a) && FoldOf(fb, b)
    ensures Acceptable(base, outputExists, a) <==> Acceptable(base, outputExists, b)
    ensures Cores(fa.jobs.merged) == Cores(fb.jobs.merged) && fa.pairs == fb.pairs && fa.endpoints == fb.endpoints
    ensures AdvanceAll(base.formats, fa.jobs.merged) == AdvanceAll(base.formats, fb.jobs.merged)
  {
    hide Acceptable, Union, Cores, HasJob;
    if Acceptable(base, outputExists, a) { AcceptableReordered(base, outputExists, a, b); }
    if Acceptable(base, outputExists, b) { AcceptableReordered(base, outputExists, b, a); }
    PartsReordered(a, b);
    PartsReordered(b, a);
    UnionReordered(Cores(fa.jobs.merged), CoreParts(a), CoreParts(b));
    UnionReordered(fa.pairs, PairParts(a), PairParts(b));
    UnionReordered(fa.endpoints, EndpointParts(a), EndpointParts(b));
    UnionSame(Cores(fa.jobs.merged), Cores(fb.jobs.merged), CoreParts(b));
    UnionSame(fa.pairs, fb.pairs, PairParts(b));
    UnionSame(fa.endpoints, fb.endpoints, EndpointParts(b));
    forall i | 0 <= i < |base.formats| ensures Advance(base.formats[i], fa.jobs.merged) == Advance(base.formats[i], fb.jobs.merged) {
      HasJobSame(fa.jobs.merged, fb.jobs.merged, base.formats[i].name);
    }
  }
}
