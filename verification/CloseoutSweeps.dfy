/** Recovery of whole sweeps: an interrupted history, then one uninterrupted run. */
module CloseoutSweeps {
  import opened Common
  import opened CloseoutModel
  import opened CloseoutRun
  import opened CloseoutSafety
  import opened CloseoutRecovery

  // ---------- What a sweep still has to do ----------

  predicate IsEligible(r: Remote, key: Key, minimum: nat) {
    r.merged >= minimum || PriorityOf(r, key) in {P0, P1}
  }

  /** Every closed tracked thread that is not done, and every eligible current one, is among these keys. */
  ghost predicate Left(r: Remote, keys: seq<Key>, minimum: nat) {
    && (forall k, n :: Pair(r, k, n) && r.threads[k].Closed() ==> Done(r, k) || k in keys)
    && (forall k :: k in r.threads && !r.threads[k].Closed() && IsEligible(r, k, minimum) ==> k in keys)
  }

  /** The index knows each of these threads' tracking issue. */
  ghost predicate Indexed(r: Remote, keys: seq<Key>, found: map<Key, Tracked>) {
    forall k :: k in keys ==> k in found && Pair(r, k, found[k].number) && found[k].url == r.issues[found[k].number].url
  }

  lemma OnlyPairs(r: Remote, q: Remote, key: Key, n: nat, k: Key, m: nat)
    requires Only(r, q, key, n)
    ensures Pair(r, k, m) <==> Pair(q, k, m)
    ensures m in r.issues ==> q.issues[m].url == r.issues[m].url
  {
  }

  lemma DoneKept(r: Remote, q: Remote, key: Key, n: nat)
    requires Healthy(r) && Only(r, q, key, n) && Pair(r, key, n)
    ensures forall k :: Done(r, k) && k != key ==> Done(q, k)
  {
    forall k | Done(r, k) && k != key ensures Done(q, k) {
      var m :| Pair(r, k, m) && OnAxis(r.issues[m].labels, LifecycleAxis) == {SourceClosed};
      OnlyPairs(r, q, key, n, k, m);
      if m == n { OwnerUnique(r.issues[n], key, k); }
      assert Pair(q, k, m);
    }
  }

  lemma LeftShrinks(r: Remote, q: Remote, keys: seq<Key>, n: nat, minimum: nat)
    requires keys != [] && Healthy(r) && Pair(r, keys[0], n) && Only(r, q, keys[0], n)
    requires Left(r, keys, minimum) && Done(q, keys[0])
    ensures Left(q, keys[1..], minimum)
  {
    var key := keys[0];
    DoneKept(r, q, key, n);
    forall k, m | Pair(q, k, m) && q.threads[k].Closed() && k != key
      ensures Done(q, k) || k in keys[1..]
    {
      OnlyPairs(r, q, key, n, k, m);
    }
    assert forall k :: k in q.threads && k != key ==> q.threads[k] == r.threads[k];
  }

  lemma IndexedKept(r: Remote, q: Remote, key: Key, n: nat, keys: seq<Key>, found: map<Key, Tracked>)
    requires Only(r, q, key, n) && Indexed(r, keys, found)
    ensures Indexed(q, keys, found)
  {
  }

  lemma CloseAllQuiet(w: World, work: seq<Key>, found: map<Key, Tracked>, minimum: nat)
    requires QuietWorld(w) && Distinct(work) && Indexed(w.remote, work, found)
    requires Left(w.remote, work, minimum)
    ensures var s := CloseAll(w, work, found);
            && Stays(w, s)
            && (s.Ok? ==> Left(s.w.remote, [], minimum)
                          && (forall k :: k in work || Done(w.remote, k) ==> Done(s.w.remote, k)))
    decreases |work|
  {
    hide Healthy, OnAxis, CloseThread;
    if work != [] {
      var key, rest, r := work[0], work[1..], w.remote;
      assert key in work;
      var n := found[key].number;
      var s := CloseThread(w, key, found[key]);
      CloseThreadQuiet(w, key, found[key]);
      if s.Ok? {
        var q := s.w.remote;
        LeftShrinks(r, q, work, n, minimum);
        DoneKept(r, q, key, n);
        IndexedKept(r, q, key, n, work, found);
        assert forall k :: k in work <==> k == key || k in rest;
        CloseAllQuiet(s.w, rest, found, minimum);
      }
    }
  }

  lemma DoneNotPending(r: Remote, key: Key, n: nat)
    requires Healthy(r) && Pair(r, key, n) && Done(r, key)
    ensures Pending !in r.issues[n].labels
  {
    var m :| Pair(r, key, m) && OnAxis(r.issues[m].labels, LifecycleAxis) == {SourceClosed};
    assert m == n;
    AxisMember(r.issues[n].labels, Pending);
  }

  /** With every thread in the work already done, closing it again changes nothing. */
  lemma CloseAllIdle(w: World, work: seq<Key>, found: map<Key, Tracked>)
    requires QuietWorld(w) && Indexed(w.remote, work, found)
    requires forall k :: k in work ==> Done(w.remote, k)
    ensures var s := CloseAll(w, work, found); Stays(w, s) && s.w.remote == w.remote
    decreases |work|
  {
    if work != [] {
      assert work[0] in work;
      DoneNotPending(w.remote, work[0], found[work[0]].number);
      var s := CloseThread(w, work[0], found[work[0]]);
      CloseThreadQuiet(w, work[0], found[work[0]]);
      if s.Ok? {
        CloseAllIdle(s.w, work[1..], found);
      }
    }
  }

  // ---------- Creation ----------

  /** Ready to be created: current, untracked, and seen with its present priority. */
  ghost predicate Ready(r: Remote, scan: Remote, key: Key) {
    key in r.threads && !r.threads[key].Closed() && Untracked(r, key) && scan.threads == r.threads
  }

  ghost predicate Grows(r: Remote, q: Remote) {
    && q == r.(issues := q.issues, next := q.next, log := q.log)
    && (forall n :: n in r.issues ==> n in q.issues && q.issues[n] == r.issues[n])
  }

  lemma CreateOneQuiet(w: World, scan: Remote, key: Key)
    requires QuietWorld(w) && Ready(w.remote, scan, key)
    ensures var s := CreateOne(w, key, PriorityOf(scan, key));
            && Stays(w, s) && Grows(w.remote, s.w.remote)
            && (forall k, n :: n in s.w.remote.issues && n !in w.remote.issues && Owned(s.w.remote.issues[n], k) ==> k == key)
            && (s.Ok? ==> Pair(s.w.remote, key, s.value.number) && s.value.url == s.w.remote.issues[s.value.number].url)
  {
    hide Quiet, OnAxis;
    var r := w.remote;
    var p := ReviewPriority(r.threads[key].comments);
    var m := CreateIssue(key, p);
    var q := Apply(r, m, w.plan.url);
    CreateKeepsHealthy(r, key, w.plan.url);
    QuietSend(w, m);
    assert q.issues[r.next].markers[0] == key && q.issues[r.next].markers[0] in q.issues[r.next].markers;
    var s1 := Send(w, m);
    if s1.Ok? {
      assert Pair(q, key, r.next);
      QuietReadIssue(s1.w, key, r.next);
      GoodPayload(p);
      GoodIsPending(View(q, r.next), p);
    }
  }

  /** Every key is indexed already, or is work that can be created. */
  ghost predicate Startable(r: Remote, scan: Remote, all: seq<Key>, work: seq<Key>, eligible: seq<Key>,
                            found: map<Key, Tracked>) {
    forall k :: k in all ==>
      if k in found then Pair(r, k, found[k].number) && found[k].url == r.issues[found[k].number].url
      else k in work && k in eligible && Ready(r, scan, k)
  }

  lemma StartableSkip(r: Remote, scan: Remote, all: seq<Key>, work: seq<Key>, eligible: seq<Key>,
                      found: map<Key, Tracked>)
    requires work != [] && work[0] in found && Startable(r, scan, all, work, eligible, found)
    ensures Startable(r, scan, all, work[1..], eligible, found)
  {
  }

  lemma StartableKept(r: Remote, q: Remote, scan: Remote, all: seq<Key>, work: seq<Key>, eligible: seq<Key>,
                      found: map<Key, Tracked>, t: Tracked)
    requires work != [] && Startable(r, scan, all, work, eligible, found) && Grows(r, q)
    requires forall k, n :: n in q.issues && n !in r.issues && Owned(q.issues[n], k) ==> k == work[0]
    requires Pair(q, work[0], t.number) && t.url == q.issues[t.number].url
    ensures Startable(q, scan, all, work[1..], eligible, found[work[0] := t])
  {
  }

  lemma LeftGrows(r: Remote, q: Remote, key: Key, keys: seq<Key>, minimum: nat)
    requires Left(r, keys, minimum) && Grows(r, q) && key in keys
    requires forall k, n :: n in q.issues && n !in r.issues && Owned(q.issues[n], k) ==> k == key
    ensures Left(q, keys, minimum)
    ensures forall k :: Done(r, k) ==> Done(q, k)
  {
    forall k | Done(r, k) ensures Done(q, k) {
      var n :| Pair(r, k, n) && OnAxis(r.issues[n].labels, LifecycleAxis) == {SourceClosed};
      assert Pair(q, k, n);
    }
    forall k, n | Pair(q, k, n) && q.threads[k].Closed()
      ensures Done(q, k) || k in keys
    {
      if n in r.issues { assert Pair(r, k, n); }
    }
  }

  lemma CreateAllQuiet(w: World, scan: Remote, all: seq<Key>, work: seq<Key>, eligible: seq<Key>, made: Made, minimum: nat)
    requires QuietWorld(w) && forall k :: k in work ==> k in all
    requires Startable(w.remote, scan, all, work, eligible, made.found) && Left(w.remote, all, minimum)
    ensures var s := CreateAll(w, scan, work, eligible, made);
            && Stays(w, s)
            && (s.Ok? ==> Indexed(s.w.remote, all, s.value.found) && Left(s.w.remote, all, minimum)
                          && (forall k :: Done(w.remote, k) ==> Done(s.w.remote, k)))
    decreases |work|
  {
    if work != [] {
      var key, r := work[0], w.remote;
      assert key in all;
      if key in made.found {
        StartableSkip(r, scan, all, work, eligible, made.found);
        CreateAllQuiet(w, scan, all, work[1..], eligible, made, minimum);
      } else {
        var s := CreateOne(w, key, PriorityOf(scan, key));
        CreateOneQuiet(w, scan, key);
        if s.Ok? {
          var more := Made(made.found[key := s.value], made.numbers + [s.value.number]);
          StartableKept(r, s.w.remote, scan, all, work, eligible, made.found, s.value);
          LeftGrows(r, s.w.remote, key, all, minimum);
          CreateAllQuiet(s.w, scan, all, work[1..], eligible, more, minimum);
        }
      }
    }
  }

  // ---------- Discovery ----------

  ghost predicate ShownIndex(r: Remote, found: map<Key, Tracked>, shown: (nat, set<Label>) -> set<Label>) {
    forall k :: k in found ==>
      var n := found[k].number;
      Pair(r, k, n) && found[k] == View(r, n).(labels := shown(n, r.issues[n].labels))
  }

  lemma {:induction false} ListingHealthy(r: Remote, order: seq<nat>, shown: (nat, set<Label>) -> set<Label>, acc: Listing)
    requires Healthy(r) && Distinct(order)
    requires ShownIndex(r, acc.found, shown) && forall k :: k in acc.found ==> acc.found[k].number !in order
    ensures var l := TrackedIssues(r.issues, order, shown, acc); l.Some? && ShownIndex(r, l.value.found, shown)
    decreases |order|
  {
    if order != [] {
      var n, rest := order[0], order[1..];
      assert n in order && n !in rest;
      assert forall m :: m in rest ==> m in order;
      if n in r.issues && Marked(r.issues[n]) {
        var i := r.issues[n];
        var key, t := i.markers[0], Tracked(n, i.url, i.open, shown(n, i.labels));
        assert Pair(r, key, n);
        ListingHealthy(r, rest, shown, Listing(acc.found[key := t], acc.keys + [key]));
      } else {
        ListingHealthy(r, rest, shown, acc);
      }
    }
  }

  lemma AdmissibleHealthy(r: Remote, current: seq<Key>, recovery: seq<Key>, found: map<Key, Tracked>,
                          shown: (nat, set<Label>) -> set<Label>)
    requires Healthy(r) && ShownIndex(r, found, shown)
    requires forall n, labels :: Lags(labels, shown(n, labels))
    requires forall k :: k in current ==> k in r.threads && !r.threads[k].Closed()
    requires forall k :: k in recovery ==> k in found && Pending in found[k].labels
    ensures Admissible(r, current, recovery, found)
  {
    forall k | k in found
      ensures Pending in found[k].labels ==> ValidIssue(found[k], Pending, None)
      ensures k in current ==> ValidIssue(found[k], Pending, Some(PriorityOf(r, k))) && SourceClosed !in found[k].labels
    {
      var n, p := found[k].number, PriorityOf(r, k);
      PairHealthy(r, k, n);
      LaggingGood(r.issues[n].labels, found[k].labels, p);
      if Pending in found[k].labels { GoodIsPending(found[k], p); }
    }
  }

  lemma RequiredDeclared(scan: Remote, recovery: seq<Key>, eligible: seq<Key>, labels: set<Label>)
    requires AllDeclared(labels)
    ensures RequiredLabels(scan, recovery, eligible) <= labels
  {
  }

  // ---------- One sweep ----------

  /** What discovery has established when the mutations may begin. */
  ghost predicate Discovered(w: World, current: seq<Key>, listing: Listing) {
    && QuietWorld(w)
    && Distinct(current) && (forall k :: k in current <==> k in CurrentKeys(w.remote))
    && Distinct(listing.keys) && (forall k :: k in listing.keys <==> k in listing.found)
    && ShownIndex(w.remote, listing.found, w.plan.shown)
    && (forall k :: k !in listing.found ==> Unclaimed(w.remote, k))
  }

  lemma OwnedClaims(i: Issue, key: Key)
    ensures Owned(i, key) ==> Claims(i, key)
  {
    if Owned(i, key) { assert i.markers[0] in i.markers; }
  }

  lemma UnclaimedUntracked(r: Remote, key: Key)
    requires Unclaimed(r, key)
    ensures Untracked(r, key)
  {
    forall n | n in r.issues ensures !Owned(r.issues[n], key) { OwnedClaims(r.issues[n], key); }
  }

  lemma PickedParts(w: World, current: seq<Key>, listing: Listing)
    requires Discovered(w, current, listing)
    ensures var eligible := Eligible(w.remote, current, w.plan.minimum);
            forall k :: k in eligible <==> k in CurrentKeys(w.remote) && IsEligible(w.remote, k, w.plan.minimum)
    ensures var recovery := Recovery(listing.found, listing.keys, current);
            forall k :: k in recovery <==> k in listing.found && Pending in listing.found[k].labels && k !in CurrentKeys(w.remote)
  {
    UrgentPart(w.remote, current);
    RecoveryPart(listing.found, listing.keys, current);
  }

  /** A tracked thread that is closed and not yet done shows up as pending in the listing. */
  lemma ClosedIsRecovered(w: World, current: seq<Key>, listing: Listing, key: Key, n: nat)
    requires Discovered(w, current, listing) && Pair(w.remote, key, n) && w.remote.threads[key].Closed()
    ensures Done(w.remote, key) || (key in listing.found && Pending in listing.found[key].labels)
  {
    hide Enumerates;
    var r := w.remote;
    if key !in listing.found { UnclaimedUntracked(r, key); }
    assert listing.found[key].number == n;
    PairHealthy(r, key, n);
    LaggingGood(r.issues[n].labels, listing.found[key].labels, PriorityOf(r, key));
    if Pending !in r.issues[n].labels {
      GoodRemove(r.issues[n].labels, PriorityOf(r, key));
      assert r.issues[n].labels - {Pending} == r.issues[n].labels;
    }
  }

  /** The work a sweep picks is all that is left. */
  lemma WorkCovers(w: World, current: seq<Key>, listing: Listing)
    requires Discovered(w, current, listing)
    ensures var r, min := w.remote, w.plan.minimum;
            Left(r, Recovery(listing.found, listing.keys, current) + Eligible(r, current, min), min)
  {
    var r := w.remote;
    PickedParts(w, current, listing);
    forall k, n | Pair(r, k, n) && r.threads[k].Closed()
      ensures Done(r, k) || k in Recovery(listing.found, listing.keys, current)
    {
      ClosedIsRecovered(w, current, listing, k, n);
    }
  }

  /** ... and each item is tracked already or can be created. */
  lemma WorkStartable(w: World, current: seq<Key>, listing: Listing)
    requires Discovered(w, current, listing)
    ensures var r, min := w.remote, w.plan.minimum;
            var eligible := Eligible(r, current, min);
            var work := Recovery(listing.found, listing.keys, current) + eligible;
            Startable(r, r, work, work, eligible, listing.found)
  {
    PickedParts(w, current, listing);
    forall k | k !in listing.found ensures Untracked(w.remote, k) {
      UnclaimedUntracked(w.remote, k);
    }
  }

  lemma HeadIn(s: seq<Key>)
    ensures s != [] ==> s[0] in s
  {
  }

  /** When nothing is left, the work is at most threads that are done already. */
  lemma WorkIdle(w: World, current: seq<Key>, listing: Listing)
    requires Discovered(w, current, listing) && Left(w.remote, [], w.plan.minimum)
    ensures Eligible(w.remote, current, w.plan.minimum) == []
    ensures forall k :: k in Recovery(listing.found, listing.keys, current) ==> Done(w.remote, k)
  {
    PickedParts(w, current, listing);
    var eligible := Eligible(w.remote, current, w.plan.minimum);
    HeadIn(eligible);
    forall k | k in Recovery(listing.found, listing.keys, current) ensures Done(w.remote, k) {
      assert Pair(w.remote, k, listing.found[k].number);
    }
  }

  lemma ProcessQuiet(w: World, current: seq<Key>, listing: Listing)
    requires Discovered(w, current, listing)
    ensures var r, min, s := w.remote, w.plan.minimum, Process(w, w.remote, current, listing);
            && Stays(w, s)
            && (s.Ok? ==> Left(s.w.remote, [], min)
                          && (forall k :: k in CurrentKeys(r) && IsEligible(r, k, min) ==> Done(s.w.remote, k))
                          && (forall k :: Done(r, k) ==> Done(s.w.remote, k)))
            && (Left(r, [], min) ==> s.w.remote == r)
  {
    var r, min := w.remote, w.plan.minimum;
    var eligible := Eligible(r, current, min);
    var recovery := Recovery(listing.found, listing.keys, current);
    var work := recovery + eligible;
    PickedParts(w, current, listing);
    WorkCovers(w, current, listing);
    WorkStartable(w, current, listing);
    WorkDistinct(r, current, listing, min);
    if work != [] {
      AdmissibleHealthy(r, current, recovery, listing.found, w.plan.shown);
      RequiredDeclared(r, recovery, eligible, r.labels);
      var s1 := Observe(w);
      QuietObserve(w);
      if s1.Ok? {
        var start := Made(listing.found, []);
        var s2 := CreateAll(s1.w, r, work, eligible, start);
        CreateAllQuiet(s1.w, r, work, work, eligible, start, min);
        if Left(r, [], min) {
          WorkIdle(w, current, listing);
          CreateNothing(s1.w, r, work, eligible, start);
        }
        if s2.Ok? {
          CloseAllQuiet(s2.w, work, s2.value.found, min);
          if Left(r, [], min) { CloseAllIdle(s2.w, work, s2.value.found); }
        }
      }
    }
  }

  lemma CreateNothing(w: World, scan: Remote, work: seq<Key>, eligible: seq<Key>, made: Made)
    requires eligible == []
    ensures CreateAll(w, scan, work, eligible, made) == Ok(w, made)
    decreases |work|
  {
  }

  lemma RunQuiet(w: World)
    requires QuietWorld(w)
    ensures var r, min, s := w.remote, w.plan.minimum, Run(w);
            && Stays(w, s)
            && (s.Ok? ==> Left(s.w.remote, [], min)
                          && (forall k :: k in CurrentKeys(r) && IsEligible(r, k, min) ==> Done(s.w.remote, k))
                          && (forall k :: Done(r, k) ==> Done(s.w.remote, k)))
            && (Left(r, [], min) ==> s.w.remote == r)
  {
    var r := w.remote;
    var s1 := Observe(w);
    QuietObserve(w);
    if s1.Ok? {
      var s2 := Observe(s1.w);
      QuietObserve(s1.w);
      if s2.Ok? {
        var current := w.plan.scan(CurrentKeys(r));
        ScanDistinct(w.plan, CurrentKeys(r));
        var s3 := Observe(s2.w);
        QuietObserve(s2.w);
        if s3.Ok? {
          var order := w.plan.list(r.issues.Keys);
          var start := Listing(map[], []);
          assert Distinct(order);
          ListingHealthy(r, order, w.plan.shown, start);
          ListedUnclaimed(r, w.plan, TrackedIssues(r.issues, order, w.plan.shown, start).value);
          ProcessQuiet(s3.w, current, TrackedIssues(r.issues, order, w.plan.shown, start).value);
        }
      }
    }
  }

  // ---------- Recovery ----------

  lemma {:induction false} SweepsHealthy(r: Remote, plans: seq<Plan>)
    requires Healthy(r) && forall i :: 0 <= i < |plans| ==> Quiet(plans[i])
    ensures Healthy(Sweeps(r, plans))
  {
    if plans != [] {
      var last := |plans| - 1;
      SweepsHealthy(r, plans[..last]);
      RunQuiet(Start(Sweeps(r, plans[..last]), plans[last]));
    }
  }

  lemma QuietIsGood(plan: Plan)
    requires Quiet(plan)
    ensures GoodPlan(plan)
  {
    forall i, r ensures EnvStep(r, plan.env(i, r)) { assert plan.env(i, r) == r; }
  }

  /** The thread is closed and its one tracking issue has source-closed as its only lifecycle label. */
  ghost predicate ClosedOut(r: Remote, key: Key) {
    && key in r.threads && r.threads[key].Closed()
    && exists n :: Pair(r, key, n) && OnAxis(r.issues[n].labels, LifecycleAxis) == {SourceClosed}
                   && forall m :: Pair(r, key, m) ==> m == n
  }

  lemma DoneIsClosedOut(r: Remote, key: Key)
    requires Healthy(r) && Done(r, key)
    ensures ClosedOut(r, key)
  {
  }

  /**
    Crash recovery.  After any history of sweeps of a healthy repository, each cut at
    any call with its effect landed or lost, one uninterrupted sweep ends without an
    exception; every thread that was eligible, every tracked thread that was closed,
    and every thread closed out before is then closed out, with at most one reply ever
    posted and at most one issue per thread; and a further sweep changes nothing.
  */
  lemma CrashRecovery(r: Remote, plans: seq<Plan>, last: Plan, again: Plan)
    requires r.log == [] && Healthy(r)
    requires forall i :: 0 <= i < |plans| ==> Quiet(plans[i])
    requires Quiet(last) && last.cut == None
    requires Quiet(again) && again.cut == None && again.minimum == last.minimum
    ensures var q := Sweeps(r, plans);
            var s := Sweep(q, last);
            && s.Ok?
            && (forall k :: k in CurrentKeys(q) && IsEligible(q, k, last.minimum) ==> ClosedOut(s.w.remote, k))
            && (forall k, n :: Pair(s.w.remote, k, n) && s.w.remote.threads[k].Closed() ==> ClosedOut(s.w.remote, k))
            && (forall k :: Done(q, k) ==> ClosedOut(s.w.remote, k))
            && OneReply(s.w.remote) && OneIssue(s.w.remote)
            && Sweep(s.w.remote, again).Ok? && Sweep(s.w.remote, again).w.remote == s.w.remote
  {
    hide Run, Safe;
    var q := Sweeps(r, plans);
    SweepsHealthy(r, plans);
    RunQuiet(Start(q, last));
    var s := Sweep(q, last);
    forall k | Done(s.w.remote, k) ensures ClosedOut(s.w.remote, k) { DoneIsClosedOut(s.w.remote, k); }
    RunQuiet(Start(s.w.remote, again));
    var all := plans + [last];
    forall i | 0 <= i < |all| ensures GoodPlan(all[i]) { QuietIsGood(all[i]); }
    SweepsSafe(r, all);
    assert all[..|plans|] == plans;
  }
}
