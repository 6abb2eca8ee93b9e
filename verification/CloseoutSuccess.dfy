/**
  What a sweep that returns has done, whatever state it found the repository in: each
  status says what it says, and a closeout that succeeds has finished its thread.
*/
module CloseoutSuccess {
  import opened Common
  import opened CloseoutModel
  import opened CloseoutRun
  import opened CloseoutConduct
  import Outcome = CloseoutOutcome

  // ---------- One thread ----------

  /** The thread is closed, and this issue is its terminal bug. */
  ghost predicate Done(r: Remote, k: Key, n: nat) { k in r.threads && !Open(r.threads[k]) && Outcome.TerminalBug(r, k, n) }

  /** However the outside moves: a thread read back open, or with another least badge than its issue was checked for, stops the closeout. */
  lemma StaleStops(w: World, key: Key, issue: Tracked, t: Thread, p: Priority)
    ensures var c := ResolvePhase(w, key, issue, t, p);
      c.Ok? && (Open(c.value.1) || !LeastBadge(c.value.1.comments, p)) ==> ClosePhase(w, key, issue, t, p) == Step.Raised(c.w)
  {
    hide LeastBadge, ReviewPriority, ResolvePhase, LifecyclePhase;
    var c := ResolvePhase(w, key, issue, t, p);
    if c.Ok? { PriorityIsLeast(c.value.1.comments, p); }
  }

  lemma TerminalShown(r: Remote, key: Key, t: Tracked)
    requires Shows(r, key, t) && key in r.threads && !Open(r.threads[key]) && Linked(r, key, t.number)
    requires ValidIssue(t, SourceClosed, Some(ReviewPriority(r.threads[key].comments)))
    ensures Done(r, key, t.number)
  {
    hide ReviewPriority, ValidIssue, LeastBadge, TerminalLabels, Linked;
    var p := ReviewPriority(r.threads[key].comments);
    ValidMeans(t, SourceClosed, p);
    PriorityIsLeast(r.threads[key].comments, p);
  }

  lemma RetireDone(w: World, key: Key, issue: Tracked, p: Priority)
    requires Still(w.plan) && Settling(w, key, issue.number, issue.url, p)
    ensures var s := RetirePhase(w, key, issue, p); s.Ok? ==> Done(s.w.remote, key, issue.number)
  {
    hide ReviewPriority, ValidIssue, Done, Still;
    var s1 := ReadIssue(w, key, issue.number);
    ReadIssueStill(w, key, issue.number);
    if s1.Ok? {
      var s2 := Send(s1.w, RemovePending(issue.number));
      RemoveKeeps(s1.w, key, issue.number, issue.url, p);
      if s2.Ok? {
        ReadIssueStill(s2.w, key, issue.number);
        var s3 := ReadIssue(s2.w, key, issue.number);
        if s3.Ok? && ValidIssue(s3.value, SourceClosed, Some(p)) { TerminalShown(s2.w.remote, key, s3.value); }
      }
    }
  }

  lemma RemoveKeeps(w: World, key: Key, n: nat, url: string, p: Priority)
    requires Still(w.plan) && Settling(w, key, n, url, p)
    ensures var s := Send(w, RemovePending(n)); s.w.plan == w.plan && Settling(s.w, key, n, url, p)
  {
    hide ReviewPriority, OneLink, NoLink;
  }

  lemma AddKeeps(w: World, key: Key, n: nat, url: string, p: Priority)
    requires Still(w.plan) && Settling(w, key, n, url, p)
    ensures var s := Send(w, AddClosed(n)); s.w.plan == w.plan && Settling(s.w, key, n, url, p)
  {
    hide ReviewPriority, OneLink, NoLink;
  }

  lemma LifecycleDone(w: World, key: Key, issue: Tracked, p: Priority)
    requires Still(w.plan) && Settling(w, key, issue.number, issue.url, p)
    ensures var s := LifecyclePhase(w, key, issue, p); s.Ok? ==> Done(s.w.remote, key, issue.number)
  {
    hide ReviewPriority, Done, Still, Linked, PendingBug, RetirePhase, ReadPending, Send;
    ReadPendingStill(w, key, issue, p);
    var s1 := ReadPending(w, key, issue, p);
    if s1.Ok? {
      AddKeeps(s1.w, key, issue.number, issue.url, p);
      var s2 := LabelPhase(s1.w, s1.value);
      if s2.Ok? { RetireDone(s2.w, key, s1.value, p); }
    }
  }

  lemma FinishDone(w: World, key: Key, issue: Tracked, t: Thread)
    requires Still(w.plan) && Holding(w, key, issue, t, ReviewPriority(t.comments))
    ensures var s := FinishPending(w, key, issue, t); s.Ok? ==> Done(s.w.remote, key, issue.number)
  {
    hide Later, ReviewPriority, Still, Carries, Linked, LinkOk, ReplyPhase, ResolvePhase, LifecyclePhase, Proceeds, Done;
    var p := ReviewPriority(t.comments);
    ReplyPhaseProceeds(w, key, issue, t, p);
    ReplyNumber(w, key, issue, t, p);
    var s1 := ReplyPhase(w, key, issue, t, p);
    SamePlan(w, s1.w);
    if s1.Ok? && LinkOk(s1.value.1, s1.value.0) {
      ResolvePhaseProceeds(s1.w, key, s1.value.0, s1.value.1, p);
      ResolveNumber(s1.w, key, s1.value.0, s1.value.1, p);
      var s2 := ResolvePhase(s1.w, key, s1.value.0, s1.value.1, p);
      if s2.Ok? && s2.value.1.Closed() {
        LinkOkMeans(s2.w.remote, key, s2.value.0);
        SamePlan(s1.w, s2.w);
        LifecycleDone(s2.w, key, s2.value.0, p);
      }
    }
  }

  lemma ReplyNumber(w: World, key: Key, issue: Tracked, t: Thread, p: Priority)
    ensures var s := ReplyPhase(w, key, issue, t, p); s.Ok? ==> s.value.0.number == issue.number
  {
    hide ValidIssue, ReplyLinks, Apply;
  }

  lemma ResolveNumber(w: World, key: Key, issue: Tracked, t: Thread, p: Priority)
    ensures var s := ResolvePhase(w, key, issue, t, p); s.Ok? ==> s.value.0.number == issue.number
  {
    hide ValidIssue, ReplyLinks, Apply;
  }

  /** A thread's closeout that succeeds leaves it closed, with its link in place and its issue a terminal bug of its least badge. */
  lemma CloseThreadDone(w: World, key: Key, tracked: Tracked)
    requires Still(w.plan) && (key in w.remote.threads && Open(w.remote.threads[key]) ==> Pressing(w.remote, key, w.plan.minimum))
    ensures var s := CloseThread(w, key, tracked); s.Ok? ==> Done(s.w.remote, key, tracked.number)
  {
    hide ReviewPriority, Still, FinishPending, ValidIssue, Pressing, LinkOk, Done, Linked;
    ReadIssueStill(w, key, tracked.number);
    var s1 := ReadIssue(w, key, tracked.number);
    if s1.Ok? {
      ReadThreadStill(s1.w, key);
      var s2 := ReadThread(s1.w, key);
      if s2.Ok? {
        FinishDone(s2.w, key, s1.value, s2.value);
        LinkOkMeans(s2.w.remote, key, s1.value);
        if !Open(s2.value) && LinkOk(s2.value, s1.value) && ValidIssue(s1.value, SourceClosed, Some(ReviewPriority(s2.value.comments))) {
          TerminalShown(s2.w.remote, key, s1.value);
        }
      }
    }
  }

  // ---------- What a closeout leaves alone ----------

  /** Nothing but this thread and its issues differs. */
  ghost predicate Beside(a: Remote, b: Remote, key: Key) {
    && (forall k :: k in a.threads && k != key ==> k in b.threads && b.threads[k] == a.threads[k])
    && (forall n :: n in a.issues && !Owned(a.issues[n], key) ==> n in b.issues && b.issues[n] == a.issues[n])
  }

  /** No issue is created from one history of sent mutations to the next. */
  ghost predicate Uncreating(a: seq<(Remote, Mutation)>, b: seq<(Remote, Mutation)>) {
    a <= b && forall i :: |a| <= i < |b| ==> !b[i].1.CreateIssue?
  }

  ghost predicate Aside(w: World, v: World, key: Key) {
    v.plan == w.plan && Beside(w.remote, v.remote, key) && Uncreating(w.sent, v.sent)
  }

  lemma AsideTransitive(a: World, b: World, c: World, key: Key)
    requires Aside(a, b, key) && Aside(b, c, key)
    ensures Aside(a, c, key)
  {
    hide Owned;
  }

  lemma ReadAside(w: World, key: Key, k: Key, n: nat)
    requires Still(w.plan)
    ensures Aside(w, ReadIssue(w, k, n).w, key) && Aside(w, ReadThread(w, k).w, key)
  {
    ReadIssueStill(w, k, n);
    ReadThreadStill(w, k);
  }

  /** The mutation is on this thread or on an issue of its own. */
  ghost predicate Own(r: Remote, m: Mutation, key: Key) {
    match m
    case CreateIssue(_, _) => false
    case ReplyThread(k, _) => k == key
    case ResolveThread(k) => k == key
    case AddClosed(n) => n in r.issues && Owned(r.issues[n], key)
    case RemovePending(n) => n in r.issues && Owned(r.issues[n], key)
  }

  lemma SendAside(w: World, m: Mutation, key: Key)
    requires Still(w.plan) && Own(w.remote, m, key)
    ensures Aside(w, Send(w, m).w, key)
  {
    hide Owned;
  }

  lemma PendingAside(w: World, key: Key, expected: Tracked, p: Priority)
    requires Still(w.plan)
    ensures var s := ReadPending(w, key, expected, p); Aside(w, s.w, key) && (s.Ok? ==> Own(s.w.remote, AddClosed(s.value.number), key))
    ensures var s := ReadPending(w, key, expected, p); s.Ok? ==> s.value.number == expected.number
  {
    hide ValidIssue;
    ReadAside(w, key, key, expected.number);
    ReadIssueStill(w, key, expected.number);
  }

  lemma ReplyAside(w: World, key: Key, issue: Tracked, t: Thread, p: Priority)
    requires Still(w.plan)
    ensures Aside(w, ReplyPhase(w, key, issue, t, p).w, key)
  {
    hide Still, ReadPending, Send, ReadThread, Beside;
    PendingAside(w, key, issue, p);
    var s1 := ReadPending(w, key, issue, p);
    AsideSelf(w, key);
    if s1.Ok? {
      var m := ReplyThread(key, Link(s1.value.number, s1.value.url));
      SendAside(s1.w, m, key);
      AsideTransitive(w, s1.w, Send(s1.w, m).w, key);
      ReadAside(Send(s1.w, m).w, key, key, 0);
      AsideTransitive(w, Send(s1.w, m).w, ReadThread(Send(s1.w, m).w, key).w, key);
    }
  }

  lemma AsideSelf(w: World, key: Key)
    ensures Aside(w, w, key)
  {
  }

  lemma ResolveAside(w: World, key: Key, issue: Tracked, t: Thread, p: Priority)
    requires Still(w.plan)
    ensures Aside(w, ResolvePhase(w, key, issue, t, p).w, key)
  {
    hide Still, ReadPending, Send, ReadThread, Beside, ValidLink;
    PendingAside(w, key, issue, p);
    var s1 := ReadPending(w, key, issue, p);
    AsideSelf(w, key);
    if s1.Ok? {
      SendAside(s1.w, ResolveThread(key), key);
      var v := Send(s1.w, ResolveThread(key)).w;
      AsideTransitive(w, s1.w, v, key);
      ReadAside(v, key, key, 0);
      AsideTransitive(w, v, ReadThread(v, key).w, key);
    }
  }

  lemma RetireAside(w: World, key: Key, issue: Tracked, p: Priority)
    requires Still(w.plan)
    ensures Aside(w, RetirePhase(w, key, issue, p).w, key)
  {
    hide Still, Send, Beside, ValidIssue;
    ReadAside(w, key, key, issue.number);
    ReadIssueStill(w, key, issue.number);
    var s1 := ReadIssue(w, key, issue.number);
    if s1.Ok? {
      SendAside(s1.w, RemovePending(issue.number), key);
      var v := Send(s1.w, RemovePending(issue.number)).w;
      AsideTransitive(w, s1.w, v, key);
      ReadAside(v, key, key, issue.number);
      AsideTransitive(w, v, ReadIssue(v, key, issue.number).w, key);
    }
  }

  lemma LifecycleAside(w: World, key: Key, issue: Tracked, p: Priority)
    requires Still(w.plan)
    ensures Aside(w, LifecyclePhase(w, key, issue, p).w, key)
  {
    hide Still, Send, Beside, ReadPending, RetirePhase;
    PendingAside(w, key, issue, p);
    var s1 := ReadPending(w, key, issue, p);
    if s1.Ok? {
      SendAside(s1.w, AddClosed(s1.value.number), key);
      AsideSelf(s1.w, key);
      var s2 := LabelPhase(s1.w, s1.value);
      AsideTransitive(w, s1.w, s2.w, key);
      if s2.Ok? {
        RetireAside(s2.w, key, s1.value, p);
        AsideTransitive(w, s2.w, RetirePhase(s2.w, key, s1.value, p).w, key);
      }
    }
  }

  lemma FinishAside(w: World, key: Key, issue: Tracked, t: Thread)
    requires Still(w.plan)
    ensures Aside(w, FinishPending(w, key, issue, t).w, key)
  {
    hide Still, Beside, ReplyPhase, ResolvePhase, LifecyclePhase, LinkOk, ReviewPriority;
    var p := ReviewPriority(t.comments);
    ReplyAside(w, key, issue, t, p);
    var s1 := ReplyPhase(w, key, issue, t, p);
    if s1.Ok? {
      ResolveAside(s1.w, key, s1.value.0, s1.value.1, p);
      var s2 := ResolvePhase(s1.w, key, s1.value.0, s1.value.1, p);
      AsideTransitive(w, s1.w, s2.w, key);
      if s2.Ok? {
        LifecycleAside(s2.w, key, s2.value.0, p);
        AsideTransitive(w, s2.w, LifecyclePhase(s2.w, key, s2.value.0, p).w, key);
      }
    }
  }

  lemma CloseThreadAside(w: World, key: Key, tracked: Tracked)
    requires Still(w.plan)
    ensures Aside(w, CloseThread(w, key, tracked).w, key)
  {
    hide Still, Beside, FinishPending, ReadIssue, ReadThread, ValidIssue, LinkOk, ReviewPriority;
    ReadAside(w, key, key, tracked.number);
    var s1 := ReadIssue(w, key, tracked.number);
    if s1.Ok? {
      ReadAside(s1.w, key, key, 0);
      var s2 := ReadThread(s1.w, key);
      AsideTransitive(w, s1.w, s2.w, key);
      if s2.Ok? {
        FinishAside(s2.w, key, s1.value, s2.value);
        AsideTransitive(w, s2.w, FinishPending(s2.w, key, s1.value, s2.value).w, key);
      }
    }
  }

  lemma DoneBeside(a: Remote, b: Remote, key: Key, k: Key, n: nat)
    requires Done(a, k, n) && Beside(a, b, key) && k != key
    ensures Done(b, k, n)
  {
    hide LeastBadge, TerminalLabels, OneLink, NoLink;
    assert a.issues[n].markers[0] in a.issues[n].markers;
  }

  // ---------- All the threads ----------

  /** Each of these threads is done with the issue found for it. */
  ghost predicate AllDone(r: Remote, keys: set<Key>, found: map<Key, Tracked>) {
    forall k :: k in keys ==> k in found && Done(r, k, found[k].number)
  }

  lemma {:induction false} CloseAllDone(w: World, work: seq<Key>, found: map<Key, Tracked>, before: set<Key>)
    requires Still(w.plan) && Worked(w.remote, work, w.plan.minimum) && AllDone(w.remote, before, found)
    ensures var s := CloseAll(w, work, found); s.Ok? ==> AllDone(s.w.remote, before + (set k | k in work), found)
    decreases |work|
  {
    hide Later, Still, CloseThread, Proceeds, Pressing, Done, Beside;
    if work == [] {
      assert before + (set k | k in work) == before;
    } else if work[0] in found {
      assert work[0] in work;
      CloseThreadDone(w, work[0], found[work[0]]);
      CloseThreadAside(w, work[0], found[work[0]]);
      CloseThreadProceeds(w, work[0], found[work[0]]);
      var s := CloseThread(w, work[0], found[work[0]]);
      SamePlan(w, s.w);
      if s.Ok? {
        forall k | k in before && k != work[0] ensures Done(s.w.remote, k, found[k].number) {
          DoneBeside(w.remote, s.w.remote, work[0], k, found[k].number);
        }
        WorkedLater(w.remote, s.w.remote, work, w.plan.minimum);
        CloseAllDone(s.w, work[1..], found, before + {work[0]});
        assert before + {work[0]} + (set k | k in work[1..]) == before + (set k | k in work) by { assert work == [work[0]] + work[1..]; }
      }
    }
  }

  // ---------- The issues created ----------

  /** The numbers of the issues that these mutations created. */
  function Numbers(sent: seq<(Remote, Mutation)>): seq<nat> {
    if sent == [] then []
    else
      var (r, m) := sent[|sent| - 1];
      Numbers(sent[..|sent| - 1]) + if m.CreateIssue? then [r.next] else []
  }

  lemma {:induction false} UncreatingNumbers(a: seq<(Remote, Mutation)>, b: seq<(Remote, Mutation)>)
    requires Uncreating(a, b)
    ensures Numbers(b) == Numbers(a)
    decreases |b|
  {
    if |a| < |b| {
      assert !b[|b| - 1].1.CreateIssue?;
      UncreatingNumbers(a, b[..|b| - 1]);
    } else {
      assert a == b;
    }
  }

  lemma NoNumbers()
    ensures Numbers([]) == []
  {
  }

  lemma CreateOneNumbers(w: World, key: Key, p: Priority)
    ensures var s := CreateOne(w, key, p); s.Ok? ==> Numbers(s.w.sent) == Numbers(w.sent) + [s.value.number]
  {
    hide Apply, ValidIssue, Owned, PayloadLabels;
    var s1 := Send(w, CreateIssue(key, p));
    if s1.Ok? {
      assert s1.w.sent == w.sent + [(s1.value, CreateIssue(key, p))];
      assert s1.w.sent[..|w.sent|] == w.sent;
    }
  }

  lemma {:induction false} CreateAllNumbers(w: World, scan: Remote, work: seq<Key>, eligible: seq<Key>, made: Made)
    requires made.numbers == Numbers(w.sent)
    ensures var s := CreateAll(w, scan, work, eligible, made);
      s.Ok? ==> s.value.numbers == Numbers(s.w.sent) && forall k :: k in made.found ==> k in s.value.found && s.value.found[k] == made.found[k]
    decreases |work|
  {
    hide CreateOne, PriorityOf, Numbers;
    if work != [] {
      if work[0] !in eligible || work[0] in made.found {
        CreateAllNumbers(w, scan, work[1..], eligible, made);
      } else {
        var s := CreateOne(w, work[0], PriorityOf(scan, work[0]));
        CreateOneNumbers(w, work[0], PriorityOf(scan, work[0]));
        if s.Ok? {
          CreateAllNumbers(s.w, scan, work[1..], eligible, Made(made.found[work[0] := s.value], made.numbers + [s.value.number]));
        }
      }
    }
  }

  lemma {:induction false} CloseAllCreatesNone(w: World, work: seq<Key>, found: map<Key, Tracked>)
    requires Still(w.plan)
    ensures Uncreating(w.sent, CloseAll(w, work, found).w.sent)
    decreases |work|
  {
    hide Still, CloseThread, Beside;
    if work != [] && work[0] in found {
      CloseThreadAside(w, work[0], found[work[0]]);
      var s := CloseThread(w, work[0], found[work[0]]);
      if s.Ok? { CloseAllCreatesNone(s.w, work[1..], found); }
    }
  }

  // ---------- The run ----------

  /** A tracking issue shown pending whose thread is no longer open. */
  ghost predicate LeftOver(r: Remote, plan: Plan, k: Key, n: nat) {
    n in r.issues && Tracks(r.issues[n], k) && Pending in plan.shown(n, r.issues[n].labels) && !(k in r.threads && Open(r.threads[k]))
  }

  ghost predicate Finishes(r: Remote, k: Key) { exists n :: Done(r, k, n) }

  /** What the status of a returning run says of where it began, what was sent and how it left things. */
  ghost predicate StatusHolds(r: Remote, plan: Plan, status: Status, sent: seq<(Remote, Mutation)>, after: Remote) {
    match status
    case NoCurrentThreads => sent == [] && after == r && (forall k :: k in r.threads ==> !Open(r.threads[k])) && forall k, n :: !LeftOver(r, plan, k, n)
    case BelowThreshold =>
      && sent == [] && after == r && (exists k :: k in r.threads && Open(r.threads[k]))
      && (forall k :: k in r.threads && Open(r.threads[k]) ==> !Pressing(r, k, plan.minimum)) && forall k, n :: !LeftOver(r, plan, k, n)
    case ThreadsClosed(created) =>
      && created == Numbers(sent)
      && (forall k :: k in r.threads && Open(r.threads[k]) && Pressing(r, k, plan.minimum) ==> Finishes(after, k))
      && (forall k, n :: LeftOver(r, plan, k, n) ==> Finishes(after, k))
  }

  lemma WorkPicked(r: Remote, plan: Plan, current: seq<Key>, listing: Listing, k: Key)
    requires IsCurrent(r, current) && Indexes(r, plan, listing)
    ensures var work := Recovery(listing.found, listing.keys, current) + Eligible(r, current, plan.minimum);
      && (k in r.threads && Open(r.threads[k]) && Pressing(r, k, plan.minimum) ==> k in work)
      && (forall n :: LeftOver(r, plan, k, n) ==> k in work)
  {
    hide Pressing, Recovery, Eligible, Tracks;
    EligibleMeans(r, current, plan.minimum, k);
    RecoveryMeans(listing.found, listing.keys, current, k);
    forall n | LeftOver(r, plan, k, n) ensures k in Recovery(listing.found, listing.keys, current) {
      assert Listed(listing.found, listing.keys, k, Tracked(n, r.issues[n].url, r.issues[n].open, plan.shown(n, r.issues[n].labels)));
    }
  }

  lemma IdleHolds(r: Remote, plan: Plan, current: seq<Key>, listing: Listing)
    requires IsCurrent(r, current) && Indexes(r, plan, listing)
    requires Recovery(listing.found, listing.keys, current) + Eligible(r, current, plan.minimum) == []
    ensures StatusHolds(r, plan, if current == [] then NoCurrentThreads else BelowThreshold, [], r)
  {
    hide Pressing, Recovery, Eligible, LeftOver, Indexes;
    forall k | k in r.threads && Open(r.threads[k]) ensures !Pressing(r, k, plan.minimum) { WorkPicked(r, plan, current, listing, k); }
    forall k, n ensures !LeftOver(r, plan, k, n) { WorkPicked(r, plan, current, listing, k); }
    if current != [] { assert current[0] in current; }
  }

  lemma ProcessHolds(w: World, current: seq<Key>, listing: Listing)
    requires Still(w.plan) && IsCurrent(w.remote, current) && Indexes(w.remote, w.plan, listing) && w.sent == []
    ensures var s := Process(w, w.remote, current, listing); s.Ok? ==> StatusHolds(w.remote, w.plan, s.value, s.w.sent, s.w.remote)
  {
    hide Still, Pressing, Admissible, RequiredLabels, CreateAll, CloseAll, Eligible, Recovery, Worked, Creatable,
      Done, LeftOver, Later, Proper, Proceeds, Indexes, Numbers, Observe;
    var scan := w.remote;
    var eligible := Eligible(scan, current, w.plan.minimum);
    var recovery := Recovery(listing.found, listing.keys, current);
    var work := recovery + eligible;
    if work == [] {
      IdleHolds(scan, w.plan, current, listing);
    } else {
      ObserveStill(w);
      var s1 := Observe(w);
      if Admissible(scan, current, recovery, listing.found) && s1.Ok? && RequiredLabels(scan, recovery, eligible) <= s1.value.labels {
        DeclaredCreatable(scan, current, recovery, w.plan.minimum);
        var start := Made(listing.found, []);
        CreateAllProceeds(s1.w, scan, work, eligible, start);
        NoNumbers();
        CreateAllNumbers(s1.w, scan, work, eligible, start);
        var s2 := CreateAll(s1.w, scan, work, eligible, start);
        SamePlan(s1.w, s2.w);
        if s2.Ok? {
          WorkIsWorked(scan, current, listing, w.plan.minimum);
          WorkedLater(scan, s2.w.remote, work, w.plan.minimum);
          CloseAllDone(s2.w, work, s2.value.found, {});
          CloseAllCreatesNone(s2.w, work, s2.value.found);
          var s3 := CloseAll(s2.w, work, s2.value.found);
          UncreatingNumbers(s2.w.sent, s3.w.sent);
          if s3.Ok? { WorkFinishes(scan, w.plan, current, listing, s3.w.remote, s2.value.found); }
        }
      }
    }
  }

  lemma WorkFinishes(r: Remote, plan: Plan, current: seq<Key>, listing: Listing, after: Remote, found: map<Key, Tracked>)
    requires IsCurrent(r, current) && Indexes(r, plan, listing)
    requires var work := Recovery(listing.found, listing.keys, current) + Eligible(r, current, plan.minimum);
      AllDone(after, {} + (set k | k in work), found)
    ensures forall k :: k in r.threads && Open(r.threads[k]) && Pressing(r, k, plan.minimum) ==> Finishes(after, k)
    ensures forall k, n :: LeftOver(r, plan, k, n) ==> Finishes(after, k)
  {
    hide Pressing, Recovery, Eligible, LeftOver, Indexes, Done;
    var work := Recovery(listing.found, listing.keys, current) + Eligible(r, current, plan.minimum);
    assert forall k :: k in work ==> k in {} + (set x | x in work);
    forall k | k in r.threads && Open(r.threads[k]) && Pressing(r, k, plan.minimum) ensures Finishes(after, k) {
      WorkPicked(r, plan, current, listing, k);
      assert Done(after, k, found[k].number);
    }
    forall k, n | LeftOver(r, plan, k, n) ensures Finishes(after, k) {
      WorkPicked(r, plan, current, listing, k);
      assert Done(after, k, found[k].number);
    }
  }

  /**
    A returning run has done what its status says, from any repository that nobody else
    changes: no open thread; or none that presses; or every open thread that pressed and
    every tracked thread left over closed, linked and under a terminal bug of its least
    badge's priority, the issues named being those created.
  */
  lemma StatusMeans(r: Remote, plan: Plan)
    requires Still(plan) && Complete(plan)
    ensures var s := Sweep(r, plan); s.Ok? ==> StatusHolds(r, plan, s.value, s.w.sent, s.w.remote)
  {
    hide Still, Process, TrackedIssues, CurrentKeys, StatusHolds, Observe;
    var w := Start(r, plan);
    ObserveStill(w);
    var s1 := Observe(w);
    if s1.Ok? && plan.asOwner {
      ObserveStill(s1.w);
      var s2 := Observe(s1.w);
      if s2.Ok? {
        var current := plan.scan(CurrentKeys(s2.value));
        ScanIsCurrent(r, plan.scan);
        ObserveStill(s2.w);
        var s3 := Observe(s2.w);
        if s3.Ok? {
          var listed := TrackedIssues(s3.value.issues, plan.list(s3.value.issues.Keys), plan.shown, Listing(map[], []));
          if listed.Some? {
            ListingIndexes(r, plan, listed.value);
            ProcessHolds(s3.w, current, listed.value);
          }
        }
      }
    }
  }
}
