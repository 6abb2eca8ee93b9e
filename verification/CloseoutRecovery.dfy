/**
  Recovery: with nobody else touching the repository, sweeps cut at any call leave
  a state from which one uninterrupted sweep finishes all the work, and after which
  a further sweep changes nothing.
*/
module CloseoutRecovery {
  import opened Common
  import opened CloseoutModel
  import opened CloseoutRun
  import opened CloseoutSafety

  // ---------- Quiet circumstances ----------

  /** The collection may show the lifecycle labels of an earlier stage, and nothing else stale. */
  ghost predicate Lags(actual: set<Label>, shown: set<Label>) {
    var a, s := OnAxis(actual, LifecycleAxis), OnAxis(shown, LifecycleAxis);
    && actual - a == shown - s
    && (s == a || s == {Pending} || (s == {Pending, SourceClosed} && a == {SourceClosed}))
  }

  /** The owner runs the sweep and the repository changes only by its mutations; any cut is allowed. */
  ghost predicate Quiet(plan: Plan) {
    && plan.asOwner
    && (forall i, r :: plan.env(i, r) == r)
    && Enumerates(plan.scan) && Enumerates(plan.list)
    && (forall n, labels :: Lags(labels, plan.shown(n, labels)))
  }

  // ---------- Healthy repositories ----------

  ghost predicate GoodLabels(labels: set<Label>, p: Priority) {
    && {Bug, SourceReview} <= labels
    && OnAxis(labels, PriorityAxis) == {PriorityLabel(p)}
    && OnAxis(labels, SourceAxis) == {SourceReview}
    && |OnAxis(labels, BugClassAxis)| == 1
    && (UnclassifiedBug in labels ==> NeedsTriage in labels)
    && OnAxis(labels, LifecycleAxis) <= {Pending, SourceClosed}
    && (Pending in labels || SourceClosed in labels)
  }

  /** A tracking issue and its thread, at one of the stages of the protocol. */
  ghost predicate HealthyPair(i: Issue, n: nat, t: Thread) {
    var links := ReplyLinks(t.comments);
    && i.open && GoodLabels(i.labels, ReviewPriority(t.comments))
    && (links == [] || links == [Link(n, i.url)])
    && (!t.Closed() ==> SourceClosed !in i.labels)
    && (t.resolved && !t.outdated ==> links == [Link(n, i.url)])
  }

  ghost predicate Pair(r: Remote, key: Key, n: nat) {
    key in r.threads && n in r.issues && Owned(r.issues[n], key)
  }

  ghost predicate Untracked(r: Remote, key: Key) {
    forall n :: n in r.issues ==> !Owned(r.issues[n], key)
  }

  predicate Marked(i: Issue) { i.byOwner && (i.markers != [] || i.foreign) }

  predicate AllDeclared(labels: set<Label>) {
    {Bug, NeedsTriage, UnclassifiedBug, SourceReview, Pending, SourceClosed,
     PriorityLabel(P0), PriorityLabel(P1), PriorityLabel(P2), PriorityLabel(P3),
     PriorityLabel(Unclassified)} <= labels
  }

  ghost predicate Healthy(r: Remote) {
    && Fresh(r)
    && AllDeclared(r.labels)
    && (forall n :: n in r.issues && Marked(r.issues[n]) ==>
          r.issues[n].markers != [] && Pair(r, r.issues[n].markers[0], n)
          && HealthyPair(r.issues[n], n, r.threads[r.issues[n].markers[0]]))
    && (forall k, n, m :: Pair(r, k, n) && Pair(r, k, m) ==> n == m)
    && (forall k :: k in r.threads && !r.threads[k].Closed() && Untracked(r, k) ==>
          ReplyLinks(r.threads[k].comments) == [])
  }

  lemma PairHealthy(r: Remote, key: Key, n: nat)
    requires Healthy(r) && Pair(r, key, n)
    ensures HealthyPair(r.issues[n], n, r.threads[key])
  {
    assert Marked(r.issues[n]) && r.issues[n].markers[0] in r.issues[n].markers;
  }

  // ---------- Labels along the stages ----------

  /** Membership in a label set, read axis by axis. */
  lemma AxisMember(labels: set<Label>, l: Label)
    ensures l in OnAxis(labels, AxisOf(l)) <==> l in labels
  {
  }

  lemma PendingLifecycle(labels: set<Label>)
    requires OnAxis(labels, LifecycleAxis) <= {Pending, SourceClosed} && Pending in labels
    ensures OnAxis(labels, LifecycleAxis) == {Pending} + if SourceClosed in labels then {SourceClosed} else {}
    ensures OnAxis(labels - {SourceClosed} + {Pending}, LifecycleAxis) == {Pending}
  {
  }

  lemma PendingClassified(labels: set<Label>, p: Priority)
    requires GoodLabels(labels, p) && Pending in labels
    ensures Classified(labels - {SourceClosed} + {Pending})
  {
    var norm := labels - {SourceClosed} + {Pending};
    PendingLifecycle(labels);
    assert OnAxis(norm, PriorityAxis) == OnAxis(labels, PriorityAxis);
    assert OnAxis(norm, SourceAxis) == OnAxis(labels, SourceAxis);
    assert OnAxis(norm, BugClassAxis) == OnAxis(labels, BugClassAxis);
  }

  lemma GoodIsPending(t: Tracked, p: Priority)
    requires t.open && GoodLabels(t.labels, p) && Pending in t.labels
    ensures ValidIssue(t, Pending, Some(p)) && ValidIssue(t, Pending, None)
  {
    PendingLifecycle(t.labels);
    PendingClassified(t.labels, p);
    AxisMember(t.labels, PriorityLabel(p));
  }

  lemma GoodIsClosed(t: Tracked, p: Priority)
    requires t.open && GoodLabels(t.labels, p) && Pending !in t.labels
    ensures ValidIssue(t, SourceClosed, Some(p))
  {
    var norm := t.labels - {SourceClosed} + {SourceClosed};
    assert norm == t.labels;
    assert PriorityLabel(p) in OnAxis(t.labels, PriorityAxis);
    assert OnAxis(t.labels, LifecycleAxis) == {SourceClosed} by {
      assert Pending in OnAxis(t.labels, LifecycleAxis) ==> Pending in t.labels;
    }
  }

  lemma GoodAdd(labels: set<Label>, p: Priority)
    requires GoodLabels(labels, p)
    ensures GoodLabels(labels + {SourceClosed}, p)
  {
    var more := labels + {SourceClosed};
    assert OnAxis(more, PriorityAxis) == OnAxis(labels, PriorityAxis);
    assert OnAxis(more, SourceAxis) == OnAxis(labels, SourceAxis);
    assert OnAxis(more, BugClassAxis) == OnAxis(labels, BugClassAxis);
    assert OnAxis(more, LifecycleAxis) == OnAxis(labels, LifecycleAxis) + {SourceClosed};
  }

  lemma GoodRemove(labels: set<Label>, p: Priority)
    requires GoodLabels(labels, p) && SourceClosed in labels
    ensures GoodLabels(labels - {Pending}, p)
    ensures OnAxis(labels - {Pending}, LifecycleAxis) == {SourceClosed}
  {
    var less := labels - {Pending};
    assert OnAxis(less, PriorityAxis) == OnAxis(labels, PriorityAxis);
    assert OnAxis(less, SourceAxis) == OnAxis(labels, SourceAxis);
    assert OnAxis(less, BugClassAxis) == OnAxis(labels, BugClassAxis);
    assert OnAxis(less, LifecycleAxis) == OnAxis(labels, LifecycleAxis) - {Pending};
    assert SourceClosed in OnAxis(labels, LifecycleAxis);
  }

  lemma GoodPayload(p: Priority)
    ensures GoodLabels(PayloadLabels(p), p)
    ensures SourceClosed !in PayloadLabels(p)
  {
    var ls := PayloadLabels(p);
    assert OnAxis(ls, PriorityAxis) == {PriorityLabel(p)};
    assert OnAxis(ls, SourceAxis) == {SourceReview};
    assert OnAxis(ls, BugClassAxis) == {UnclassifiedBug};
    assert OnAxis(ls, LifecycleAxis) == {Pending};
  }

  lemma LaggingGood(actual: set<Label>, shown: set<Label>, p: Priority)
    requires GoodLabels(actual, p) && Lags(actual, shown)
    ensures GoodLabels(shown, p)
    ensures Pending in actual ==> Pending in shown
    ensures SourceClosed !in actual ==> SourceClosed !in shown
  {
    var a, s := OnAxis(actual, LifecycleAxis), OnAxis(shown, LifecycleAxis);
    assert forall l :: AxisOf(l) != LifecycleAxis ==> (l in actual <==> l in actual - a) && (l in shown <==> l in shown - s);
    assert OnAxis(shown, PriorityAxis) == OnAxis(actual, PriorityAxis);
    assert OnAxis(shown, SourceAxis) == OnAxis(actual, SourceAxis);
    assert OnAxis(shown, BugClassAxis) == OnAxis(actual, BugClassAxis);
    assert forall l :: AxisOf(l) == LifecycleAxis ==> (l in actual <==> l in a) && (l in shown <==> l in s);
    assert s <= {Pending, SourceClosed};
  }

  // ---------- Mutations keep a repository healthy ----------

  lemma CreateKeepsHealthy(r: Remote, key: Key, url: nat -> string)
    requires Healthy(r) && key in r.threads && !r.threads[key].Closed() && Untracked(r, key)
    ensures Healthy(Apply(r, CreateIssue(key, ReviewPriority(r.threads[key].comments)), url))
  {
    var p := ReviewPriority(r.threads[key].comments);
    var q := Apply(r, CreateIssue(key, p), url);
    GoodPayload(p);
    assert r.next !in r.issues;
    forall k, n, m | Pair(q, k, n) && Pair(q, k, m)
      ensures n == m
    {
      if n != r.next { assert Pair(r, k, n); }
      if m != r.next { assert Pair(r, k, m); }
      assert q.issues[r.next].markers[0] in q.issues[r.next].markers;
    }
    forall k | k in q.threads && !q.threads[k].Closed() && Untracked(q, k)
      ensures ReplyLinks(q.threads[k].comments) == []
    {
      forall m | m in r.issues ensures !Owned(r.issues[m], k) { assert !Owned(q.issues[m], k); }
      assert Untracked(r, k);
    }
  }

  /** Changing one tracked thread, keeping its links canonical. */
  lemma ThreadKeepsHealthy(r: Remote, q: Remote, key: Key, n: nat, t: Thread)
    requires Healthy(r) && Pair(r, key, n) && HealthyPair(r.issues[n], n, t)
    requires q == r.(threads := r.threads[key := t], log := q.log)
    ensures Healthy(q)
  {
    forall m | m in q.issues && Marked(q.issues[m])
      ensures q.issues[m].markers != [] && Pair(q, q.issues[m].markers[0], m)
              && HealthyPair(q.issues[m], m, q.threads[q.issues[m].markers[0]])
    {
      assert Pair(r, r.issues[m].markers[0], m);
    }
    forall k, a, b | Pair(q, k, a) && Pair(q, k, b) ensures a == b {
      assert Pair(r, k, a) && Pair(r, k, b);
    }
    forall k | k in q.threads && !q.threads[k].Closed() && Untracked(q, k)
      ensures ReplyLinks(q.threads[k].comments) == []
    {
      assert Untracked(r, k);
    }
  }

  /** Changing the labels of one tracking issue. */
  lemma LabelsKeepHealthy(r: Remote, q: Remote, key: Key, n: nat, labels: set<Label>)
    requires Healthy(r) && Pair(r, key, n)
    requires HealthyPair(r.issues[n].(labels := labels), n, r.threads[key])
    requires q == r.(issues := r.issues[n := r.issues[n].(labels := labels)], log := q.log)
    ensures Healthy(q)
  {
    forall m | m in q.issues && Marked(q.issues[m])
      ensures q.issues[m].markers != [] && Pair(q, q.issues[m].markers[0], m)
              && HealthyPair(q.issues[m], m, q.threads[q.issues[m].markers[0]])
    {
      assert Pair(r, r.issues[m].markers[0], m);
      if m == n { OwnerUnique(r.issues[n], key, r.issues[m].markers[0]); }
    }
    forall k, a, b | Pair(q, k, a) && Pair(q, k, b) ensures a == b {
      assert Pair(r, k, a) && Pair(r, k, b);
    }
    forall k | k in q.threads && !q.threads[k].Closed() && Untracked(q, k)
      ensures ReplyLinks(q.threads[k].comments) == []
    {
      forall m | m in r.issues ensures !Owned(r.issues[m], k) { assert !Owned(q.issues[m], k); }
      assert Untracked(r, k);
    }
  }

  // ---------- Calls in a quiet world ----------

  ghost predicate QuietWorld(w: World) { Quiet(w.plan) && Healthy(w.remote) }

  /** v is a quiet world of the same run; if the run stopped here, it was cut. */
  ghost predicate Stays<T(!new)>(w: World, s: Step<T>) {
    QuietWorld(s.w) && s.w.plan == w.plan && (s.Raised? ==> w.plan.cut.Some?)
  }

  function View(r: Remote, n: nat): Tracked
    requires n in r.issues
  {
    Tracked(n, r.issues[n].url, r.issues[n].open, r.issues[n].labels)
  }

  lemma QuietObserve(w: World)
    requires QuietWorld(w)
    ensures Stays(w, Observe(w)) && Observe(w).w.remote == w.remote
    ensures Observe(w).Ok? ==> Observe(w).value == w.remote
  {
  }

  lemma QuietReadIssue(w: World, key: Key, n: nat)
    requires QuietWorld(w) && Pair(w.remote, key, n)
    ensures var s := ReadIssue(w, key, n);
            Stays(w, s) && s.w.remote == w.remote && (s.Ok? ==> s.value == View(w.remote, n))
  {
    QuietObserve(w);
  }

  lemma QuietReadThread(w: World, key: Key)
    requires QuietWorld(w) && key in w.remote.threads
    ensures var s := ReadThread(w, key);
            Stays(w, s) && s.w.remote == w.remote && (s.Ok? ==> s.value == w.remote.threads[key])
  {
    QuietObserve(w);
  }

  lemma QuietReadPending(w: World, key: Key, n: nat, expected: Tracked, p: Priority)
    requires QuietWorld(w) && Pair(w.remote, key, n) && Pending in w.remote.issues[n].labels
    requires expected.number == n && expected.url == w.remote.issues[n].url
    requires p == ReviewPriority(w.remote.threads[key].comments)
    ensures var s := ReadPending(w, key, expected, p);
            Stays(w, s) && s.w.remote == w.remote && (s.Ok? ==> s.value == View(w.remote, n))
  {
    QuietReadIssue(w, key, n);
    PairHealthy(w.remote, key, n);
    GoodIsPending(View(w.remote, n), p);
  }

  lemma QuietSend(w: World, m: Mutation)
    requires QuietWorld(w) && Healthy(Apply(w.remote, m, w.plan.url))
    ensures Stays(w, Send(w, m))
    ensures Send(w, m).w.remote == w.remote || Send(w, m).w.remote == Apply(w.remote, m, w.plan.url)
    ensures Send(w, m).Ok? ==> Send(w, m).value == w.remote
                               && Send(w, m).w.remote == Apply(w.remote, m, w.plan.url)
  {
  }

  // ---------- One thread in a quiet world ----------

  /** q differs from r at most in this thread's comments and closed states, and in the history. */
  ghost predicate ThreadMoved(r: Remote, q: Remote, key: Key) {
    && key in r.threads && key in q.threads
    && q == r.(threads := r.threads[key := q.threads[key]], log := q.log)
    && ReviewPriority(q.threads[key].comments) == ReviewPriority(r.threads[key].comments)
    && (r.threads[key].Closed() ==> q.threads[key].Closed())
  }

  function Replied(t: Thread, link: Link): Thread {
    t.(comments := t.comments + [Comment([], [link], true)])
  }

  /** The sweep's own reply adds its link and no priority badge. */
  lemma ReplyAdds(t: Thread, link: Link)
    ensures ReplyLinks(Replied(t, link).comments) == ReplyLinks(t.comments) + [link]
    ensures ReviewPriority(Replied(t, link).comments) == ReviewPriority(t.comments)
  {
    LinksAppend(t.comments, Comment([], [link], true));
    assert Badges(t.comments) + [] == Badges(t.comments);
  }

  lemma ReplyKeepsPair(i: Issue, n: nat, t: Thread)
    requires HealthyPair(i, n, t) && ReplyLinks(t.comments) == []
    ensures HealthyPair(i, n, Replied(t, Link(n, i.url)))
  {
    ReplyAdds(t, Link(n, i.url));
  }

  lemma ReplyHealthy(r: Remote, key: Key, n: nat, url: nat -> string)
    requires Healthy(r) && Pair(r, key, n) && ReplyLinks(r.threads[key].comments) == []
    ensures var q := Apply(r, ReplyThread(key, Link(n, r.issues[n].url)), url);
            && Healthy(q) && ThreadMoved(r, q, key)
            && ReplyLinks(q.threads[key].comments) == [Link(n, r.issues[n].url)]
  {
    var t, link := r.threads[key], Link(n, r.issues[n].url);
    var q := Apply(r, ReplyThread(key, link), url);
    assert q == r.(threads := r.threads[key := Replied(t, link)], log := q.log);
    ReplyAdds(t, link);
    assert Healthy(q) by {
      PairHealthy(r, key, n);
      ReplyKeepsPair(r.issues[n], n, t);
      ThreadKeepsHealthy(r, q, key, n, Replied(t, link));
    }
  }

  lemma ReplyPhaseQuiet(w: World, key: Key, n: nat, p: Priority)
    requires QuietWorld(w) && Pair(w.remote, key, n) && Pending in w.remote.issues[n].labels
    requires p == ReviewPriority(w.remote.threads[key].comments)
    ensures var s := ReplyPhase(w, key, View(w.remote, n), w.remote.threads[key], p);
            && Stays(w, s) && ThreadMoved(w.remote, s.w.remote, key)
            && (s.Ok? ==> s.value == (View(w.remote, n), s.w.remote.threads[key]) && LinkOk(s.value.1, s.value.0))
  {
    hide Quiet, Healthy;
    var r, issue, t := w.remote, View(w.remote, n), w.remote.threads[key];
    PairHealthy(r, key, n);
    if !t.outdated && ReplyLinks(t.comments) == [] {
      var s1 := ReadPending(w, key, issue, p);
      QuietReadPending(w, key, n, issue, p);
      if s1.Ok? {
        var m := ReplyThread(key, Link(n, issue.url));
        ReplyHealthy(r, key, n, w.plan.url);
        QuietSend(s1.w, m);
        var s2 := Send(s1.w, m);
        if s2.Ok? { QuietReadThread(s2.w, key); }
      }
    }
  }

  lemma ResolvePhaseQuiet(w: World, key: Key, n: nat, p: Priority)
    requires QuietWorld(w) && Pair(w.remote, key, n) && Pending in w.remote.issues[n].labels
    requires p == ReviewPriority(w.remote.threads[key].comments)
    requires LinkOk(w.remote.threads[key], View(w.remote, n))
    ensures var s := ResolvePhase(w, key, View(w.remote, n), w.remote.threads[key], p);
            && Stays(w, s) && ThreadMoved(w.remote, s.w.remote, key)
            && (s.Ok? ==> s.value == (View(w.remote, n), s.w.remote.threads[key]) && s.value.1.Closed())
  {
    hide Healthy, OnAxis;
    var r, issue, t := w.remote, View(w.remote, n), w.remote.threads[key];
    PairHealthy(r, key, n);
    if !t.Closed() {
      var s1 := ReadPending(w, key, issue, p);
      QuietReadPending(w, key, n, issue, p);
      if s1.Ok? {
        var m := ResolveThread(key);
        var q := Apply(r, m, w.plan.url);
        ThreadKeepsHealthy(r, q, key, n, q.threads[key]);
        QuietSend(s1.w, m);
        var s2 := Send(s1.w, m);
        if s2.Ok? { QuietReadThread(s2.w, key); }
      }
    }
  }

  /** q differs from r at most in the lifecycle labels of this issue, and in the history. */
  ghost predicate LabelsMoved(r: Remote, q: Remote, n: nat) {
    && n in r.issues && n in q.issues
    && q == r.(issues := r.issues[n := r.issues[n].(labels := q.issues[n].labels)], log := q.log)
  }

  lemma LabelPhaseQuiet(w: World, key: Key, n: nat)
    requires QuietWorld(w) && Pair(w.remote, key, n) && Pending in w.remote.issues[n].labels
    requires w.remote.threads[key].Closed()
    ensures var s := LabelPhase(w, View(w.remote, n));
            && Stays(w, s) && LabelsMoved(w.remote, s.w.remote, n) && Pending in s.w.remote.issues[n].labels
            && (s.Ok? ==> SourceClosed in s.w.remote.issues[n].labels)
  {
    hide Quiet, Healthy;
    var r := w.remote;
    PairHealthy(r, key, n);
    if SourceClosed !in r.issues[n].labels {
      var q := Apply(r, AddClosed(n), w.plan.url);
      GoodAdd(r.issues[n].labels, ReviewPriority(r.threads[key].comments));
      LabelsKeepHealthy(r, q, key, n, q.issues[n].labels);
      QuietSend(w, AddClosed(n));
    } else {
      assert r.issues[n := r.issues[n].(labels := r.issues[n].labels)] == r.issues;
    }
  }

  ghost predicate Done(r: Remote, key: Key) {
    key in r.threads && r.threads[key].Closed()
    && exists n :: Pair(r, key, n) && OnAxis(r.issues[n].labels, LifecycleAxis) == {SourceClosed}
  }

  lemma RetirePhaseQuiet(w: World, key: Key, n: nat, issue: Tracked, p: Priority)
    requires QuietWorld(w) && Pair(w.remote, key, n) && {Pending, SourceClosed} <= w.remote.issues[n].labels
    requires p == ReviewPriority(w.remote.threads[key].comments)
    requires issue.number == n && issue.url == w.remote.issues[n].url
    ensures var s := RetirePhase(w, key, issue, p);
            && Stays(w, s) && LabelsMoved(w.remote, s.w.remote, n)
            && (s.Ok? ==> OnAxis(s.w.remote.issues[n].labels, LifecycleAxis) == {SourceClosed})
  {
    hide Quiet, OnAxis, HealthyPair;
    var r := w.remote;
    PairHealthy(r, key, n);
    GoodIsPending(View(r, n), p);
    var s1 := ReadIssue(w, key, n);
    QuietReadIssue(w, key, n);
    assert r.issues[n := r.issues[n].(labels := r.issues[n].labels)] == r.issues;
    if s1.Ok? {
      var q := Apply(r, RemovePending(n), w.plan.url);
      GoodRemove(r.issues[n].labels, p);
      LabelsKeepHealthy(r, q, key, n, q.issues[n].labels);
      QuietSend(s1.w, RemovePending(n));
      var s2 := Send(s1.w, RemovePending(n));
      if s2.Ok? {
        assert Pair(s2.w.remote, key, n);
        QuietReadIssue(s2.w, key, n);
        GoodIsClosed(View(s2.w.remote, n), p);
      }
    }
  }

  lemma LifecyclePhaseQuiet(w: World, key: Key, n: nat, p: Priority)
    requires QuietWorld(w) && Pair(w.remote, key, n) && Pending in w.remote.issues[n].labels
    requires w.remote.threads[key].Closed() && p == ReviewPriority(w.remote.threads[key].comments)
    ensures var s := LifecyclePhase(w, key, View(w.remote, n), p);
            && Stays(w, s) && LabelsMoved(w.remote, s.w.remote, n)
            && (s.Ok? ==> OnAxis(s.w.remote.issues[n].labels, LifecycleAxis) == {SourceClosed})
  {
    hide QuietWorld, OnAxis, Quiet, Healthy;
    hide OnAxis, Quiet, QuietWorld, Send;
    var r, issue := w.remote, View(w.remote, n);
    assert r.issues[n := r.issues[n].(labels := r.issues[n].labels)] == r.issues;
    var s1 := ReadPending(w, key, issue, p);
    QuietReadPending(w, key, n, issue, p);
    if s1.Ok? {
      var s2 := LabelPhase(s1.w, issue);
      LabelPhaseQuiet(s1.w, key, n);
      if s2.Ok? {
        RetirePhaseQuiet(s2.w, key, n, issue, p);
        var q := RetirePhase(s2.w, key, issue, p).w.remote;
        assert q.issues == s2.w.remote.issues[n := s2.w.remote.issues[n].(labels := q.issues[n].labels)];
        assert q.issues == r.issues[n := r.issues[n].(labels := q.issues[n].labels)];
      }
    }
  }

  /** q differs from r only in this thread, in the labels of this issue, and in the history. */
  ghost predicate Only(r: Remote, q: Remote, key: Key, n: nat) {
    && key in r.threads && n in r.issues && key in q.threads && n in q.issues
    && q == r.(threads := r.threads[key := q.threads[key]],
               issues := r.issues[n := r.issues[n].(labels := q.issues[n].labels)], log := q.log)
    && ReviewPriority(q.threads[key].comments) == ReviewPriority(r.threads[key].comments)
    && (r.threads[key].Closed() ==> q.threads[key].Closed())
  }

  lemma MovedOnly(r: Remote, q: Remote, v: Remote, key: Key, n: nat)
    requires ThreadMoved(r, q, key) && n in r.issues && LabelsMoved(q, v, n)
    ensures Only(r, v, key, n)
  {
  }

  lemma UnmovedLabels(r: Remote, n: nat)
    requires n in r.issues
    ensures LabelsMoved(r, r, n)
  {
  }

  lemma ClosePhaseQuiet(w: World, key: Key, n: nat, p: Priority)
    requires QuietWorld(w) && Pair(w.remote, key, n) && Pending in w.remote.issues[n].labels
    requires p == ReviewPriority(w.remote.threads[key].comments)
    requires LinkOk(w.remote.threads[key], View(w.remote, n))
    ensures var s := ClosePhase(w, key, View(w.remote, n), w.remote.threads[key], p);
            && Stays(w, s) && Only(w.remote, s.w.remote, key, n)
            && (s.Ok? ==> Done(s.w.remote, key))
  {
    var r, issue, t := w.remote, View(w.remote, n), w.remote.threads[key];
    var s1 := ResolvePhase(w, key, issue, t, p);
    ResolvePhaseQuiet(w, key, n, p);
    UnmovedLabels(s1.w.remote, n);
    MovedOnly(r, s1.w.remote, s1.w.remote, key, n);
    if s1.Ok? {
      var s2 := LifecyclePhase(s1.w, key, issue, p);
      LifecyclePhaseQuiet(s1.w, key, n, p);
      MovedOnly(r, s1.w.remote, s2.w.remote, key, n);
      if s2.Ok? { assert Pair(s2.w.remote, key, n); }
    }
  }

  lemma OnlyTransitive(r: Remote, q: Remote, v: Remote, key: Key, n: nat)
    requires ThreadMoved(r, q, key) && Only(q, v, key, n)
    ensures Only(r, v, key, n)
  {
  }

  lemma FinishPendingQuiet(w: World, key: Key, n: nat)
    requires QuietWorld(w) && Pair(w.remote, key, n) && Pending in w.remote.issues[n].labels
    ensures var s := FinishPending(w, key, View(w.remote, n), w.remote.threads[key]);
            && Stays(w, s) && Only(w.remote, s.w.remote, key, n)
            && (s.Ok? ==> Done(s.w.remote, key))
  {
    var r, issue, t := w.remote, View(w.remote, n), w.remote.threads[key];
    var p := ReviewPriority(t.comments);
    var s1 := ReplyPhase(w, key, issue, t, p);
    ReplyPhaseQuiet(w, key, n, p);
    UnmovedLabels(s1.w.remote, n);
    MovedOnly(r, s1.w.remote, s1.w.remote, key, n);
    if s1.Ok? {
      ClosePhaseQuiet(s1.w, key, n, p);
      OnlyTransitive(r, s1.w.remote, ClosePhase(s1.w, key, issue, s1.value.1, p).w.remote, key, n);
    }
  }

  lemma UnmovedOnly(r: Remote, key: Key, n: nat)
    requires Pair(r, key, n)
    ensures Only(r, r, key, n)
  {
  }

  /** A tracked thread with a healthy pair is closed out, or the run was cut; a finished one is left alone. */
  lemma CloseThreadQuiet(w: World, key: Key, tracked: Tracked)
    requires QuietWorld(w) && Pair(w.remote, key, tracked.number)
    requires tracked.url == w.remote.issues[tracked.number].url
    ensures var s := CloseThread(w, key, tracked);
            && Stays(w, s) && Only(w.remote, s.w.remote, key, tracked.number)
            && (s.Ok? ==> Done(s.w.remote, key))
            && (Pending !in w.remote.issues[tracked.number].labels ==> s.w.remote == w.remote)
  {
    hide Quiet, Healthy, FinishPending;
    var r, n := w.remote, tracked.number;
    PairHealthy(r, key, n);
    UnmovedOnly(r, key, n);
    var s1 := ReadIssue(w, key, n);
    QuietReadIssue(w, key, n);
    if s1.Ok? {
      var s2 := ReadThread(s1.w, key);
      QuietReadThread(s1.w, key);
      if s2.Ok? {
        var issue, p := View(r, n), ReviewPriority(s2.value.comments);
        if Pending !in issue.labels {
          GoodIsClosed(issue, p);
          AxisMember(issue.labels, Pending);
          assert OnAxis(issue.labels, LifecycleAxis) == {SourceClosed};
        } else {
          GoodIsPending(issue, p);
          FinishPendingQuiet(s2.w, key, n);
        }
      }
    }
  }
}
