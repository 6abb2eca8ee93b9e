/**
  What every mutation of a sweep is sent for, said in terms of comments, badges and
  labels: on a repository that only the sweep changes, whatever state it is in, a
  mutation is performed only where the source's own conditions for it hold.
*/
module CloseoutConduct {
  import opened Common
  import opened CloseoutModel
  import opened CloseoutRun

  // ---------- Badges ----------

  /** Some comment carries this badge. */
  ghost predicate Carries(cs: seq<Comment>, badge: nat) {
    exists i :: 0 <= i < |cs| && badge in cs[i].badges
  }

  /** The priority named by the least badge any comment carries. */
  ghost predicate LeastBadge(cs: seq<Comment>, p: Priority) {
    match p
    case P0 => Carries(cs, 0)
    case P1 => Carries(cs, 1) && !Carries(cs, 0)
    case P2 => Carries(cs, 2) && !Carries(cs, 0) && !Carries(cs, 1)
    case P3 => Carries(cs, 3) && !Carries(cs, 0) && !Carries(cs, 1) && !Carries(cs, 2)
    case Unclassified => !Carries(cs, 0) && !Carries(cs, 1) && !Carries(cs, 2) && !Carries(cs, 3)
  }

  lemma {:induction false} BadgesCarried(cs: seq<Comment>, badge: nat)
    ensures badge in Badges(cs) <==> Carries(cs, badge)
  {
    if cs != [] {
      var n := |cs| - 1;
      BadgesCarried(cs[..n], badge);
      assert badge in cs[n].badges ==> Carries(cs, badge);
      if Carries(cs[..n], badge) {
        var i :| 0 <= i < n && badge in cs[..n][i].badges;
        assert badge in cs[i].badges;
      }
      if i :| 0 <= i < |cs| && badge in cs[i].badges && i < n { assert badge in cs[..n][i].badges; }
    }
  }

  /** The least of some badges, or 4 when none is below 4. */
  lemma {:induction false} MostIsLeast(badges: seq<nat>)
    ensures Most(badges) <= 4 && (Most(badges) < 4 ==> Most(badges) in badges)
    ensures forall b :: b in badges ==> Most(badges) <= b
  {
    if badges != [] {
      MostIsLeast(badges[1..]);
      assert badges == [badges[0]] + badges[1..];
    }
  }

  /** The priority is Pk exactly when some comment carries badge k and none a smaller one. */
  lemma PriorityIsLeast(cs: seq<Comment>, p: Priority)
    ensures LeastBadge(cs, p) <==> p == ReviewPriority(cs)
  {
    var m := Most(Badges(cs));
    MostIsLeast(Badges(cs));
    BadgesCarried(cs, 0);
    BadgesCarried(cs, 1);
    BadgesCarried(cs, 2);
    BadgesCarried(cs, 3);
    assert m == 0 || m == 1 || m == 2 || m == 3 || m == 4;
  }

  // ---------- Links ----------

  ghost predicate NoLink(cs: seq<Comment>) { forall i :: 0 <= i < |cs| && cs[i].byOwner ==> cs[i].links == [] }

  /** One comment of the owner's has this one link, and no other comment of theirs has any. */
  ghost predicate OneLink(cs: seq<Comment>, link: Link) {
    exists i :: LinkAt(cs, i, link)
  }

  ghost predicate LinkAt(cs: seq<Comment>, i: int, link: Link) {
    0 <= i < |cs| && cs[i].byOwner && cs[i].links == [link]
    && forall j :: 0 <= j < |cs| && j != i && cs[j].byOwner ==> cs[j].links == []
  }

  lemma {:induction false} NoLinkMeans(cs: seq<Comment>)
    ensures ReplyLinks(cs) == [] <==> NoLink(cs)
  {
    if cs != [] {
      var n := |cs| - 1;
      NoLinkMeans(cs[..n]);
      assert cs == cs[..n] + [cs[n]];
    }
  }

  lemma {:induction false} OneLinkMeans(cs: seq<Comment>, link: Link)
    ensures ReplyLinks(cs) == [link] <==> OneLink(cs, link)
  {
    if cs != [] {
      var n := |cs| - 1;
      var own := if cs[n].byOwner then cs[n].links else [];
      OneLinkMeans(cs[..n], link);
      NoLinkMeans(cs[..n]);
      if own == [] {
        OneLinkSkips(cs, link);
      } else {
        OneLinkLast(cs, link);
      }
    }
  }

  lemma OneLinkSkips(cs: seq<Comment>, link: Link)
    requires cs != [] && (cs[|cs| - 1].byOwner ==> cs[|cs| - 1].links == [])
    ensures OneLink(cs, link) <==> OneLink(cs[..|cs| - 1], link)
  {
    var less := cs[..|cs| - 1];
    if i :| LinkAt(cs, i, link) { assert LinkAt(less, i, link); }
    if i :| LinkAt(less, i, link) { assert LinkAt(cs, i, link); }
  }

  lemma OneLinkLast(cs: seq<Comment>, link: Link)
    requires cs != [] && cs[|cs| - 1].byOwner && cs[|cs| - 1].links != []
    ensures OneLink(cs, link) <==> cs[|cs| - 1].links == [link] && NoLink(cs[..|cs| - 1])
  {
    var n := |cs| - 1;
    if i :| LinkAt(cs, i, link) { assert i == n; }
    if cs[n].links == [link] && NoLink(cs[..n]) {
      assert forall j :: 0 <= j < n ==> cs[j] == cs[..n][j];
      assert LinkAt(cs, n, link);
    }
  }

  // ---------- Labels ----------

  /** The labels of a bug from a review, of this priority, apart from its lifecycle. */
  ghost predicate BugLabels(labels: set<Label>, p: Priority) {
    && Bug in labels && SourceReview in labels && (forall s :: OtherSource(s) !in labels)
    && PriorityLabel(p) in labels && (forall q :: PriorityLabel(q) in labels ==> q == p) && (forall s :: OtherPriority(s) !in labels)
    && OneBugClass(labels)
    && (UnclassifiedBug in labels ==> NeedsTriage in labels)
  }

  ghost predicate OneBugClass(labels: set<Label>) {
    || (UnclassifiedBug in labels && forall s :: OtherBugClass(s) !in labels)
    || (UnclassifiedBug !in labels && exists s :: OtherBugClass(s) in labels && forall t :: OtherBugClass(t) in labels ==> t == s)
  }

  /** Pending, with or without source-closed, and no other lifecycle. */
  ghost predicate PendingLabels(labels: set<Label>, p: Priority) {
    BugLabels(labels, p) && Pending in labels && forall s :: OtherLifecycle(s) !in labels
  }

  /** Source-closed and no other lifecycle. */
  ghost predicate TerminalLabels(labels: set<Label>, p: Priority) {
    BugLabels(labels, p) && SourceClosed in labels && Pending !in labels && forall s :: OtherLifecycle(s) !in labels
  }

  lemma One<T>(s: set<T>, x: T)
    requires x in s
    ensures |s| == 1 <==> forall y :: y in s ==> y == x
  {
    if forall y :: y in s ==> y == x { assert s == {x}; }
    if |s| == 1 { assert |s - {x}| == 0; }
  }

  lemma AxisOne(labels: set<Label>, a: Axis, x: Label)
    requires x in labels && AxisOf(x) == a
    ensures |OnAxis(labels, a)| == 1 <==> forall l :: l in labels && AxisOf(l) == a ==> l == x
  {
    assert forall l :: l in OnAxis(labels, a) <==> l in labels && AxisOf(l) == a;
    One(OnAxis(labels, a), x);
  }

  lemma AxisNone(labels: set<Label>, a: Axis)
    ensures |OnAxis(labels, a)| >= 1 <==> exists l :: l in labels && AxisOf(l) == a
  {
    if l :| l in labels && AxisOf(l) == a { assert l in OnAxis(labels, a); }
    if |OnAxis(labels, a)| >= 1 {
      var l :| l in OnAxis(labels, a);
    }
  }

  lemma BugClassMeans(labels: set<Label>)
    ensures |OnAxis(labels, BugClassAxis)| == 1 <==> OneBugClass(labels)
  {
    if UnclassifiedBug in labels {
      AxisOne(labels, BugClassAxis, UnclassifiedBug);
      assert forall s :: AxisOf(OtherBugClass(s)) == BugClassAxis;
    } else if s :| OtherBugClass(s) in labels {
      AxisOne(labels, BugClassAxis, OtherBugClass(s));
      assert forall t :: AxisOf(OtherBugClass(t)) == BugClassAxis;
    } else {
      AxisNone(labels, BugClassAxis);
    }
  }

  lemma PriorityMeans(labels: set<Label>, p: Priority)
    requires PriorityLabel(p) in labels
    ensures |OnAxis(labels, PriorityAxis)| == 1
      <==> (forall q :: PriorityLabel(q) in labels ==> q == p) && (forall s :: OtherPriority(s) !in labels)
  {
    AxisOne(labels, PriorityAxis, PriorityLabel(p));
    assert forall q :: AxisOf(PriorityLabel(q)) == PriorityAxis;
    assert forall s :: AxisOf(OtherPriority(s)) == PriorityAxis;
  }

  lemma SourceMeans(labels: set<Label>)
    requires SourceReview in labels
    ensures |OnAxis(labels, SourceAxis)| == 1 <==> forall s :: OtherSource(s) !in labels
  {
    AxisOne(labels, SourceAxis, SourceReview);
    assert forall s :: AxisOf(OtherSource(s)) == SourceAxis;
  }

  /** The other axes do not see the lifecycle labels. */
  lemma AxisApart(labels: set<Label>, lifecycle: Label, a: Axis)
    requires AxisOf(lifecycle) == LifecycleAxis && a != LifecycleAxis
    ensures OnAxis(labels - {SourceClosed} + {lifecycle}, a) == OnAxis(labels, a)
  {
  }

  lemma LifecycleMeans(labels: set<Label>, lifecycle: Label)
    requires lifecycle == Pending || lifecycle == SourceClosed
    requires lifecycle in labels
    ensures OnAxis(labels, LifecycleAxis) == {lifecycle} + (if SourceClosed in labels then {SourceClosed} else {})
      <==> (lifecycle == SourceClosed ==> Pending !in labels) && forall s :: OtherLifecycle(s) !in labels
  {
    assert forall s :: AxisOf(OtherLifecycle(s)) == LifecycleAxis;
    var expected := {lifecycle} + if SourceClosed in labels then {SourceClosed} else {};
    if (lifecycle == SourceClosed ==> Pending !in labels) && forall s :: OtherLifecycle(s) !in labels {
      assert OnAxis(labels, LifecycleAxis) == expected;
    }
    if OnAxis(labels, LifecycleAxis) == expected {
      forall s ensures OtherLifecycle(s) !in labels { assert OtherLifecycle(s) !in expected; }
      assert Pending in labels ==> Pending in OnAxis(labels, LifecycleAxis);
    }
  }

  lemma NormalizedLifecycle(labels: set<Label>, lifecycle: Label)
    requires lifecycle == Pending || lifecycle == SourceClosed
    requires OnAxis(labels, LifecycleAxis) == {lifecycle} + (if SourceClosed in labels then {SourceClosed} else {})
    ensures |OnAxis(labels - {SourceClosed} + {lifecycle}, LifecycleAxis)| == 1
  {
    var norm := labels - {SourceClosed} + {lifecycle};
    forall l | l in norm && AxisOf(l) == LifecycleAxis ensures l == lifecycle {
      if l in labels { assert l in OnAxis(labels, LifecycleAxis); }
    }
    AxisOne(norm, LifecycleAxis, lifecycle);
  }

  /** _validate_issue on a given priority, label by label. */
  lemma ValidMeans(t: Tracked, lifecycle: Label, p: Priority)
    requires lifecycle == Pending || lifecycle == SourceClosed
    ensures ValidIssue(t, lifecycle, Some(p)) <==>
      t.open && if lifecycle == Pending then PendingLabels(t.labels, p) else TerminalLabels(t.labels, p)
  {
    hide OnAxis, OneBugClass;
    var norm := t.labels - {SourceClosed} + {lifecycle};
    AxisApart(t.labels, lifecycle, PriorityAxis);
    AxisApart(t.labels, lifecycle, BugClassAxis);
    AxisApart(t.labels, lifecycle, SourceAxis);
    BugClassMeans(t.labels);
    if PriorityLabel(p) in t.labels { PriorityMeans(t.labels, p); }
    if SourceReview in t.labels { SourceMeans(t.labels); }
    if lifecycle in t.labels {
      LifecycleMeans(t.labels, lifecycle);
      if OnAxis(t.labels, LifecycleAxis) == {lifecycle} + (if SourceClosed in t.labels then {SourceClosed} else {}) {
        NormalizedLifecycle(t.labels, lifecycle);
      }
    }
  }

  /** Exactly one label of the priority axis, of whatever kind. */
  ghost predicate OnePriority(labels: set<Label>) {
    exists l :: l in labels && OfPriority(l) && forall m :: m in labels && OfPriority(m) ==> m == l
  }

  predicate OfPriority(l: Label) { l.PriorityLabel? || l.OtherPriority? }

  lemma OnePriorityMeans(labels: set<Label>)
    ensures |OnAxis(labels, PriorityAxis)| == 1 <==> OnePriority(labels)
  {
    assert forall l :: OfPriority(l) <==> AxisOf(l) == PriorityAxis;
    AxisNone(labels, PriorityAxis);
    if l :| l in labels && OfPriority(l) { AxisOne(labels, PriorityAxis, l); }
  }

  /** The labels of a pending bug whose thread's priority is not asked for. */
  ghost predicate RecoverableLabels(labels: set<Label>) {
    && {Bug, SourceReview, Pending} <= labels && (forall s :: OtherSource(s) !in labels)
    && OnePriority(labels) && OneBugClass(labels) && (UnclassifiedBug in labels ==> NeedsTriage in labels)
    && (forall s :: OtherLifecycle(s) !in labels)
  }

  lemma ValidAnyMeans(t: Tracked)
    ensures ValidIssue(t, Pending, None) <==> t.open && RecoverableLabels(t.labels)
  {
    hide OnAxis, OneBugClass, OnePriority;
    AxisApart(t.labels, Pending, PriorityAxis);
    AxisApart(t.labels, Pending, BugClassAxis);
    AxisApart(t.labels, Pending, SourceAxis);
    BugClassMeans(t.labels);
    OnePriorityMeans(t.labels);
    if SourceReview in t.labels { SourceMeans(t.labels); }
    if Pending in t.labels {
      LifecycleMeans(t.labels, Pending);
      if OnAxis(t.labels, LifecycleAxis) == {Pending} + (if SourceClosed in t.labels then {SourceClosed} else {}) {
        NormalizedLifecycle(t.labels, Pending);
      }
    }
  }

  // ---------- What each mutation is sent for ----------

  /** The repository changes only by the sweep, which may be cut at any call. */
  ghost predicate Still(plan: Plan) { forall i, r :: plan.env(i, r) == r }

  predicate Open(t: Thread) { !t.resolved && !t.outdated }

  /** Enough pull requests are merged, or the thread carries one of the two urgent badges. */
  ghost predicate Pressing(r: Remote, key: Key, minimum: nat) {
    key in r.threads && (r.merged >= minimum || Carries(r.threads[key].comments, 0) || Carries(r.threads[key].comments, 1))
  }

  /** An open issue of the owner's that is this thread's alone and labelled as its pending bug. */
  ghost predicate PendingBug(r: Remote, key: Key, n: nat) {
    && key in r.threads && n in r.issues
    && r.issues[n].byOwner && !r.issues[n].foreign && r.issues[n].markers != [] && (forall m :: m in r.issues[n].markers ==> m == key)
    && r.issues[n].open
    && (exists p :: LeastBadge(r.threads[key].comments, p) && PendingLabels(r.issues[n].labels, p))
  }

  /** The thread carries the one link to its issue, or is outdated and carries none. */
  ghost predicate Linked(r: Remote, key: Key, n: nat) {
    && key in r.threads && n in r.issues
    && (OneLink(r.threads[key].comments, Link(n, r.issues[n].url)) || (r.threads[key].outdated && NoLink(r.threads[key].comments)))
  }

  ghost predicate Proper(r: Remote, m: Mutation, minimum: nat) {
    match m
    case CreateIssue(key, p) =>
      && key in r.threads && Open(r.threads[key]) && Pressing(r, key, minimum) && LeastBadge(r.threads[key].comments, p)
      && {Bug, PriorityLabel(p), UnclassifiedBug, SourceReview, Pending, NeedsTriage, SourceClosed} <= r.labels
    case ReplyThread(key, link) =>
      && key in r.threads && Open(r.threads[key]) && Pressing(r, key, minimum) && NoLink(r.threads[key].comments)
      && PendingBug(r, key, link.number) && r.issues[link.number].url == link.url
    case ResolveThread(key) =>
      && key in r.threads && Open(r.threads[key]) && Pressing(r, key, minimum)
      && exists n :: PendingBug(r, key, n) && OneLink(r.threads[key].comments, Link(n, r.issues[n].url))
    case AddClosed(n) =>
      exists key :: PendingBug(r, key, n) && !Open(r.threads[key]) && Linked(r, key, n) && SourceClosed !in r.issues[n].labels
    case RemovePending(n) =>
      exists key :: PendingBug(r, key, n) && !Open(r.threads[key]) && Linked(r, key, n) && SourceClosed in r.issues[n].labels
  }

  // ---------- Runs ----------

  /** What a sweep never undoes, and never changes of what its decisions rest on. */
  ghost predicate Later(a: Remote, b: Remote) {
    && a.merged == b.merged && a.labels == b.labels && a.threads.Keys == b.threads.Keys
    && (forall k :: k in a.threads && !Open(a.threads[k]) ==> !Open(b.threads[k]))
    && (forall k, n: nat :: k in a.threads ==> (Carries(a.threads[k].comments, n) <==> Carries(b.threads[k].comments, n)))
  }

  /** v is reached from w by proper mutations. */
  ghost predicate Proceeds(w: World, v: World) {
    && v.plan == w.plan && Later(w.remote, v.remote) && w.sent <= v.sent
    && (forall i :: |w.sent| <= i < |v.sent| ==>
          Later(w.remote, v.sent[i].0) && Proper(v.sent[i].0, v.sent[i].1, w.plan.minimum))
  }

  lemma ProceedsTransitive(a: World, b: World, c: World)
    requires Proceeds(a, b) && Proceeds(b, c)
    ensures Proceeds(a, c)
  {
    hide Proper, Later;
    LaterTransitive(a.remote, b.remote, c.remote);
    forall i | |b.sent| <= i < |c.sent| ensures Later(a.remote, c.sent[i].0) {
      LaterTransitive(a.remote, b.remote, c.sent[i].0);
    }
    assert forall i :: 0 <= i < |b.sent| ==> c.sent[i] == b.sent[i];
  }

  lemma LaterTransitive(a: Remote, b: Remote, c: Remote)
    requires Later(a, b) && Later(b, c)
    ensures Later(a, c)
  {
    hide Carries, Open;
  }

  lemma LaterSelf(r: Remote)
    ensures Later(r, r)
  {
  }

  lemma ProceedsSelf(w: World)
    ensures Proceeds(w, w)
  {
  }

  lemma ReplyCarries(cs: seq<Comment>, link: Link, badge: nat)
    ensures Carries(cs + [Comment([], [link], true)], badge) <==> Carries(cs, badge)
  {
    var more := cs + [Comment([], [link], true)];
    if i :| 0 <= i < |cs| && badge in cs[i].badges { assert badge in more[i].badges; }
  }

  lemma ApplyLater(r: Remote, m: Mutation, url: nat -> string)
    ensures Later(r, Apply(r, m, url))
  {
    if m.ReplyThread? && m.key in r.threads {
      forall n: nat ensures Carries(Apply(r, m, url).threads[m.key].comments, n) <==> Carries(r.threads[m.key].comments, n) {
        ReplyCarries(r.threads[m.key].comments, m.link, n);
      }
    }
  }

  lemma SendProceeds(w: World, m: Mutation)
    requires Still(w.plan) && Proper(w.remote, m, w.plan.minimum)
    ensures Proceeds(w, Send(w, m).w)
    ensures Send(w, m).Ok? ==> Send(w, m).value == w.remote && Send(w, m).w.remote == Apply(w.remote, m, w.plan.url)
  {
    hide Proper, Later, Apply;
    ApplyLater(w.remote, m, w.plan.url);
    LaterSelf(w.remote);
  }

  /** A read changes nothing. */
  ghost predicate Unmoved(w: World, v: World) { v.plan == w.plan && v.remote == w.remote && v.sent == w.sent }

  lemma ObserveStill(w: World)
    requires Still(w.plan)
    ensures Unmoved(w, Observe(w).w) && (Observe(w).Ok? ==> Observe(w).value == w.remote)
  {
  }

  lemma UnmovedProceeds(w: World, v: World, u: World)
    requires Unmoved(w, v) && Proceeds(v, u)
    ensures Proceeds(w, u)
  {
  }

  lemma ProceedsUnmoved(w: World, v: World, u: World)
    requires Proceeds(w, v) && Unmoved(v, u)
    ensures Proceeds(w, u)
  {
  }

  /** The issue as a readback of it shows it. */
  ghost predicate Shows(r: Remote, key: Key, t: Tracked) {
    && t.number in r.issues && Owned(r.issues[t.number], key)
    && t == Tracked(t.number, r.issues[t.number].url, r.issues[t.number].open, r.issues[t.number].labels)
  }

  lemma ReadIssueStill(w: World, key: Key, n: nat)
    requires Still(w.plan)
    ensures var s := ReadIssue(w, key, n); Unmoved(w, s.w) && (s.Ok? ==> s.value.number == n && Shows(w.remote, key, s.value))
  {
    ObserveStill(w);
  }

  lemma ReadThreadStill(w: World, key: Key)
    requires Still(w.plan)
    ensures var s := ReadThread(w, key);
      Unmoved(w, s.w) && (s.Ok? ==> key in w.remote.threads && s.value == w.remote.threads[key])
  {
    ObserveStill(w);
  }

  lemma ReadPendingStill(w: World, key: Key, expected: Tracked, p: Priority)
    requires Still(w.plan) && key in w.remote.threads && p == ReviewPriority(w.remote.threads[key].comments)
    ensures var s := ReadPending(w, key, expected, p);
      Unmoved(w, s.w)
      && (s.Ok? ==> s.value.number == expected.number && s.value.url == expected.url && Shows(w.remote, key, s.value)
                    && PendingBug(w.remote, key, s.value.number))
  {
    hide ValidIssue, PendingLabels, LeastBadge;
    ReadIssueStill(w, key, expected.number);
    var s := ReadIssue(w, key, expected.number);
    if s.Ok? {
      ValidMeans(s.value, Pending, p);
      PriorityIsLeast(w.remote.threads[key].comments, p);
    }
  }

  // ---------- One thread ----------

  /** The thread as last read, and the issue under its number and URL. */
  ghost predicate Holding(w: World, key: Key, issue: Tracked, t: Thread, p: Priority) {
    && key in w.remote.threads && t == w.remote.threads[key] && p == ReviewPriority(t.comments)
    && issue.number in w.remote.issues && issue.url == w.remote.issues[issue.number].url
    && (Open(t) ==> Pressing(w.remote, key, w.plan.minimum))
  }

  lemma ReplyPhaseProceeds(w: World, key: Key, issue: Tracked, t: Thread, p: Priority)
    requires Still(w.plan) && Holding(w, key, issue, t, p)
    ensures var s := ReplyPhase(w, key, issue, t, p);
      Proceeds(w, s.w) && (s.Ok? ==> Holding(s.w, key, s.value.0, s.value.1, p))
  {
    hide PendingBug, Later, LeastBadge, ReviewPriority, Still;
    ProceedsSelf(w);
    if Open(t) && ReplyLinks(t.comments) == [] {
      NoLinkMeans(t.comments);
      ReadPendingStill(w, key, issue, p);
      var s1 := ReadPending(w, key, issue, p);
      UnmovedProceeds(w, s1.w, s1.w) by { ProceedsSelf(s1.w); }
      if s1.Ok? {
        var link := Link(s1.value.number, s1.value.url);
        SendReply(s1.w, key, link);
        var s2 := Send(s1.w, ReplyThread(key, link));
        UnmovedProceeds(w, s1.w, s2.w);
        if s2.Ok? {
          ReadThreadStill(s2.w, key);
          var s3 := ReadThread(s2.w, key);
          ProceedsUnmoved(w, s2.w, s3.w);
        }
      }
    }
  }

  lemma PrioritySame(a: seq<Comment>, b: seq<Comment>)
    requires forall n: nat :: Carries(a, n) <==> Carries(b, n)
    ensures ReviewPriority(a) == ReviewPriority(b)
  {
    PriorityIsLeast(a, ReviewPriority(a));
    PriorityIsLeast(b, ReviewPriority(a));
  }

  lemma SendReply(w: World, key: Key, link: Link)
    requires Still(w.plan) && Proper(w.remote, ReplyThread(key, link), w.plan.minimum)
    ensures Proceeds(w, Send(w, ReplyThread(key, link)).w)
    ensures var s := Send(w, ReplyThread(key, link));
      s.Ok? ==> s.w.remote.issues == w.remote.issues && key in s.w.remote.threads && Pressing(s.w.remote, key, w.plan.minimum)
                && ReviewPriority(s.w.remote.threads[key].comments) == ReviewPriority(w.remote.threads[key].comments)
  {
    hide ReviewPriority;
    SendProceeds(w, ReplyThread(key, link));
    var s := Send(w, ReplyThread(key, link));
    if s.Ok? { PrioritySame(s.w.remote.threads[key].comments, w.remote.threads[key].comments); }
  }

  lemma LinkOkMeans(r: Remote, key: Key, issue: Tracked)
    requires key in r.threads && issue.number in r.issues && issue.url == r.issues[issue.number].url
    ensures LinkOk(r.threads[key], issue) <==> Linked(r, key, issue.number)
  {
    NoLinkMeans(r.threads[key].comments);
    OneLinkMeans(r.threads[key].comments, Link(issue.number, issue.url));
  }

  lemma ResolvePhaseProceeds(w: World, key: Key, issue: Tracked, t: Thread, p: Priority)
    requires Still(w.plan) && Holding(w, key, issue, t, p) && LinkOk(t, issue)
    ensures var s := ResolvePhase(w, key, issue, t, p);
      Proceeds(w, s.w) && (s.Ok? ==> Holding(s.w, key, s.value.0, s.value.1, p) && LinkOk(s.value.1, s.value.0))
  {
    hide PendingBug, Later, LeastBadge, ReviewPriority, Still, Carries;
    ProceedsSelf(w);
    if Open(t) {
      OneLinkMeans(t.comments, Link(issue.number, issue.url));
      ReadPendingStill(w, key, issue, p);
      var s1 := ReadPending(w, key, issue, p);
      UnmovedProceeds(w, s1.w, s1.w) by { ProceedsSelf(s1.w); }
      if s1.Ok? {
        SendResolve(s1.w, key, s1.value.number);
        var s2 := Send(s1.w, ResolveThread(key));
        UnmovedProceeds(w, s1.w, s2.w);
        if s2.Ok? {
          ReadThreadStill(s2.w, key);
          var s3 := ReadThread(s2.w, key);
          ProceedsUnmoved(w, s2.w, s3.w);
        }
      }
    }
  }

  lemma SendResolve(w: World, key: Key, n: nat)
    requires Still(w.plan) && key in w.remote.threads && Open(w.remote.threads[key]) && Pressing(w.remote, key, w.plan.minimum)
    requires PendingBug(w.remote, key, n) && OneLink(w.remote.threads[key].comments, Link(n, w.remote.issues[n].url))
    ensures var s := Send(w, ResolveThread(key));
      Proceeds(w, s.w)
      && (s.Ok? ==> s.w.remote.issues == w.remote.issues && key in s.w.remote.threads && !Open(s.w.remote.threads[key])
                    && s.w.remote.threads[key].comments == w.remote.threads[key].comments)
  {
    SendProceeds(w, ResolveThread(key));
  }

  lemma SendAdd(w: World, key: Key, n: nat)
    requires Still(w.plan) && PendingBug(w.remote, key, n) && !Open(w.remote.threads[key]) && Linked(w.remote, key, n)
    requires SourceClosed !in w.remote.issues[n].labels
    ensures var s := Send(w, AddClosed(n));
      Proceeds(w, s.w)
      && (s.Ok? ==> s.w.remote.threads == w.remote.threads && n in s.w.remote.issues && s.w.remote.issues[n].url == w.remote.issues[n].url)
  {
    SendProceeds(w, AddClosed(n));
  }

  lemma SendRemove(w: World, key: Key, n: nat)
    requires Still(w.plan) && PendingBug(w.remote, key, n) && !Open(w.remote.threads[key]) && Linked(w.remote, key, n)
    requires SourceClosed in w.remote.issues[n].labels
    ensures Proceeds(w, Send(w, RemovePending(n)).w)
  {
    SendProceeds(w, RemovePending(n));
  }

  /** A thread seen closed, with its link in place. */
  ghost predicate Settling(w: World, key: Key, n: nat, url: string, p: Priority) {
    && key in w.remote.threads && !Open(w.remote.threads[key]) && p == ReviewPriority(w.remote.threads[key].comments)
    && n in w.remote.issues && w.remote.issues[n].url == url && Linked(w.remote, key, n)
  }

  lemma RetirePhaseProceeds(w: World, key: Key, issue: Tracked, p: Priority)
    requires Still(w.plan) && Settling(w, key, issue.number, issue.url, p)
    ensures Proceeds(w, RetirePhase(w, key, issue, p).w)
  {
    hide Later, LeastBadge, ReviewPriority, Still, Carries, ValidIssue, PendingLabels, Linked;
    ProceedsSelf(w);
    ReadIssueStill(w, key, issue.number);
    var s1 := ReadIssue(w, key, issue.number);
    UnmovedProceeds(w, s1.w, s1.w) by { ProceedsSelf(s1.w); }
    if s1.Ok? && ValidIssue(s1.value, Pending, Some(p)) && SourceClosed in s1.value.labels {
      ValidMeans(s1.value, Pending, p);
      PriorityIsLeast(w.remote.threads[key].comments, p);
      SendRemove(s1.w, key, issue.number);
      var s2 := Send(s1.w, RemovePending(s1.value.number));
      UnmovedProceeds(w, s1.w, s2.w);
      if s2.Ok? {
        ReadIssueStill(s2.w, key, issue.number);
        ProceedsUnmoved(w, s2.w, ReadIssue(s2.w, key, issue.number).w);
      }
    }
  }

  lemma LifecyclePhaseProceeds(w: World, key: Key, issue: Tracked, p: Priority)
    requires Still(w.plan) && Settling(w, key, issue.number, issue.url, p)
    ensures Proceeds(w, LifecyclePhase(w, key, issue, p).w)
  {
    hide Later, LeastBadge, ReviewPriority, Still, Carries, PendingBug, OneLink, NoLink;
    ProceedsSelf(w);
    ReadPendingStill(w, key, issue, p);
    var s1 := ReadPending(w, key, issue, p);
    UnmovedProceeds(w, s1.w, s1.w) by { ProceedsSelf(s1.w); }
    if s1.Ok? {
      var s2 := LabelPhase(s1.w, s1.value);
      if SourceClosed !in s1.value.labels { SendAdd(s1.w, key, s1.value.number); } else { ProceedsSelf(s1.w); }
      UnmovedProceeds(w, s1.w, s2.w);
      if s2.Ok? {
        RetirePhaseProceeds(s2.w, key, s1.value, p);
        ProceedsTransitive(w, s2.w, RetirePhase(s2.w, key, s1.value, p).w);
      }
    }
  }

  lemma FinishPendingProceeds(w: World, key: Key, issue: Tracked, t: Thread)
    requires Still(w.plan) && Holding(w, key, issue, t, ReviewPriority(t.comments))
    ensures Proceeds(w, FinishPending(w, key, issue, t).w)
  {
    hide Later, LeastBadge, ReviewPriority, Still, Carries, Linked, LinkOk, ReplyPhase, ResolvePhase, LifecyclePhase, Proceeds;
    var p := ReviewPriority(t.comments);
    ReplyPhaseProceeds(w, key, issue, t, p);
    var s1 := ReplyPhase(w, key, issue, t, p);
    SamePlan(w, s1.w);
    if s1.Ok? && LinkOk(s1.value.1, s1.value.0) {
      ResolvePhaseProceeds(s1.w, key, s1.value.0, s1.value.1, p);
      var s2 := ResolvePhase(s1.w, key, s1.value.0, s1.value.1, p);
      ProceedsTransitive(w, s1.w, s2.w);
      if s2.Ok? && s2.value.1.Closed() {
        LinkOkMeans(s2.w.remote, key, s2.value.0);
        SamePlan(s1.w, s2.w);
        LifecyclePhaseProceeds(s2.w, key, s2.value.0, p);
        ProceedsTransitive(w, s2.w, LifecyclePhase(s2.w, key, s2.value.0, p).w);
      }
    }
  }

  lemma SamePlan(w: World, v: World)
    requires Proceeds(w, v)
    ensures v.plan == w.plan && Later(w.remote, v.remote)
  {
  }

  lemma CloseThreadProceeds(w: World, key: Key, tracked: Tracked)
    requires Still(w.plan) && (key in w.remote.threads && Open(w.remote.threads[key]) ==> Pressing(w.remote, key, w.plan.minimum))
    ensures Proceeds(w, CloseThread(w, key, tracked).w)
  {
    hide Later, ReviewPriority, Still, Carries, FinishPending, Proceeds, ValidIssue, Pressing, LinkOk;
    ReadIssueStill(w, key, tracked.number);
    var s1 := ReadIssue(w, key, tracked.number);
    UnmovedProceeds(w, s1.w, s1.w) by { ProceedsSelf(s1.w); }
    if s1.Ok? {
      ReadThreadStill(s1.w, key);
      var s2 := ReadThread(s1.w, key);
      UnmovedProceeds(s1.w, s2.w, s2.w) by { ProceedsSelf(s2.w); }
      UnmovedProceeds(w, s1.w, s2.w);
      if s2.Ok? {
        FinishPendingProceeds(s2.w, key, s1.value, s2.value);
        ProceedsTransitive(w, s2.w, FinishPending(s2.w, key, s1.value, s2.value).w);
      }
    }
  }

  // ---------- All the work ----------

  /** Of the threads worked on, the open ones press. */
  ghost predicate Worked(r: Remote, work: seq<Key>, minimum: nat) {
    forall k :: k in work && k in r.threads && Open(r.threads[k]) ==> Pressing(r, k, minimum)
  }

  lemma WorkedLater(a: Remote, b: Remote, work: seq<Key>, minimum: nat)
    requires Later(a, b) && Worked(a, work, minimum)
    ensures Worked(b, work, minimum)
  {
  }

  lemma {:induction false} CloseAllProceeds(w: World, work: seq<Key>, found: map<Key, Tracked>)
    requires Still(w.plan) && Worked(w.remote, work, w.plan.minimum)
    ensures Proceeds(w, CloseAll(w, work, found).w)
    decreases |work|
  {
    hide Later, Still, CloseThread, Proceeds, Pressing;
    ProceedsSelf(w);
    if work != [] && work[0] in found {
      assert work[0] in work;
      CloseThreadProceeds(w, work[0], found[work[0]]);
      var s := CloseThread(w, work[0], found[work[0]]);
      SamePlan(w, s.w);
      if s.Ok? {
        WorkedLater(w.remote, s.w.remote, work, w.plan.minimum);
        CloseAllProceeds(s.w, work[1..], found);
        ProceedsTransitive(w, s.w, CloseAll(s.w, work[1..], found).w);
      }
    }
  }

  lemma SendCreate(w: World, key: Key, p: Priority)
    requires Still(w.plan) && Proper(w.remote, CreateIssue(key, p), w.plan.minimum)
    ensures Proceeds(w, Send(w, CreateIssue(key, p)).w) && Send(w, CreateIssue(key, p)).w.remote.threads == w.remote.threads
  {
    hide Proper, Later;
    SendProceeds(w, CreateIssue(key, p));
  }

  lemma CreateOneProceeds(w: World, key: Key, p: Priority)
    requires Still(w.plan) && Proper(w.remote, CreateIssue(key, p), w.plan.minimum)
    ensures var s := CreateOne(w, key, p);
      Proceeds(w, s.w) && s.w.remote.threads == w.remote.threads
  {
    hide Later, Proper, Still, ValidIssue, Owned;
    SendCreate(w, key, p);
    var s1 := Send(w, CreateIssue(key, p));
    if s1.Ok? {
      ReadIssueStill(s1.w, key, s1.value.next);
      ProceedsUnmoved(w, s1.w, ReadIssue(s1.w, key, s1.value.next).w);
    }
  }

  /** Each of these threads may have an issue created with the priority seen in the scan. */
  ghost predicate Creatable(r: Remote, scan: Remote, eligible: seq<Key>, minimum: nat) {
    forall k :: k in eligible ==> Proper(r, CreateIssue(k, PriorityOf(scan, k)), minimum)
  }

  lemma CreatableLater(a: Remote, b: Remote, scan: Remote, eligible: seq<Key>, minimum: nat)
    requires Creatable(a, scan, eligible, minimum) && Later(a, b) && a.threads == b.threads
    ensures Creatable(b, scan, eligible, minimum)
  {
    forall k | k in eligible ensures Proper(b, CreateIssue(k, PriorityOf(scan, k)), minimum) {
      assert Proper(a, CreateIssue(k, PriorityOf(scan, k)), minimum);
    }
  }

  lemma {:induction false} CreateAllProceeds(w: World, scan: Remote, work: seq<Key>, eligible: seq<Key>, made: Made)
    requires Still(w.plan) && Creatable(w.remote, scan, eligible, w.plan.minimum)
    ensures var s := CreateAll(w, scan, work, eligible, made);
      Proceeds(w, s.w) && s.w.remote.threads == w.remote.threads
    decreases |work|
  {
    hide Later, Proper, Still, CreateOne, Proceeds, PriorityOf;
    ProceedsSelf(w);
    if work != [] {
      if work[0] !in eligible || work[0] in made.found {
        CreateAllProceeds(w, scan, work[1..], eligible, made);
      } else {
        var p := PriorityOf(scan, work[0]);
        CreateOneProceeds(w, work[0], p);
        var s := CreateOne(w, work[0], p);
        SamePlan(w, s.w);
        if s.Ok? {
          CreatableLater(w.remote, s.w.remote, scan, eligible, w.plan.minimum);
          var more := Made(made.found[work[0] := s.value], made.numbers + [s.value.number]);
          CreateAllProceeds(s.w, scan, work[1..], eligible, more);
          ProceedsTransitive(w, s.w, CreateAll(s.w, scan, work[1..], eligible, more).w);
        }
      }
    }
  }

  // ---------- Picking the work ----------

  lemma {:induction false} UrgentMeans(r: Remote, keys: seq<Key>, k: Key)
    requires forall x :: x in keys ==> x in r.threads
    ensures k in CloseoutRun.Urgent(r, keys) <==>
      k in keys && (Carries(r.threads[k].comments, 0) || Carries(r.threads[k].comments, 1))
  {
    hide ReviewPriority, Carries;
    if keys != [] {
      UrgentMeans(r, keys[1..], k);
      var p := PriorityOf(r, keys[0]);
      PriorityIsLeast(r.threads[keys[0]].comments, p);
      PriorityIsLeast(r.threads[keys[0]].comments, P0);
      PriorityIsLeast(r.threads[keys[0]].comments, P1);
    }
  }

  /** Below the threshold exactly the threads that carry badge 0 or 1 are eligible. */
  lemma EligibleMeans(r: Remote, current: seq<Key>, minimum: nat, k: Key)
    requires forall x :: x in current ==> x in r.threads
    ensures k in Eligible(r, current, minimum) <==> k in current && Pressing(r, k, minimum)
  {
    UrgentMeans(r, current, k);
  }

  lemma {:induction false} RecoveryMeans(found: map<Key, Tracked>, keys: seq<Key>, current: seq<Key>, k: Key)
    ensures k in Recovery(found, keys, current) <==> k in keys && k in found && Pending in found[k].labels && k !in current
  {
    if keys != [] { RecoveryMeans(found, keys[1..], current, k); }
  }

  /** The open threads of the scan, each once or more. */
  ghost predicate IsCurrent(r: Remote, current: seq<Key>) {
    forall k :: k in current <==> k in r.threads && Open(r.threads[k])
  }

  lemma WorkIsWorked(r: Remote, current: seq<Key>, listing: Listing, minimum: nat)
    requires IsCurrent(r, current)
    ensures Worked(r, Recovery(listing.found, listing.keys, current) + Eligible(r, current, minimum), minimum)
  {
    hide Open, Pressing, Recovery, Eligible;
    var recovery, eligible := Recovery(listing.found, listing.keys, current), Eligible(r, current, minimum);
    forall k | k in recovery + eligible && k in r.threads && Open(r.threads[k]) ensures Pressing(r, k, minimum) {
      RecoveryMeans(listing.found, listing.keys, current, k);
      EligibleMeans(r, current, minimum, k);
    }
  }

  lemma DeclaredCreatable(r: Remote, current: seq<Key>, recovery: seq<Key>, minimum: nat)
    requires IsCurrent(r, current) && RequiredLabels(r, recovery, Eligible(r, current, minimum)) <= r.labels
    ensures Creatable(r, r, Eligible(r, current, minimum), minimum)
  {
    hide ReviewPriority, LeastBadge, Eligible, Pressing;
    var eligible := Eligible(r, current, minimum);
    RequiredMeans(r, recovery, eligible, r.labels);
    forall k | k in eligible ensures Proper(r, CreateIssue(k, PriorityOf(r, k)), minimum) {
      EligibleMeans(r, current, minimum, k);
      PriorityIsLeast(r.threads[k].comments, PriorityOf(r, k));
    }
  }

  /** The labels the repository has to declare for these threads, one by one. */
  lemma RequiredMeans(r: Remote, recovery: seq<Key>, eligible: seq<Key>, labels: set<Label>)
    ensures RequiredLabels(r, recovery, eligible) <= labels <==>
      && SourceClosed in labels
      && (recovery != [] ==> {Bug, PriorityLabel(Unclassified), UnclassifiedBug, SourceReview, Pending, NeedsTriage} <= labels)
      && (forall k :: k in eligible ==> {Bug, PriorityLabel(PriorityOf(r, k)), UnclassifiedBug, SourceReview, Pending, NeedsTriage} <= labels)
  {
    hide PriorityOf;
    var required := RequiredLabels(r, recovery, eligible);
    if required <= labels {
      assert SourceClosed in required;
      if recovery != [] {
        assert recovery[0] in recovery;
        forall l | l in PayloadLabels(Unclassified) ensures l in labels { assert l in required; }
      }
      forall k | k in eligible ensures PayloadLabels(PriorityOf(r, k)) <= labels {
        forall l | l in PayloadLabels(PriorityOf(r, k)) ensures l in labels { assert l in required; }
      }
    }
  }

  // ---------- Before the first mutation ----------

  /** An issue of the owner's that is this thread's alone. */
  ghost predicate Tracks(i: Issue, key: Key) {
    i.byOwner && !i.foreign && i.markers != [] && forall m :: m in i.markers ==> m == key
  }

  /** What discovery must find of the tracking issues before anything is sent. */
  ghost predicate Preflight(r: Remote, plan: Plan) {
    && plan.asOwner && SourceClosed in r.labels
    && (forall k, n :: k in r.threads && Open(r.threads[k]) && n in r.issues && Tracks(r.issues[n], k) ==>
          r.issues[n].open && SourceClosed !in plan.shown(n, r.issues[n].labels)
          && exists p :: LeastBadge(r.threads[k].comments, p) && PendingLabels(plan.shown(n, r.issues[n].labels), p))
    && (forall k, n :: !(k in r.threads && Open(r.threads[k])) && n in r.issues && Tracks(r.issues[n], k)
                       && Pending in plan.shown(n, r.issues[n].labels) ==>
          r.issues[n].open && RecoverableLabels(plan.shown(n, r.issues[n].labels))
          && {Bug, PriorityLabel(Unclassified), UnclassifiedBug, SourceReview, Pending, NeedsTriage} <= r.labels)
  }

  ghost predicate Listed(found: map<Key, Tracked>, keys: seq<Key>, k: Key, t: Tracked) {
    k in found && found[k] == t && k in keys
  }

  lemma {:induction false} ListingKeeps(issues: map<nat, Issue>, order: seq<nat>, shown: (nat, set<Label>) -> set<Label>, acc: Listing, k: Key, t: Tracked)
    requires TrackedIssues(issues, order, shown, acc).Some? && Listed(acc.found, acc.keys, k, t)
    ensures var l := TrackedIssues(issues, order, shown, acc).value; Listed(l.found, l.keys, k, t)
    decreases |order|
  {
    if order != [] {
      var n := order[0];
      if n !in issues || !issues[n].byOwner || (issues[n].markers == [] && !issues[n].foreign) {
        ListingKeeps(issues, order[1..], shown, acc, k, t);
      } else {
        var key, s := issues[n].markers[0], Tracked(n, issues[n].url, issues[n].open, shown(n, issues[n].labels));
        if key in acc.found {
          ListingKeeps(issues, order[1..], shown, acc, k, t);
        } else {
          ListingKeeps(issues, order[1..], shown, Listing(acc.found[key := s], acc.keys + [key]), k, t);
        }
      }
    }
  }

  /** Every listed issue that is a thread's alone is in the index, as the collection showed it. */
  lemma {:induction false} ListingFinds(issues: map<nat, Issue>, order: seq<nat>, shown: (nat, set<Label>) -> set<Label>, acc: Listing, k: Key, n: nat)
    requires TrackedIssues(issues, order, shown, acc).Some? && n in order && n in issues && Tracks(issues[n], k)
    requires forall x :: x in acc.found ==> x in acc.keys
    ensures var l := TrackedIssues(issues, order, shown, acc).value;
      Listed(l.found, l.keys, k, Tracked(n, issues[n].url, issues[n].open, shown(n, issues[n].labels)))
    decreases |order|
  {
    var o, rest := order[0], order[1..];
    var t := Tracked(n, issues[n].url, issues[n].open, shown(n, issues[n].labels));
    if o == n {
      assert issues[n].markers[0] in issues[n].markers;
      if k in acc.found {
        ListingKeeps(issues, rest, shown, acc, k, t);
      } else {
        ListingKeeps(issues, rest, shown, Listing(acc.found[k := t], acc.keys + [k]), k, t);
      }
    } else if o !in issues || !issues[o].byOwner || (issues[o].markers == [] && !issues[o].foreign) {
      ListingFinds(issues, rest, shown, acc, k, n);
    } else {
      var key, s := issues[o].markers[0], Tracked(o, issues[o].url, issues[o].open, shown(o, issues[o].labels));
      if key in acc.found {
        ListingFinds(issues, rest, shown, acc, k, n);
      } else {
        ListingFinds(issues, rest, shown, Listing(acc.found[key := s], acc.keys + [key]), k, n);
      }
    }
  }

  /** The index of all the repository's issues. */
  ghost predicate Indexes(r: Remote, plan: Plan, listing: Listing) {
    forall k, n :: n in r.issues && Tracks(r.issues[n], k) ==>
      Listed(listing.found, listing.keys, k, Tracked(n, r.issues[n].url, r.issues[n].open, plan.shown(n, r.issues[n].labels)))
  }

  lemma AdmissiblePreflight(r: Remote, plan: Plan, current: seq<Key>, listing: Listing)
    requires IsCurrent(r, current) && Indexes(r, plan, listing) && plan.asOwner
    requires exists eligible :: RequiredLabels(r, Recovery(listing.found, listing.keys, current), eligible) <= r.labels
    requires Admissible(r, current, Recovery(listing.found, listing.keys, current), listing.found)
    ensures Preflight(r, plan)
  {
    hide LeastBadge, PendingLabels, RecoverableLabels, ValidIssue, ReviewPriority, Open, RequiredLabels, Recovery;
    var recovery := Recovery(listing.found, listing.keys, current);
    var eligible :| RequiredLabels(r, recovery, eligible) <= r.labels;
    RequiredMeans(r, recovery, eligible, r.labels);
    forall k, n | k in r.threads && Open(r.threads[k]) && n in r.issues && Tracks(r.issues[n], k)
      ensures r.issues[n].open && SourceClosed !in plan.shown(n, r.issues[n].labels)
      ensures exists p :: LeastBadge(r.threads[k].comments, p) && PendingLabels(plan.shown(n, r.issues[n].labels), p)
    {
      var t := Tracked(n, r.issues[n].url, r.issues[n].open, plan.shown(n, r.issues[n].labels));
      assert Listed(listing.found, listing.keys, k, t);
      ValidMeans(t, Pending, PriorityOf(r, k));
      PriorityIsLeast(r.threads[k].comments, PriorityOf(r, k));
    }
    forall k, n | !(k in r.threads && Open(r.threads[k])) && n in r.issues && Tracks(r.issues[n], k) && Pending in plan.shown(n, r.issues[n].labels)
      ensures r.issues[n].open && RecoverableLabels(plan.shown(n, r.issues[n].labels))
      ensures {Bug, PriorityLabel(Unclassified), UnclassifiedBug, SourceReview, Pending, NeedsTriage} <= r.labels
    {
      var t := Tracked(n, r.issues[n].url, r.issues[n].open, plan.shown(n, r.issues[n].labels));
      assert Listed(listing.found, listing.keys, k, t);
      RecoveryMeans(listing.found, listing.keys, current, k);
      ValidAnyMeans(t);
    }
  }

  // ---------- The run ----------

  lemma ProcessProceeds(w: World, scan: Remote, current: seq<Key>, listing: Listing)
    requires Still(w.plan) && scan == w.remote && IsCurrent(scan, current) && Indexes(scan, w.plan, listing) && w.plan.asOwner
    ensures var s := Process(w, scan, current, listing);
      Proceeds(w, s.w) && (s.w.sent != w.sent ==> Preflight(scan, w.plan))
  {
    hide Later, Still, Proper, Proceeds, Pressing, Admissible, RequiredLabels, CreateAll, CloseAll, Eligible, Recovery, Worked, Creatable;
    var eligible := Eligible(scan, current, w.plan.minimum);
    var recovery := Recovery(listing.found, listing.keys, current);
    var work := recovery + eligible;
    UnmovedProceeds(w, w, w) by { ProceedsSelf(w); }
    if work != [] && Admissible(scan, current, recovery, listing.found) {
      ObserveStill(w);
      var s1 := Observe(w);
      UnmovedProceeds(w, s1.w, s1.w) by { ProceedsSelf(s1.w); }
      if s1.Ok? && RequiredLabels(scan, recovery, eligible) <= s1.value.labels {
        AdmissiblePreflight(scan, w.plan, current, listing);
        DeclaredCreatable(scan, current, recovery, w.plan.minimum);
        var start := Made(listing.found, []);
        CreateAllProceeds(s1.w, scan, work, eligible, start);
        var s2 := CreateAll(s1.w, scan, work, eligible, start);
        UnmovedProceeds(w, s1.w, s2.w);
        SamePlan(s1.w, s2.w);
        if s2.Ok? {
          WorkIsWorked(scan, current, listing, w.plan.minimum);
          WorkedLater(scan, s2.w.remote, work, w.plan.minimum);
          CloseAllProceeds(s2.w, work, s2.value.found);
          ProceedsTransitive(w, s2.w, CloseAll(s2.w, work, s2.value.found).w);
        }
      }
    }
  }

  lemma ScanIsCurrent(r: Remote, scan: set<Key> -> seq<Key>)
    requires forall s, x :: x in scan(s) <==> x in s
    ensures IsCurrent(r, scan(CurrentKeys(r)))
  {
  }

  lemma ListingIndexes(r: Remote, plan: Plan, listing: Listing)
    requires forall s, x :: x in plan.list(s) <==> x in s
    requires TrackedIssues(r.issues, plan.list(r.issues.Keys), plan.shown, Listing(map[], [])) == Some(listing)
    ensures Indexes(r, plan, listing)
  {
    hide TrackedIssues, Tracks;
    forall k, n | n in r.issues && Tracks(r.issues[n], k)
      ensures Listed(listing.found, listing.keys, k, Tracked(n, r.issues[n].url, r.issues[n].open, plan.shown(n, r.issues[n].labels)))
    {
      ListingFinds(r.issues, plan.list(r.issues.Keys), plan.shown, Listing(map[], []), k, n);
    }
  }

  /** The listings name everything there is, in whatever order. */
  ghost predicate Complete(plan: Plan) {
    && (forall s, x :: x in plan.scan(s) <==> x in s)
    && (forall s, x :: x in plan.list(s) <==> x in s)
  }

  lemma RunProceeds(w: World)
    requires Still(w.plan) && Complete(w.plan)
    ensures Proceeds(w, Run(w).w) && (Run(w).w.sent != w.sent ==> Preflight(w.remote, w.plan))
  {
    hide Later, Still, Proper, Proceeds, Process, TrackedIssues, CurrentKeys, Preflight;
    ObserveStill(w);
    var s1 := Observe(w);
    UnmovedProceeds(w, s1.w, s1.w) by { ProceedsSelf(s1.w); }
    if s1.Ok? && w.plan.asOwner {
      ObserveStill(s1.w);
      var s2 := Observe(s1.w);
      UnmovedProceeds(w, s2.w, s2.w) by { ProceedsSelf(s2.w); }
      if s2.Ok? {
        var current := w.plan.scan(CurrentKeys(s2.value));
        ScanIsCurrent(w.remote, w.plan.scan);
        ObserveStill(s2.w);
        var s3 := Observe(s2.w);
        UnmovedProceeds(w, s3.w, s3.w) by { ProceedsSelf(s3.w); }
        if s3.Ok? {
          var listed := TrackedIssues(s3.value.issues, w.plan.list(s3.value.issues.Keys), w.plan.shown, Listing(map[], []));
          if listed.Some? {
            ListingIndexes(w.remote, w.plan, listed.value);
            ProcessProceeds(s3.w, s2.value, current, listed.value);
            UnmovedProceeds(w, s3.w, Process(s3.w, s2.value, current, listed.value).w);
          }
        }
      }
    }
  }

  /**
    Every mutation is sent for cause.  From any repository that nobody else changes, at
    whatever call the run is cut: an issue is created only for an open thread, under the
    priority of its least badge, and below the threshold only if that is 0 or 1; a reply
    or a resolution is sent only to such a thread, the reply when it has none yet and the
    resolution when it has the one that names its open, classified, pending issue; labels
    are swapped only once the thread is closed; and nothing at all is sent unless every
    tracking issue concerned was valid beforehand.
  */
  lemma EveryMutationIsProper(r: Remote, plan: Plan)
    requires Still(plan) && Complete(plan)
    ensures var sent := Sweep(r, plan).w.sent;
      && (forall i :: 0 <= i < |sent| ==> Later(r, sent[i].0) && Proper(sent[i].0, sent[i].1, plan.minimum))
      && (sent != [] ==> Preflight(r, plan))
  {
    hide Proper, Preflight, Run, Later;
    RunProceeds(Start(r, plan));
  }
}
