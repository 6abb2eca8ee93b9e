/**
  What holds of the remote after every history of sweeps, each cut at any client
  call, with the outside world moving before every call.
*/
module CloseoutSafety {
  import opened Common
  import opened CloseoutModel
  import opened CloseoutRun

  // ---------- The outside world ----------

  predicate SameLifecycle(a: set<Label>, b: set<Label>) {
    OnAxis(a, LifecycleAxis) == OnAxis(b, LifecycleAxis)
  }

  predicate SameIdentity(a: Issue, b: Issue) {
    a.url == b.url && a.markers == b.markers && a.foreign == b.foreign && a.byOwner == b.byOwner
  }

  predicate SameIssue(a: Issue, b: Issue) {
    SameIdentity(a, b) && SameLifecycle(a.labels, b.labels)
  }

  predicate LaterThread(a: Thread, b: Thread) {
    && (a.resolved ==> b.resolved) && (a.outdated ==> b.outdated)
    && ReplyLinks(a.comments) == ReplyLinks(b.comments)
  }

  /** The owner has put this thread's marker in the issue, alone or with others. */
  predicate Claims(i: Issue, key: Key) { i.byOwner && key in i.markers }

  /**
    Anyone may comment, resolve or outdate threads, open threads and issues, merge
    pull requests, close issues and edit labels; but nobody reopens a thread, edits
    lifecycle labels, or writes the owner's markers and reply links by hand.
  */
  ghost predicate EnvStep(r: Remote, q: Remote) {
    && q.log == r.log
    && r.next <= q.next
    && (forall k :: k in r.threads ==> k in q.threads && LaterThread(r.threads[k], q.threads[k]))
    && (forall n :: n in r.issues ==> n in q.issues && SameIssue(r.issues[n], q.issues[n]))
    && (forall n, k :: n in q.issues && n !in r.issues ==> !Claims(q.issues[n], k))
    && ((forall n :: n in r.issues ==> n < r.next) ==> forall n :: n in q.issues ==> n < q.next)
  }

  ghost predicate Enumerates<T(!new)>(f: set<T> -> seq<T>) {
    && (forall s, x :: x in f(s) <==> x in s)
    && (forall s, i, j {:trigger f(s)[i], f(s)[j]} :: 0 <= i < j < |f(s)| ==> f(s)[i] != f(s)[j])
  }

  /** No assumption on the cut, the labels shown by the collection, the URLs or the threshold. */
  ghost predicate GoodPlan(plan: Plan) {
    && (forall i, r :: EnvStep(r, plan.env(i, r)))
    && Enumerates(plan.scan)
    && Enumerates(plan.list)
  }

  // ---------- The invariant ----------

  ghost predicate Fresh(r: Remote) { forall n :: n in r.issues ==> n < r.next }

  /** An issue the sweep created keeps its thread and carries one of the two lifecycle labels. */
  ghost predicate IssuesSafe(r: Remote) {
    forall k, n :: Created(k, n) in r.log ==>
      n in r.issues && Owned(r.issues[n], k) && (Pending in r.issues[n].labels || SourceClosed in r.issues[n].labels)
  }

  /** ... and is source-closed only when its thread is resolved or outdated. */
  ghost predicate ClosedSafe(r: Remote) {
    forall k, n :: Created(k, n) in r.log && n in r.issues && SourceClosed in r.issues[n].labels ==>
      k in r.threads && r.threads[k].Closed()
  }

  /** The link names an issue of this thread, by its number and URL. */
  ghost predicate NamesTracker(r: Remote, key: Key, link: Link) {
    link.number in r.issues && Owned(r.issues[link.number], key) && r.issues[link.number].url == link.url
  }

  /** A thread the sweep resolved is resolved and has one owner link, which names its issue. */
  ghost predicate ResolvedSafe(r: Remote) {
    forall k :: Resolved(k) in r.log ==>
      && k in r.threads && r.threads[k].resolved
      && |ReplyLinks(r.threads[k].comments)| == 1
      && NamesTracker(r, k, ReplyLinks(r.threads[k].comments)[0])
  }

  /** Every reply the sweep posted is on its thread and names its issue. */
  ghost predicate RepliesSafe(r: Remote) {
    forall k, l :: Replied(k, l) in r.log ==>
      k in r.threads && l in ReplyLinks(r.threads[k].comments) && NamesTracker(r, k, l)
  }

  /** At most one reply was ever posted on a thread. */
  ghost predicate OneReply(r: Remote) {
    forall i, j :: 0 <= i < j < |r.log| && r.log[i].Replied? && r.log[j].Replied? ==>
      r.log[i].key != r.log[j].key
  }

  /** An issue the sweep created is the only one that claims its thread. */
  ghost predicate OneIssue(r: Remote) {
    forall k, n, m :: Created(k, n) in r.log && m in r.issues && Claims(r.issues[m], k) ==> m == n
  }

  ghost predicate Safe(r: Remote) {
    && Fresh(r) && IssuesSafe(r) && ClosedSafe(r) && ResolvedSafe(r)
    && RepliesSafe(r) && OneReply(r) && OneIssue(r)
  }

  // ---------- One call ----------

  lemma EnvKeepsSafe(r: Remote, q: Remote)
    requires Safe(r) && EnvStep(r, q)
    ensures Safe(q)
  {
    assert forall n :: n in r.issues ==> (Pending in r.issues[n].labels <==> Pending in OnAxis(r.issues[n].labels, LifecycleAxis));
    assert forall n :: n in q.issues ==> (Pending in q.issues[n].labels <==> Pending in OnAxis(q.issues[n].labels, LifecycleAxis));
    assert forall n :: n in r.issues ==> (SourceClosed in r.issues[n].labels <==> SourceClosed in OnAxis(r.issues[n].labels, LifecycleAxis));
    assert forall n :: n in q.issues ==> (SourceClosed in q.issues[n].labels <==> SourceClosed in OnAxis(q.issues[n].labels, LifecycleAxis));
  }

  lemma LinksAppend(cs: seq<Comment>, c: Comment)
    ensures ReplyLinks(cs + [c]) == ReplyLinks(cs) + if c.byOwner then c.links else []
    ensures Badges(cs + [c]) == Badges(cs) + c.badges
  {
  }

  /** When each mutation keeps the invariant; the sweep's readbacks establish these. */
  ghost predicate Allowed(r: Remote, m: Mutation) {
    match m
    case CreateIssue(key, p) => forall n :: n in r.issues ==> !Claims(r.issues[n], key)
    case ReplyThread(key, link) =>
      key in r.threads && ReplyLinks(r.threads[key].comments) == [] && NamesTracker(r, key, link)
    case ResolveThread(key) =>
      && key in r.threads && |ReplyLinks(r.threads[key].comments)| == 1
      && NamesTracker(r, key, ReplyLinks(r.threads[key].comments)[0])
    case AddClosed(n) =>
      n in r.issues && exists k :: k in r.threads && r.threads[k].Closed() && Owned(r.issues[n], k)
    case RemovePending(n) => n in r.issues && SourceClosed in r.issues[n].labels
  }

  lemma EnvKeepsAllowed(r: Remote, q: Remote, m: Mutation)
    requires EnvStep(r, q) && Allowed(r, m)
    ensures Allowed(q, m)
  {
    match m
    case CreateIssue(key, p) =>
    case ReplyThread(key, link) =>
    case ResolveThread(key) =>
    case AddClosed(n) =>
      var k :| k in r.threads && r.threads[k].Closed() && Owned(r.issues[n], k);
      assert k in q.threads && q.threads[k].Closed() && Owned(q.issues[n], k);
    case RemovePending(n) =>
      assert SourceClosed in OnAxis(r.issues[n].labels, LifecycleAxis);
  }

  lemma OwnerUnique(i: Issue, a: Key, b: Key)
    requires Owned(i, a) && Owned(i, b)
    ensures a == b
  {
    assert i.markers[0] in i.markers;
  }

  lemma CreateKeepsSafe(r: Remote, key: Key, p: Priority, url: nat -> string)
    requires Safe(r) && Allowed(r, CreateIssue(key, p))
    ensures Safe(Apply(r, CreateIssue(key, p), url))
  {
    hide ReplyLinks;
    var q := Apply(r, CreateIssue(key, p), url);
    assert r.next !in r.issues;
    assert Owned(q.issues[r.next], key);
    forall k, n, m | Created(k, n) in q.log && m in q.issues && Claims(q.issues[m], k)
      ensures m == n
    {
      if Created(k, n) in r.log {
        assert Owned(r.issues[n], k);
        assert r.issues[n].markers[0] in r.issues[n].markers;
        assert Claims(r.issues[n], k);
      }
    }
  }

  lemma ReplyKeepsResolved(r: Remote, q: Remote, key: Key, link: Link)
    requires ResolvedSafe(r) && key in r.threads && ReplyLinks(r.threads[key].comments) == []
    requires q.issues == r.issues && q.log == r.log + [Replied(key, link)]
    requires q.threads.Keys == r.threads.Keys && forall k :: k in r.threads && k != key ==> q.threads[k] == r.threads[k]
    ensures ResolvedSafe(q)
  {
  }

  lemma ReplyKeepsReplies(r: Remote, q: Remote, key: Key, link: Link)
    requires RepliesSafe(r) && OneReply(r) && key in r.threads && ReplyLinks(r.threads[key].comments) == []
    requires q.issues == r.issues && q.log == r.log + [Replied(key, link)]
    requires q.threads.Keys == r.threads.Keys && forall k :: k in r.threads && k != key ==> q.threads[k] == r.threads[k]
    requires NamesTracker(r, key, link) && link in ReplyLinks(q.threads[key].comments)
    ensures RepliesSafe(q) && OneReply(q)
  {
    forall k, l | Replied(k, l) in q.log
      ensures (Replied(k, l) in r.log && k != key) || (k == key && l == link)
    {
      if Replied(k, l) in r.log { assert l in ReplyLinks(r.threads[k].comments); }
    }
    forall i, j | 0 <= i < j < |q.log| && q.log[i].Replied? && q.log[j].Replied?
      ensures q.log[i].key != q.log[j].key
    {
      if j == |r.log| {
        assert Replied(r.log[i].key, r.log[i].link) in r.log;
      }
    }
  }

  lemma ReplyKeepsSafe(r: Remote, key: Key, link: Link, url: nat -> string)
    requires Safe(r) && Allowed(r, ReplyThread(key, link))
    ensures Safe(Apply(r, ReplyThread(key, link), url))
  {
    var q := Apply(r, ReplyThread(key, link), url);
    LinksAppend(r.threads[key].comments, Comment([], [link], true));
    ReplyKeepsResolved(r, q, key, link);
    ReplyKeepsReplies(r, q, key, link);
    assert forall k, n :: Created(k, n) in q.log ==> Created(k, n) in r.log;
  }

  lemma ResolveKeepsSafe(r: Remote, key: Key, url: nat -> string)
    requires Safe(r) && Allowed(r, ResolveThread(key))
    ensures Safe(Apply(r, ResolveThread(key), url))
  {
    hide Owned;
  }

  lemma AddClosedKeepsSafe(r: Remote, n: nat, url: nat -> string)
    requires Safe(r) && Allowed(r, AddClosed(n))
    ensures Safe(Apply(r, AddClosed(n), url))
  {
    hide ReplyLinks;
    var q := Apply(r, AddClosed(n), url);
    var k0 :| k0 in r.threads && r.threads[k0].Closed() && Owned(r.issues[n], k0);
    forall k, m | Created(k, m) in q.log && m in q.issues && SourceClosed in q.issues[m].labels
      ensures k in q.threads && q.threads[k].Closed()
    {
      assert Created(k, m) in r.log;
      if m == n {
        OwnerUnique(r.issues[n], k, k0);
      }
    }
  }

  lemma RemovePendingKeepsSafe(r: Remote, n: nat, url: nat -> string)
    requires Safe(r) && Allowed(r, RemovePending(n))
    ensures Safe(Apply(r, RemovePending(n), url))
  {
    hide ReplyLinks;
  }

  lemma ApplyKeepsSafe(r: Remote, m: Mutation, url: nat -> string)
    requires Safe(r) && Allowed(r, m)
    ensures Safe(Apply(r, m, url))
  {
    match m
    case CreateIssue(key, p) => CreateKeepsSafe(r, key, p, url);
    case ReplyThread(key, link) => ReplyKeepsSafe(r, key, link, url);
    case ResolveThread(key) => ResolveKeepsSafe(r, key, url);
    case AddClosed(n) => AddClosedKeepsSafe(r, n, url);
    case RemovePending(n) => RemovePendingKeepsSafe(r, n, url);
  }

  // ---------- What a client may rely on from one call to the next ----------

  /** Issues keep their identity and threads stay closed, whoever acts. */
  ghost predicate Persists(r: Remote, q: Remote) {
    && (forall n :: n in r.issues ==> n in q.issues && SameIdentity(r.issues[n], q.issues[n]))
    && (forall k :: k in r.threads ==> k in q.threads && (r.threads[k].Closed() ==> q.threads[k].Closed()))
  }

  lemma ApplyPersists(r: Remote, m: Mutation, url: nat -> string)
    requires Fresh(r)
    ensures Persists(r, Apply(r, m, url))
  {
  }

  ghost predicate SafeWorld(w: World) { GoodPlan(w.plan) && Safe(w.remote) }

  /** The state after some client calls, reached from w. */
  ghost predicate Follows(w: World, v: World) {
    SafeWorld(v) && v.plan == w.plan && Persists(w.remote, v.remote)
  }

  ghost predicate Knows(r: Remote, key: Key, t: Tracked) {
    t.number in r.issues && Owned(r.issues[t.number], key) && r.issues[t.number].url == t.url
  }

  ghost predicate SawThread(r: Remote, key: Key, t: Thread) {
    key in r.threads && LaterThread(t, r.threads[key])
  }

  lemma TickFollows(w: World)
    requires SafeWorld(w)
    ensures Follows(w, Tick(w)) && EnvStep(w.remote, Tick(w).remote)
  {
    assert EnvStep(w.remote, w.plan.env(w.calls, w.remote));
    EnvKeepsSafe(w.remote, Tick(w).remote);
  }

  lemma PersistsTransitive(a: Remote, b: Remote, c: Remote)
    requires Persists(a, b) && Persists(b, c)
    ensures Persists(a, c)
  {
  }

  lemma SendFollows(w: World, m: Mutation)
    requires SafeWorld(w) && Allowed(w.remote, m)
    ensures Follows(w, Send(w, m).w)
    ensures EnvStep(w.remote, Tick(w).remote) && Safe(Tick(w).remote)
    ensures Send(w, m).Ok? ==> Send(w, m).value == Tick(w).remote
                               && Send(w, m).w.remote == Apply(Tick(w).remote, m, w.plan.url)
  {
    var v := Tick(w);
    TickFollows(w);
    EnvKeepsAllowed(w.remote, v.remote, m);
    ApplyKeepsSafe(v.remote, m, w.plan.url);
    ApplyPersists(v.remote, m, w.plan.url);
    PersistsTransitive(w.remote, v.remote, Apply(v.remote, m, w.plan.url));
  }

  lemma ObserveFollows(w: World)
    requires SafeWorld(w)
    ensures Follows(w, Observe(w).w) && EnvStep(w.remote, Observe(w).w.remote)
    ensures Observe(w).Ok? ==> Observe(w).value == Observe(w).w.remote
  {
    TickFollows(w);
  }

  lemma ReadIssueFollows(w: World, key: Key, number: nat)
    requires SafeWorld(w)
    ensures var s := ReadIssue(w, key, number);
            && Follows(w, s.w) && EnvStep(w.remote, s.w.remote)
            && (s.Ok? ==> s.value.number == number && Knows(s.w.remote, key, s.value)
                          && s.value.labels == s.w.remote.issues[number].labels)
  {
    ObserveFollows(w);
  }

  lemma ReadThreadFollows(w: World, key: Key)
    requires SafeWorld(w)
    ensures var s := ReadThread(w, key);
            && Follows(w, s.w) && EnvStep(w.remote, s.w.remote)
            && (s.Ok? ==> key in s.w.remote.threads && s.value == s.w.remote.threads[key])
  {
    ObserveFollows(w);
  }

  // ---------- The closeout of one thread ----------

  lemma FollowsTransitive(w: World, v: World, u: World)
    requires Follows(w, v) && Follows(v, u)
    ensures Follows(w, u)
  {
    PersistsTransitive(w.remote, v.remote, u.remote);
  }

  lemma ReadPendingFollows(w: World, key: Key, expected: Tracked, p: Priority)
    requires SafeWorld(w)
    ensures var s := ReadPending(w, key, expected, p);
            && Follows(w, s.w) && EnvStep(w.remote, s.w.remote)
            && (s.Ok? ==> s.value.number == expected.number && Knows(s.w.remote, key, s.value)
                          && s.value.labels == s.w.remote.issues[s.value.number].labels)
  {
    ReadIssueFollows(w, key, expected.number);
  }

  lemma ReplyPhaseFollows(w: World, key: Key, issue: Tracked, t: Thread, p: Priority)
    requires SafeWorld(w) && Knows(w.remote, key, issue) && SawThread(w.remote, key, t)
    ensures var s := ReplyPhase(w, key, issue, t, p);
            && Follows(w, s.w)
            && (s.Ok? ==> Knows(s.w.remote, key, s.value.0) && SawThread(s.w.remote, key, s.value.1))
  {
    hide SafeWorld, ReadIssue;
    if !t.outdated && ReplyLinks(t.comments) == [] && !t.resolved {
      var s1 := ReadPending(w, key, issue, p);
      ReadPendingFollows(w, key, issue, p);
      if s1.Ok? {
        var link := Link(s1.value.number, s1.value.url);
        var s2 := Send(s1.w, ReplyThread(key, link));
        SendFollows(s1.w, ReplyThread(key, link));
        FollowsTransitive(w, s1.w, s2.w);
        if s2.Ok? {
          var s3 := ReadThread(s2.w, key);
          ReadThreadFollows(s2.w, key);
          FollowsTransitive(w, s2.w, s3.w);
          FollowsTransitive(s1.w, s2.w, s3.w);
        }
      }
    }
  }

  lemma ResolvePhaseFollows(w: World, key: Key, issue: Tracked, t: Thread, p: Priority)
    requires SafeWorld(w) && Knows(w.remote, key, issue) && SawThread(w.remote, key, t) && LinkOk(t, issue)
    ensures var s := ResolvePhase(w, key, issue, t, p);
            && Follows(w, s.w)
            && (s.Ok? ==> Knows(s.w.remote, key, s.value.0) && SawThread(s.w.remote, key, s.value.1))
  {
    hide SafeWorld, ReadIssue;
    if !t.Closed() {
      var s1 := ReadPending(w, key, issue, p);
      ReadPendingFollows(w, key, issue, p);
      if s1.Ok? {
        assert ReplyLinks(s1.w.remote.threads[key].comments) == [Link(issue.number, issue.url)];
        var s2 := Send(s1.w, ResolveThread(key));
        SendFollows(s1.w, ResolveThread(key));
        FollowsTransitive(w, s1.w, s2.w);
        if s2.Ok? {
          var s3 := ReadThread(s2.w, key);
          ReadThreadFollows(s2.w, key);
          FollowsTransitive(w, s2.w, s3.w);
          FollowsTransitive(s1.w, s2.w, s3.w);
        }
      }
    }
  }

  ghost predicate ClosedTracked(r: Remote, key: Key, number: nat) {
    number in r.issues && Owned(r.issues[number], key) && key in r.threads && r.threads[key].Closed()
  }

  lemma RetirePhaseFollows(w: World, key: Key, issue: Tracked, p: Priority)
    requires SafeWorld(w)
    ensures Follows(w, RetirePhase(w, key, issue, p).w)
  {
    hide Follows, ReadIssue, OnAxis, Enumerates;
    var s1 := ReadIssue(w, key, issue.number);
    ReadIssueFollows(w, key, issue.number);
    if s1.Ok? && SourceClosed in s1.value.labels {
      var s2 := Send(s1.w, RemovePending(s1.value.number));
      SendFollows(s1.w, RemovePending(s1.value.number));
      FollowsTransitive(w, s1.w, s2.w);
      if s2.Ok? {
        var s3 := ReadIssue(s2.w, key, issue.number);
        ReadIssueFollows(s2.w, key, issue.number);
        FollowsTransitive(w, s2.w, s3.w);
      }
    }
  }

  lemma LabelPhaseFollows(w: World, key: Key, issue: Tracked)
    requires SafeWorld(w) && ClosedTracked(w.remote, key, issue.number)
    ensures Follows(w, LabelPhase(w, issue).w)
  {
    SendFollows(w, AddClosed(issue.number));
  }

  lemma LifecyclePhaseFollows(w: World, key: Key, issue: Tracked, p: Priority)
    requires SafeWorld(w) && ClosedTracked(w.remote, key, issue.number)
    ensures Follows(w, LifecyclePhase(w, key, issue, p).w)
  {
    var s1 := ReadPending(w, key, issue, p);
    ReadPendingFollows(w, key, issue, p);
    if s1.Ok? {
      var s2 := LabelPhase(s1.w, s1.value);
      LabelPhaseFollows(s1.w, key, s1.value);
      FollowsTransitive(w, s1.w, s2.w);
      if s2.Ok? {
        RetirePhaseFollows(s2.w, key, s1.value, p);
        FollowsTransitive(w, s2.w, RetirePhase(s2.w, key, s1.value, p).w);
      }
    }
  }

  lemma SawClosed(r: Remote, key: Key, issue: Tracked, t: Thread)
    requires Knows(r, key, issue) && SawThread(r, key, t) && t.Closed()
    ensures ClosedTracked(r, key, issue.number)
  {
  }

  /** The tail of ClosePhase, once the thread is seen closed. */
  lemma SeenClosedFollows(w: World, key: Key, issue: Tracked, t: Thread, p: Priority)
    requires SafeWorld(w) && Knows(w.remote, key, issue) && SawThread(w.remote, key, t) && t.Closed()
    ensures Follows(w, LifecyclePhase(w, key, issue, p).w)
  {
    SawClosed(w.remote, key, issue, t);
    LifecyclePhaseFollows(w, key, issue, p);
  }

  lemma ClosePhaseFollows(w: World, key: Key, issue: Tracked, t: Thread, p: Priority)
    requires SafeWorld(w) && Knows(w.remote, key, issue) && SawThread(w.remote, key, t) && LinkOk(t, issue)
    ensures Follows(w, ClosePhase(w, key, issue, t, p).w)
  {
    hide SafeWorld, LifecyclePhase, ResolvePhase;
    var s1 := ResolvePhase(w, key, issue, t, p);
    ResolvePhaseFollows(w, key, issue, t, p);
    if s1.Ok? && s1.value.1.Closed() {
      SeenClosedFollows(s1.w, key, s1.value.0, s1.value.1, p);
      FollowsTransitive(w, s1.w, LifecyclePhase(s1.w, key, s1.value.0, p).w);
    }
  }

  lemma FinishPendingFollows(w: World, key: Key, issue: Tracked, t: Thread)
    requires SafeWorld(w) && Knows(w.remote, key, issue) && SawThread(w.remote, key, t)
    ensures Follows(w, FinishPending(w, key, issue, t).w)
  {
    var p := ReviewPriority(t.comments);
    var s1 := ReplyPhase(w, key, issue, t, p);
    ReplyPhaseFollows(w, key, issue, t, p);
    if s1.Ok? && LinkOk(s1.value.1, s1.value.0) {
      ClosePhaseFollows(s1.w, key, s1.value.0, s1.value.1, p);
      FollowsTransitive(w, s1.w, ClosePhase(s1.w, key, s1.value.0, s1.value.1, p).w);
    }
  }

  lemma CloseThreadFollows(w: World, key: Key, tracked: Tracked)
    requires SafeWorld(w)
    ensures Follows(w, CloseThread(w, key, tracked).w)
  {
    hide Follows, Enumerates;
    hide Enumerates;
    var s1 := ReadIssue(w, key, tracked.number);
    ReadIssueFollows(w, key, tracked.number);
    if s1.Ok? {
      var s2 := ReadThread(s1.w, key);
      ReadThreadFollows(s1.w, key);
      FollowsTransitive(w, s1.w, s2.w);
      if s2.Ok? {
        FinishPendingFollows(s2.w, key, s1.value, s2.value);
        FollowsTransitive(w, s2.w, FinishPending(s2.w, key, s1.value, s2.value).w);
      }
    }
  }

  lemma CloseAllFollows(w: World, work: seq<Key>, found: map<Key, Tracked>)
    requires SafeWorld(w)
    ensures Follows(w, CloseAll(w, work, found).w)
    decreases |work|
  {
    if work != [] && work[0] in found {
      var s := CloseThread(w, work[0], found[work[0]]);
      CloseThreadFollows(w, work[0], found[work[0]]);
      if s.Ok? {
        CloseAllFollows(s.w, work[1..], found);
        FollowsTransitive(w, s.w, CloseAll(s.w, work[1..], found).w);
      }
    }
  }

  // ---------- Creation ----------

  ghost predicate Unclaimed(r: Remote, key: Key) {
    forall n :: n in r.issues ==> !Claims(r.issues[n], key)
  }

  ghost predicate Distinct<T(!new)>(s: seq<T>) {
    forall i, j :: 0 <= i < j < |s| ==> s[i] != s[j]
  }

  lemma UnclaimedKept(r: Remote, q: Remote)
    requires EnvStep(r, q)
    ensures forall k :: Unclaimed(r, k) ==> Unclaimed(q, k)
  {
  }

  lemma CreateOneFollows(w: World, key: Key, p: Priority)
    requires SafeWorld(w) && Unclaimed(w.remote, key)
    ensures var s := CreateOne(w, key, p);
            && Follows(w, s.w)
            && forall k :: k != key && Unclaimed(w.remote, k) ==> Unclaimed(s.w.remote, k)
  {
    hide Enumerates, OnAxis, Classified;
    var m := CreateIssue(key, p);
    var s1 := Send(w, m);
    SendFollows(w, m);
    UnclaimedKept(w.remote, Tick(w).remote);
    if s1.Ok? {
      UnclaimedKept(s1.w.remote, ReadIssue(s1.w, key, s1.value.next).w.remote);
      var s2 := ReadIssue(s1.w, key, s1.value.next);
      ReadIssueFollows(s1.w, key, s1.value.next);
      FollowsTransitive(w, s1.w, s2.w);
    }
  }

  lemma CreateAllFollows(w: World, scan: Remote, work: seq<Key>, eligible: seq<Key>, made: Made)
    requires SafeWorld(w) && Distinct(work)
    requires forall k :: k in work && k !in made.found ==> Unclaimed(w.remote, k)
    ensures Follows(w, CreateAll(w, scan, work, eligible, made).w)
    decreases |work|
  {
    if work != [] {
      var key, rest := work[0], work[1..];
      assert Distinct(rest) && key !in rest;
      if key !in eligible || key in made.found {
        CreateAllFollows(w, scan, rest, eligible, made);
      } else {
        var s := CreateOne(w, key, PriorityOf(scan, key));
        CreateOneFollows(w, key, PriorityOf(scan, key));
        if s.Ok? {
          var more := Made(made.found[key := s.value], made.numbers + [s.value.number]);
          CreateAllFollows(s.w, scan, rest, eligible, more);
          FollowsTransitive(w, s.w, CreateAll(s.w, scan, rest, eligible, more).w);
        }
      }
    }
  }

  // ---------- Discovery ----------

  /** A key the index does not hold is claimed by no listed issue. */
  lemma {:induction false} ListingComplete(issues: map<nat, Issue>, order: seq<nat>,
                        shown: (nat, set<Label>) -> set<Label>, acc: Listing)
    requires TrackedIssues(issues, order, shown, acc).Some?
    requires Distinct(acc.keys) && forall k :: k in acc.keys <==> k in acc.found
    ensures var l := TrackedIssues(issues, order, shown, acc).value;
            && Distinct(l.keys) && (forall k :: k in l.keys <==> k in l.found)
            && (forall k :: k in acc.found ==> k in l.found)
            && (forall n, k :: n in order && n in issues && Claims(issues[n], k) ==> k in l.found)
    decreases |order|
  {
    if order != [] {
      var n, rest := order[0], order[1..];
      assert forall m :: m in order ==> m == n || m in rest;
      if n !in issues || !issues[n].byOwner || (issues[n].markers == [] && !issues[n].foreign) {
        ListingComplete(issues, rest, shown, acc);
      } else {
        var i := issues[n];
        var key, t := i.markers[0], Tracked(n, i.url, i.open, shown(n, i.labels));
        var next := if key in acc.found then acc else Listing(acc.found[key := t], acc.keys + [key]);
        ListingComplete(issues, rest, shown, next);
      }
    }
  }

  lemma {:induction false} UrgentPart(r: Remote, keys: seq<Key>)
    requires Distinct(keys)
    ensures Distinct(Urgent(r, keys))
    ensures forall k :: k in Urgent(r, keys) <==> k in keys && PriorityOf(r, k) in {P0, P1}
  {
    if keys != [] {
      UrgentPart(r, keys[1..]);
      assert keys[0] !in keys[1..];
    }
  }

  lemma {:induction false} RecoveryPart(found: map<Key, Tracked>, keys: seq<Key>, current: seq<Key>)
    requires Distinct(keys)
    ensures Distinct(Recovery(found, keys, current))
    ensures forall k :: k in Recovery(found, keys, current) <==>
                          k in keys && k in found && Pending in found[k].labels && k !in current
  {
    if keys != [] {
      RecoveryPart(found, keys[1..], current);
      assert keys[0] !in keys[1..];
    }
  }

  // ---------- Whole sweeps ----------

  lemma WorkDistinct(scan: Remote, current: seq<Key>, listing: Listing, minimum: nat)
    requires Distinct(current) && Distinct(listing.keys)
    ensures Distinct(Recovery(listing.found, listing.keys, current) + Eligible(scan, current, minimum))
  {
    UrgentPart(scan, current);
    RecoveryPart(listing.found, listing.keys, current);
    var a, b := Recovery(listing.found, listing.keys, current), Eligible(scan, current, minimum);
    forall i, j | 0 <= i < j < |a + b| ensures (a + b)[i] != (a + b)[j] {
      if i < |a| && j >= |a| { assert a[i] in a && b[j - |a|] in b; }
    }
  }

  lemma ProcessFollows(w: World, scan: Remote, current: seq<Key>, listing: Listing)
    requires SafeWorld(w) && Distinct(current) && Distinct(listing.keys)
    requires forall k :: k !in listing.found ==> Unclaimed(w.remote, k)
    ensures Follows(w, Process(w, scan, current, listing).w)
  {
    hide Safe, Enumerates, EnvStep, CreateAll, CloseAll;
    var eligible := Eligible(scan, current, w.plan.minimum);
    var recovery := Recovery(listing.found, listing.keys, current);
    var work := recovery + eligible;
    WorkDistinct(scan, current, listing, w.plan.minimum);
    var s1 := Observe(w);
    ObserveFollows(w);
    UnclaimedKept(w.remote, s1.w.remote);
    if s1.Ok? {
      var start := Made(listing.found, []);
      var s2 := CreateAll(s1.w, scan, work, eligible, start);
      CreateAllFollows(s1.w, scan, work, eligible, start);
      FollowsTransitive(w, s1.w, s2.w);
      if s2.Ok? {
        CloseAllFollows(s2.w, work, s2.value.found);
        FollowsTransitive(w, s2.w, CloseAll(s2.w, work, s2.value.found).w);
      }
    }
  }

  lemma ListedUnclaimed(r: Remote, plan: Plan, listing: Listing)
    requires Enumerates(plan.list)
    requires TrackedIssues(r.issues, plan.list(r.issues.Keys), plan.shown, Listing(map[], [])) == Some(listing)
    ensures Distinct(listing.keys) && forall k :: k in listing.keys <==> k in listing.found
    ensures forall k :: k !in listing.found ==> Unclaimed(r, k)
  {
    var order := plan.list(r.issues.Keys);
    ListingComplete(r.issues, order, plan.shown, Listing(map[], []));
    assert forall n :: n in r.issues ==> n in order;
  }

  lemma ScanDistinct(plan: Plan, keys: set<Key>)
    requires Enumerates(plan.scan)
    ensures Distinct(plan.scan(keys)) && forall k :: k in plan.scan(keys) <==> k in keys
  {
  }

  lemma RunFollows(w: World)
    requires SafeWorld(w)
    ensures Follows(w, Run(w).w)
  {
    hide Process, TrackedIssues;
    var s1 := Observe(w);
    ObserveFollows(w);
    if s1.Ok? && w.plan.asOwner {
      var s2 := Observe(s1.w);
      ObserveFollows(s1.w);
      FollowsTransitive(w, s1.w, s2.w);
      if s2.Ok? {
        var current := w.plan.scan(CurrentKeys(s2.value));
        ScanDistinct(w.plan, CurrentKeys(s2.value));
        var s3 := Observe(s2.w);
        ObserveFollows(s2.w);
        FollowsTransitive(w, s2.w, s3.w);
        if s3.Ok? {
          var r := s3.value;
          var listed := TrackedIssues(r.issues, w.plan.list(r.issues.Keys), w.plan.shown, Listing(map[], []));
          if listed.Some? {
            ListedUnclaimed(r, w.plan, listed.value);
            ProcessFollows(s3.w, s2.value, current, listed.value);
            FollowsTransitive(w, s3.w, Process(s3.w, s2.value, current, listed.value).w);
          }
        }
      }
    }
  }

  /**
    Closeout safety: whatever repository the sweeps start on, after any number of
    runs, each cut at any call with its effect landed or lost and with the outside
    world moving before every call, the invariant holds.  As a run may be cut
    anywhere, these are all the states a history of sweeps can leave or pass through.
  */
  lemma {:induction false} SweepsSafe(r: Remote, plans: seq<Plan>)
    requires r.log == [] && Fresh(r)
    requires forall i :: 0 <= i < |plans| ==> GoodPlan(plans[i])
    ensures Safe(Sweeps(r, plans))
  {
    if plans != [] {
      var last := |plans| - 1;
      SweepsSafe(r, plans[..last]);
      RunFollows(Start(Sweeps(r, plans[..last]), plans[last]));
    }
  }
}
