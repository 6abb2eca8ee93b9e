/**
  The two main results on the closeout sweep said in terms of comments, badges, links and
  labels alone.
*/
module CloseoutOutcome {
  import opened Common
  import opened CloseoutModel
  import opened CloseoutRun
  import opened CloseoutConduct
  import Safety = CloseoutSafety
  import Recovery = CloseoutRecovery
  import Whole = CloseoutSweeps

  /** The safety invariant, word by word. */
  ghost predicate SafeInWords(r: Remote) {
    && (forall k, n :: Created(k, n) in r.log ==>
          n in r.issues && Tracks(r.issues[n], k) && (Pending in r.issues[n].labels || SourceClosed in r.issues[n].labels))
    && (forall k, n :: Created(k, n) in r.log && SourceClosed in r.issues[n].labels ==> k in r.threads && !Open(r.threads[k]))
    && (forall k :: Resolved(k) in r.log ==> k in r.threads && r.threads[k].resolved && ReplyNamesIssue(r, k))
    && (forall i, j :: 0 <= i < j < |r.log| && r.log[i].Replied? && r.log[j].Replied? ==> r.log[i].key != r.log[j].key)
    && (forall k, n, m :: Created(k, n) in r.log && m in r.issues && r.issues[m].byOwner && k in r.issues[m].markers ==> m == n)
  }

  /** The thread has one link of the owner's, and it names an issue of this thread by number and URL. */
  ghost predicate ReplyNamesIssue(r: Remote, k: Key) {
    k in r.threads && exists n :: n in r.issues && Tracks(r.issues[n], k) && OneLink(r.threads[k].comments, Link(n, r.issues[n].url))
  }

  lemma SafeMeans(r: Remote)
    requires Safety.Safe(r)
    ensures SafeInWords(r)
  {
    forall k | Resolved(k) in r.log ensures ReplyNamesIssue(r, k) {
      var link := ReplyLinks(r.threads[k].comments)[0];
      assert ReplyLinks(r.threads[k].comments) == [link];
      OneLinkMeans(r.threads[k].comments, link);
      assert link == Link(link.number, r.issues[link.number].url);
    }
  }

  /** Safety over every history of interrupted sweeps under outside interference, word by word. */
  lemma SweepsSafeInWords(r: Remote, plans: seq<Plan>)
    requires r.log == [] && forall n :: n in r.issues ==> n < r.next
    requires forall i :: 0 <= i < |plans| ==> Safety.GoodPlan(plans[i])
    ensures SafeInWords(Sweeps(r, plans))
  {
    Safety.SweepsSafe(r, plans);
    SafeMeans(Sweeps(r, plans));
  }

  /** Closed, and its one tracking issue labelled as a terminal bug of the least badge's priority. */
  ghost predicate Finished(r: Remote, k: Key) {
    && k in r.threads && !Open(r.threads[k])
    && exists n :: TerminalBug(r, k, n) && forall m :: m in r.issues && Tracks(r.issues[m], k) ==> m == n
  }

  ghost predicate TerminalBug(r: Remote, k: Key, n: nat) {
    && k in r.threads && n in r.issues && Tracks(r.issues[n], k) && r.issues[n].open && Linked(r, k, n)
    && exists p :: LeastBadge(r.threads[k].comments, p) && TerminalLabels(r.issues[n].labels, p)
  }

  lemma HealthyLinked(r: Remote, k: Key, n: nat)
    requires Recovery.Healthy(r) && Recovery.Pair(r, k, n) && !Open(r.threads[k])
    ensures Linked(r, k, n)
  {
    Recovery.PairHealthy(r, k, n);
    NoLinkMeans(r.threads[k].comments);
    OneLinkMeans(r.threads[k].comments, Link(n, r.issues[n].url));
  }

  lemma ClosedOutMeans(r: Remote, k: Key)
    requires Recovery.Healthy(r) && Whole.ClosedOut(r, k)
    ensures Finished(r, k)
  {
    hide Recovery.Healthy, Recovery.GoodLabels, Linked, ReplyLinks, ReviewPriority;
    var n :| Recovery.Pair(r, k, n) && OnAxis(r.issues[n].labels, LifecycleAxis) == {SourceClosed}
             && forall m :: Recovery.Pair(r, k, m) ==> m == n;
    Recovery.PairHealthy(r, k, n);
    HealthyLinked(r, k, n);
    var p := ReviewPriority(r.threads[k].comments);
    PriorityIsLeast(r.threads[k].comments, p);
    Recovery.AxisMember(r.issues[n].labels, Pending);
    Recovery.GoodIsClosed(Recovery.View(r, n), p);
    ValidMeans(Recovery.View(r, n), SourceClosed, p);
    assert TerminalBug(r, k, n);
    forall m | m in r.issues && Tracks(r.issues[m], k) ensures m == n { assert Recovery.Pair(r, k, m); }
  }

  /** A tracking issue's priority label is that of the least badge on its thread, and its only one. */
  lemma PriorityLabelMeans(r: Remote, k: Key, n: nat, p: Priority)
    requires Recovery.Healthy(r) && k in r.threads && n in r.issues && Tracks(r.issues[n], k)
    ensures PriorityLabel(p) in r.issues[n].labels <==> LeastBadge(r.threads[k].comments, p)
  {
    assert Recovery.Pair(r, k, n);
    Recovery.PairHealthy(r, k, n);
    PriorityIsLeast(r.threads[k].comments, p);
    Recovery.AxisMember(r.issues[n].labels, PriorityLabel(p));
  }

  ghost predicate Tracked(r: Remote, k: Key, n: nat) { k in r.threads && n in r.issues && Tracks(r.issues[n], k) }

  /** The mutation concerns this thread. */
  predicate Touches(m: Mutation, k: Key) { (m.CreateIssue? || m.ReplyThread? || m.ResolveThread?) && m.key == k }

  /** A mutation on an open thread means the thread pressed when the run began. */
  lemma TouchedPressed(r: Remote, plan: Plan, i: int, k: Key)
    requires Still(plan) && Complete(plan) && 0 <= i < |Sweep(r, plan).w.sent| && Touches(Sweep(r, plan).w.sent[i].1, k)
    ensures Pressing(r, k, plan.minimum)
  {
    hide Sweep, Carries, LeastBadge, PendingBug;
    EveryMutationIsProper(r, plan);
    var sent := Sweep(r, plan).w.sent;
    assert Later(r, sent[i].0) && Proper(sent[i].0, sent[i].1, plan.minimum);
  }

  lemma QuietIsStill(plan: Plan)
    requires Recovery.Quiet(plan)
    ensures Still(plan) && Complete(plan)
  {
  }

  /**
    Recovery, word by word.  After any history of cut sweeps of a healthy repository, one
    uninterrupted sweep works on an open thread exactly when enough pull requests are
    merged or some comment of it carries badge 0 or 1; every thread worked on, and every
    closed tracked one, ends finished; and every tracking issue carries the priority
    label of its thread's least badge.
  */
  lemma RecoveryInWords(r: Remote, plans: seq<Plan>, last: Plan)
    requires r.log == [] && Recovery.Healthy(r)
    requires forall i :: 0 <= i < |plans| ==> Recovery.Quiet(plans[i])
    requires Recovery.Quiet(last) && last.cut == None
    ensures var q, s := Sweeps(r, plans), Sweep(Sweeps(r, plans), last);
      && s.Ok?
      && (forall k :: k in q.threads && Open(q.threads[k]) && Pressing(q, k, last.minimum) ==> Finished(s.w.remote, k))
      && (forall k, i :: 0 <= i < |s.w.sent| && Touches(s.w.sent[i].1, k) ==> Pressing(q, k, last.minimum))
      && (forall k, n :: Tracked(s.w.remote, k, n) && !Open(s.w.remote.threads[k]) ==> Finished(s.w.remote, k))
      && (forall k, n, p :: Tracked(s.w.remote, k, n) ==>
            (PriorityLabel(p) in s.w.remote.issues[n].labels <==> LeastBadge(s.w.remote.threads[k].comments, p)))
  {
    hide Sweep, Recovery.Healthy, Recovery.Quiet, Whole.ClosedOut, Finished, LeastBadge, Later, Proper;
    var q, s := Sweeps(r, plans), Sweep(Sweeps(r, plans), last);
    Whole.CrashRecovery(r, plans, last, last);
    HealthyAfter(r, plans, last);
    forall k | k in q.threads && Open(q.threads[k]) && Pressing(q, k, last.minimum) ensures Finished(s.w.remote, k) {
      PressingEligible(q, k, last.minimum);
      ClosedOutMeans(s.w.remote, k);
    }
    QuietIsStill(last);
    forall k, i | 0 <= i < |s.w.sent| && Touches(s.w.sent[i].1, k) ensures Pressing(q, k, last.minimum) {
      TouchedPressed(q, last, i, k);
    }
    forall k, n | Tracked(s.w.remote, k, n) && !Open(s.w.remote.threads[k])
      ensures Finished(s.w.remote, k)
    {
      assert Recovery.Pair(s.w.remote, k, n);
      ClosedOutMeans(s.w.remote, k);
    }
    forall k, n, p | Tracked(s.w.remote, k, n)
      ensures PriorityLabel(p) in s.w.remote.issues[n].labels <==> LeastBadge(s.w.remote.threads[k].comments, p)
    {
      PriorityLabelMeans(s.w.remote, k, n, p);
    }
  }

  lemma HealthyAfter(r: Remote, plans: seq<Plan>, last: Plan)
    requires Recovery.Healthy(r) && Recovery.Quiet(last) && forall i :: 0 <= i < |plans| ==> Recovery.Quiet(plans[i])
    ensures Recovery.Healthy(Sweep(Sweeps(r, plans), last).w.remote)
  {
    hide Sweep, Recovery.Healthy, Recovery.Quiet;
    var all := plans + [last];
    Whole.SweepsHealthy(r, all);
    assert all[..|plans|] == plans;
  }

  lemma PressingEligible(r: Remote, k: Key, minimum: nat)
    requires k in r.threads && Open(r.threads[k]) && Pressing(r, k, minimum)
    ensures k in CurrentKeys(r) && Whole.IsEligible(r, k, minimum)
  {
    hide ReviewPriority, Carries;
    PriorityIsLeast(r.threads[k].comments, ReviewPriority(r.threads[k].comments));
  }
}
