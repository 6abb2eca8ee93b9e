/** The sweep itself: discovery, issue creation, and the closeout of each thread. */
module CloseoutRun {
  import opened Common
  import opened CloseoutModel

  // ---------- One thread ----------

  /** Posts the tracking reply unless the thread is outdated or already answered. */
  function ReplyPhase(w: World, key: Key, issue: Tracked, t: Thread, p: Priority): Step<(Tracked, Thread)> {
    if t.outdated || ReplyLinks(t.comments) != [] then Ok(w, (issue, t))
    else if t.resolved then Raised(w)
    else
      var (w1, i1) :- ReadPending(w, key, issue, p);
      var (w2, _) :- Send(w1, ReplyThread(key, Link(i1.number, i1.url)));
      var (w3, t1) :- ReadThread(w2, key);
      Ok(w3, (i1, t1))
  }

  function ResolvePhase(w: World, key: Key, issue: Tracked, t: Thread, p: Priority): Step<(Tracked, Thread)> {
    if t.Closed() then Ok(w, (issue, t))
    else
      var (w1, i1) :- ReadPending(w, key, issue, p);
      var (w2, _) :- Send(w1, ResolveThread(key));
      var (w3, t1) :- ReadThread(w2, key);
      if ValidLink(t1, i1) then Ok(w3, (i1, t1)) else Raised(w3)
  }

  function LabelPhase(w: World, issue: Tracked): Step<()> {
    if SourceClosed in issue.labels then Ok(w, ())
    else
      var (w1, _) :- Send(w, AddClosed(issue.number));
      Ok(w1, ())
  }

  /** Drops closeout-pending once source-closed is read back, and reads the terminal labels. */
  function RetirePhase(w: World, key: Key, issue: Tracked, p: Priority): Step<()> {
    var (w1, final) :- ReadIssue(w, key, issue.number);
    if final.url != issue.url || SourceClosed !in final.labels || !ValidIssue(final, Pending, Some(p)) then
      Raised(w1)
    else
      var (w2, _) :- Send(w1, RemovePending(final.number));
      var (w3, terminal) :- ReadIssue(w2, key, issue.number);
      if terminal.url != issue.url || !ValidIssue(terminal, SourceClosed, Some(p)) then Raised(w3)
      else Ok(w3, ())
  }

  /** Swaps closeout-pending for source-closed on a thread seen closed. */
  function LifecyclePhase(w: World, key: Key, issue: Tracked, p: Priority): Step<()> {
    var (w1, i1) :- ReadPending(w, key, issue, p);
    var (w2, _) :- LabelPhase(w1, i1);
    RetirePhase(w2, key, i1, p)
  }

  /** From a thread whose link is canonical to its issue's terminal labels. */
  function ClosePhase(w: World, key: Key, issue: Tracked, t: Thread, p: Priority): Step<()> {
    var (w1, closed) :- ResolvePhase(w, key, issue, t, p);
    if !closed.1.Closed() || ReviewPriority(closed.1.comments) != p then Raised(w1)
    else LifecyclePhase(w1, key, closed.0, p)
  }

  function FinishPending(w: World, key: Key, issue: Tracked, t: Thread): Step<()> {
    var p := ReviewPriority(t.comments);
    var (w1, replied) :- ReplyPhase(w, key, issue, t, p);
    if !LinkOk(replied.1, replied.0) then Raised(w1)
    else ClosePhase(w1, key, replied.0, replied.1, p)
  }

  function CloseThread(w: World, key: Key, tracked: Tracked): Step<()> {
    var (w1, issue) :- ReadIssue(w, key, tracked.number);
    if issue.url != tracked.url then Raised(w1)
    else
      var (w2, t) :- ReadThread(w1, key);
      var p := ReviewPriority(t.comments);
      if SourceClosed in issue.labels && Pending !in issue.labels then
        if ValidIssue(issue, SourceClosed, Some(p)) && t.Closed() && LinkOk(t, issue)
        then Ok(w2, ()) else Raised(w2)
      else if !ValidIssue(issue, Pending, Some(p)) || (SourceClosed in issue.labels && !t.Closed()) then
        Raised(w2)
      else FinishPending(w2, key, issue, t)
  }

  // ---------- All the work of a sweep ----------

  function PriorityOf(r: Remote, key: Key): Priority {
    if key in r.threads then ReviewPriority(r.threads[key].comments) else Unclassified
  }

  function CurrentKeys(r: Remote): set<Key> {
    set k | k in r.threads && !r.threads[k].Closed()
  }

  function Urgent(r: Remote, keys: seq<Key>): seq<Key> {
    if keys == [] then []
    else (if PriorityOf(r, keys[0]) in {P0, P1} then [keys[0]] else []) + Urgent(r, keys[1..])
  }

  function Eligible(scan: Remote, current: seq<Key>, minimum: nat): seq<Key> {
    if scan.merged >= minimum then current else Urgent(scan, current)
  }

  /** Tracked keys still pending whose thread is no longer current, in the listing's order. */
  function Recovery(found: map<Key, Tracked>, keys: seq<Key>, current: seq<Key>): seq<Key> {
    if keys == [] then []
    else
      (if keys[0] in found && Pending in found[keys[0]].labels && keys[0] !in current then [keys[0]] else [])
      + Recovery(found, keys[1..], current)
  }

  /** The checks made on the listing before the first mutation. */
  predicate Admissible(scan: Remote, current: seq<Key>, recovery: seq<Key>, found: map<Key, Tracked>) {
    && (forall k | k in current && k in found ::
          ValidIssue(found[k], Pending, Some(PriorityOf(scan, k))) && SourceClosed !in found[k].labels)
    && (forall k | k in recovery && k in found :: ValidIssue(found[k], Pending, None))
  }

  /** Labels the repository must declare before any mutation; recovered threads count as unclassified. */
  function RequiredLabels(scan: Remote, recovery: seq<Key>, eligible: seq<Key>): set<Label> {
    {SourceClosed}
    + (set k, l | k in recovery && l in PayloadLabels(Unclassified) :: l)
    + (set k, l | k in eligible && l in PayloadLabels(PriorityOf(scan, k)) :: l)
  }

  datatype Made = Made(found: map<Key, Tracked>, numbers: seq<nat>)

  function CreateOne(w: World, key: Key, p: Priority): Step<Tracked> {
    var (w1, before) :- Send(w, CreateIssue(key, p));
    var (w2, t) :- ReadIssue(w1, key, before.next);
    if t.url != w.plan.url(before.next) || !ValidIssue(t, Pending, Some(p)) then Raised(w2) else Ok(w2, t)
  }

  function CreateAll(w: World, scan: Remote, work: seq<Key>, eligible: seq<Key>, made: Made): Step<Made>
    decreases |work|
  {
    if work == [] then Ok(w, made)
    else if work[0] !in eligible || work[0] in made.found then
      CreateAll(w, scan, work[1..], eligible, made)
    else
      var (w1, t) :- CreateOne(w, work[0], PriorityOf(scan, work[0]));
      CreateAll(w1, scan, work[1..], eligible,
                Made(made.found[work[0] := t], made.numbers + [t.number]))
  }

  function CloseAll(w: World, work: seq<Key>, found: map<Key, Tracked>): Step<()>
    decreases |work|
  {
    if work == [] then Ok(w, ())
    else if work[0] !in found then Raised(w)
    else
      var (w1, _) :- CloseThread(w, work[0], found[work[0]]);
      CloseAll(w1, work[1..], found)
  }

  datatype Status = NoCurrentThreads | BelowThreshold | ThreadsClosed(created: seq<nat>)

  function Process(w: World, scan: Remote, current: seq<Key>, listing: Listing): Step<Status> {
    var eligible := Eligible(scan, current, w.plan.minimum);
    var recovery := Recovery(listing.found, listing.keys, current);
    var work := recovery + eligible;
    if work == [] then Ok(w, if current == [] then NoCurrentThreads else BelowThreshold)
    else if !Admissible(scan, current, recovery, listing.found) then Raised(w)
    else
      var (w1, r) :- Observe(w);
      if !(RequiredLabels(scan, recovery, eligible) <= r.labels) then Raised(w1)
      else
        var (w2, made) :- CreateAll(w1, scan, work, eligible, Made(listing.found, []));
        var (w3, _) :- CloseAll(w2, work, made.found);
        Ok(w3, ThreadsClosed(made.numbers))
  }

  function Run(w: World): Step<Status> {
    var (w1, _) :- Observe(w);
    if !w.plan.asOwner then Raised(w1)
    else
      var (w2, scan) :- Observe(w1);
      var current := w.plan.scan(CurrentKeys(scan));
      var (w3, r) :- Observe(w2);
      var listed := TrackedIssues(r.issues, w.plan.list(r.issues.Keys), w.plan.shown, Listing(map[], []));
      if listed.None? then Raised(w3) else Process(w3, scan, current, listed.value)
  }

  /** The remote left by one run that starts from r under a plan. */
  function Sweep(r: Remote, plan: Plan): Step<Status> {
    Run(Start(r, plan))
  }

  /** The remote left by a history of runs, each under its own plan. */
  function Sweeps(r: Remote, plans: seq<Plan>): Remote {
    if plans == [] then r
    else Sweep(Sweeps(r, plans[..|plans| - 1]), plans[|plans| - 1]).w.remote
  }
}
