/**
  The sweep as the program runs it: statements that call the client, update the index
  and move on, proved to do exactly what the specification in CloseoutRun says.
*/
module CloseoutClient {
  import opened Common
  import opened CloseoutModel
  import CloseoutRun
  import opened CloseoutSafety

  class Sweeper {
    var world: World

    constructor (remote: Remote, plan: Plan)
      ensures world == Start(remote, plan)
    {
      world := Start(remote, plan);
    }

    /** One read of the remote; None is the raised client error. */
    method Get() returns (r: Option<Remote>)
      modifies this
      ensures var s := Observe(old(world)); world == s.w && r == if s.Ok? then Some(s.value) else None
    {
      var cut := CutHere(world);
      world := Tick(world);
      if cut { return None; }
      return Some(world.remote);
    }

    /** One mutation; the result is the remote the server performed it on. */
    method Mutate(m: Mutation) returns (r: Option<Remote>)
      modifies this
      ensures var s := Send(old(world), m); world == s.w && r == if s.Ok? then Some(s.value) else None
    {
      var cut := CutHere(world);
      world := Tick(world);
      var before := world.remote;
      if !cut || world.plan.landed { world := Performed(world, m); }
      if cut { return None; }
      return Some(before);
    }

    method GetIssue(key: Key, number: nat) returns (t: Option<Tracked>)
      modifies this
      ensures var s := ReadIssue(old(world), key, number); world == s.w && t == if s.Ok? then Some(s.value) else None
    {
      var r := Get();
      if r.None? || number !in r.value.issues || !Owned(r.value.issues[number], key) { return None; }
      var i := r.value.issues[number];
      return Some(Tracked(number, i.url, i.open, i.labels));
    }

    method GetThread(key: Key) returns (t: Option<Thread>)
      modifies this
      ensures var s := ReadThread(old(world), key); world == s.w && t == if s.Ok? then Some(s.value) else None
    {
      var r := Get();
      if r.None? || key !in r.value.threads { return None; }
      return Some(r.value.threads[key]);
    }

    method GetPending(key: Key, expected: Tracked, p: Priority) returns (t: Option<Tracked>)
      modifies this
      ensures var s := ReadPending(old(world), key, expected, p); world == s.w && t == if s.Ok? then Some(s.value) else None
    {
      t := GetIssue(key, expected.number);
      if t.Some? && (t.value.url != expected.url || !ValidIssue(t.value, Pending, Some(p))) { t := None; }
    }

    /** Swaps the lifecycle labels of a thread seen closed. */
    method Retire(key: Key, seen: Tracked, p: Priority) returns (ok: bool)
      modifies this
      ensures var s := CloseoutRun.LifecyclePhase(old(world), key, seen, p); world == s.w && ok == s.Ok?
    {
      hide Observe, Send, ReadIssue, ValidIssue;
      var issue := GetPending(key, seen, p);
      if issue.None? { return false; }
      if SourceClosed !in issue.value.labels {
        var added := Mutate(AddClosed(issue.value.number));
        if added.None? { return false; }
      }
      var final := GetIssue(key, issue.value.number);
      if final.None? { return false; }
      if final.value.url != issue.value.url || SourceClosed !in final.value.labels { return false; }
      if !ValidIssue(final.value, Pending, Some(p)) { return false; }
      var removed := Mutate(RemovePending(final.value.number));
      if removed.None? { return false; }
      var terminal := GetIssue(key, issue.value.number);
      if terminal.None? || terminal.value.url != issue.value.url { return false; }
      return ValidIssue(terminal.value, SourceClosed, Some(p));
    }

    /** Replies and resolves as needed, then retires the pending label. */
    method Finish(key: Key, tracked: Tracked, seen: Thread) returns (ok: bool)
      modifies this
      ensures var s := CloseoutRun.FinishPending(old(world), key, tracked, seen); world == s.w && ok == s.Ok?
    {
      var issue, t, p := tracked, seen, ReviewPriority(seen.comments);
      if !t.outdated && ReplyLinks(t.comments) == [] {
        if t.resolved { return false; }
        var pending := GetPending(key, issue, p);
        if pending.None? { return false; }
        issue := pending.value;
        var sent := Mutate(ReplyThread(key, Link(issue.number, issue.url)));
        if sent.None? { return false; }
        var after := GetThread(key);
        if after.None? { return false; }
        t := after.value;
      }
      if !LinkOk(t, issue) { return false; }
      if !t.Closed() {
        var pending := GetPending(key, issue, p);
        if pending.None? { return false; }
        issue := pending.value;
        var sent := Mutate(ResolveThread(key));
        if sent.None? { return false; }
        var after := GetThread(key);
        if after.None? { return false; }
        t := after.value;
        if !ValidLink(t, issue) { return false; }
      }
      if !t.Closed() || ReviewPriority(t.comments) != p { return false; }
      ok := Retire(key, issue, p);
    }

    method Close(key: Key, tracked: Tracked) returns (ok: bool)
      modifies this
      ensures var s := CloseoutRun.CloseThread(old(world), key, tracked); world == s.w && ok == s.Ok?
    {
      var issue := GetIssue(key, tracked.number);
      if issue.None? || issue.value.url != tracked.url { return false; }
      var t := GetThread(key);
      if t.None? { return false; }
      var p := ReviewPriority(t.value.comments);
      if SourceClosed in issue.value.labels && Pending !in issue.value.labels {
        return ValidIssue(issue.value, SourceClosed, Some(p)) && t.value.Closed() && LinkOk(t.value, issue.value);
      }
      if !ValidIssue(issue.value, Pending, Some(p)) { return false; }
      if SourceClosed in issue.value.labels && !t.value.Closed() { return false; }
      ok := Finish(key, issue.value, t.value);
    }

    /** The creation loop, then the closeout loop, over the work in order. */
    method CreateAndClose(scan: Remote, work: seq<Key>, eligible: seq<Key>, index: map<Key, Tracked>)
      returns (created: Option<seq<nat>>)
      modifies this
      ensures var s := CloseoutRun.CreateAll(old(world), scan, work, eligible, CloseoutRun.Made(index, []));
              if s.Raised? then world == s.w && created == None
              else var c := CloseoutRun.CloseAll(s.w, work, s.value.found);
                   world == c.w && created == if c.Ok? then Some(s.value.numbers) else None
    {
      var found, numbers := index, [];
      ghost var goal := CloseoutRun.CreateAll(world, scan, work, eligible, CloseoutRun.Made(index, []));
      for i := 0 to |work|
        invariant CloseoutRun.CreateAll(world, scan, work[i..], eligible, CloseoutRun.Made(found, numbers)) == goal
      {
        var key := work[i];
        if key in eligible && key !in found {
          var p := CloseoutRun.PriorityOf(scan, key);
          var before := Mutate(CreateIssue(key, p));
          if before.None? { return None; }
          var t := GetIssue(key, before.value.next);
          if t.None? || t.value.url != world.plan.url(before.value.next) { return None; }
          if !ValidIssue(t.value, Pending, Some(p)) { return None; }
          found, numbers := found[key := t.value], numbers + [t.value.number];
        }
      }
      ghost var closing := CloseoutRun.CloseAll(world, work, found);
      for i := 0 to |work|
        invariant CloseoutRun.CloseAll(world, work[i..], found) == closing
      {
        if work[i] !in found { return None; }
        var ok := Close(work[i], found[work[i]]);
        if !ok { return None; }
      }
      return Some(numbers);
    }

    /** The index of tracking issues, entry by entry in the listing's order; None raises. */
    method IndexIssues(issues: map<nat, Issue>, order: seq<nat>) returns (index: Option<Listing>)
      ensures index == TrackedIssues(issues, order, world.plan.shown, Listing(map[], []))
    {
      var found: map<Key, Tracked>, keys: seq<Key> := map[], [];
      ghost var goal := TrackedIssues(issues, order, world.plan.shown, Listing(map[], []));
      assert order[0..] == order;
      for i := 0 to |order|
        invariant TrackedIssues(issues, order[i..], world.plan.shown, Listing(found, keys)) == goal
      {
        var n := order[i];
        assert order[i..][1..] == order[i + 1..];
        if n !in issues || !issues[n].byOwner || (issues[n].markers == [] && !issues[n].foreign) { continue; }
        var issue := issues[n];
        if issue.foreign || exists m | m in issue.markers :: m != issue.markers[0] { return None; }
        var key, t := issue.markers[0], Tracked(n, issue.url, issue.open, world.plan.shown(n, issue.labels));
        if key in found {
          if found[key] != t { return None; }
        } else {
          found, keys := found[key := t], keys + [key];
        }
      }
      index := Some(Listing(found, keys));
    }

    /** The program's run: None when it raises. */
    method Run() returns (status: Option<CloseoutRun.Status>)
      modifies this
      ensures var s := CloseoutRun.Run(old(world)); world == s.w && status == if s.Ok? then Some(s.value) else None
    {
      var user := Get();
      if user.None? || !world.plan.asOwner { return None; }
      var scan := Get();
      if scan.None? { return None; }
      var current := world.plan.scan(CloseoutRun.CurrentKeys(scan.value));
      var issues := Get();
      if issues.None? { return None; }
      var listed := IndexIssues(issues.value.issues, world.plan.list(issues.value.issues.Keys));
      if listed.None? { return None; }
      var eligible := CloseoutRun.Eligible(scan.value, current, world.plan.minimum);
      var recovery := CloseoutRun.Recovery(listed.value.found, listed.value.keys, current);
      if recovery + eligible == [] {
        return Some(if current == [] then CloseoutRun.NoCurrentThreads else CloseoutRun.BelowThreshold);
      }
      if !CloseoutRun.Admissible(scan.value, current, recovery, listed.value.found) { return None; }
      var declared := Get();
      if declared.None? || !(CloseoutRun.RequiredLabels(scan.value, recovery, eligible) <= declared.value.labels) {
        return None;
      }
      var created := CreateAndClose(scan.value, recovery + eligible, eligible, listed.value.found);
      if created.None? { return None; }
      return Some(CloseoutRun.ThreadsClosed(created.value));
    }
  }
}
