/**
  The review closeout sweep (tools/review_closeout.py) as a client of a remote
  repository.  The remote is a record of threads, issues and labels, plus the
  history of the mutations the sweep has ever had performed on it.  Every client
  call is one step: before it the outside world may move, and it may be the call
  at which the run is cut, with its effect landed or not.
*/
module CloseoutModel {
  import opened Common

  // ---------- Labels ----------

  datatype Priority = P0 | P1 | P2 | P3 | Unclassified

  /** Label names, told apart by the axis prefix that the classification check counts. */
  datatype Label =
    | Bug | NeedsTriage
    | PriorityLabel(p: Priority) | OtherPriority(name: string)
    | UnclassifiedBug | OtherBugClass(name: string)
    | SourceReview | OtherSource(name: string)
    | Pending | SourceClosed | OtherLifecycle(name: string)
    | Other(name: string)

  datatype Axis = PriorityAxis | BugClassAxis | SourceAxis | LifecycleAxis | NoAxis

  function AxisOf(l: Label): Axis {
    match l
    case PriorityLabel(_) => PriorityAxis
    case OtherPriority(_) => PriorityAxis
    case UnclassifiedBug => BugClassAxis
    case OtherBugClass(_) => BugClassAxis
    case SourceReview => SourceAxis
    case OtherSource(_) => SourceAxis
    case Pending => LifecycleAxis
    case SourceClosed => LifecycleAxis
    case OtherLifecycle(_) => LifecycleAxis
    case _ => NoAxis
  }

  function OnAxis(labels: set<Label>, a: Axis): set<Label> {
    set l | l in labels && AxisOf(l) == a
  }

  predicate Classified(labels: set<Label>) {
    && {Bug, SourceReview} <= labels
    && |OnAxis(labels, PriorityAxis)| == 1
    && |OnAxis(labels, BugClassAxis)| == 1
    && |OnAxis(labels, SourceAxis)| == 1
    && |OnAxis(labels, LifecycleAxis)| == 1
  }

  function PayloadLabels(p: Priority): set<Label> {
    {Bug, PriorityLabel(p), UnclassifiedBug, SourceReview, Pending, NeedsTriage}
  }

  // ---------- Remote records ----------

  datatype Key = Key(pr: nat, thread: string)
  datatype Link = Link(number: nat, url: string)

  /** A comment, reduced to what the priority and reply patterns find in its body. */
  datatype Comment = Comment(badges: seq<nat>, links: seq<Link>, byOwner: bool)

  datatype Thread = Thread(comments: seq<Comment>, resolved: bool, outdated: bool) {
    predicate Closed() { resolved || outdated }
  }

  datatype Issue = Issue(url: string, open: bool, labels: set<Label>,
                         markers: seq<Key>, foreign: bool, byOwner: bool)

  datatype Mutation =
    | CreateIssue(key: Key, p: Priority)
    | ReplyThread(key: Key, link: Link)
    | ResolveThread(key: Key)
    | AddClosed(number: nat)
    | RemovePending(number: nat)

  /** What a performed mutation leaves in the history. */
  datatype Event =
    | Created(key: Key, number: nat)
    | Replied(key: Key, link: Link)
    | Resolved(key: Key)
    | Labelled(number: nat)
    | Unlabelled(number: nat)

  datatype Remote = Remote(threads: map<Key, Thread>, issues: map<nat, Issue>, next: nat,
                           labels: set<Label>, merged: nat, log: seq<Event>)

  function Badges(cs: seq<Comment>): seq<nat> {
    if cs == [] then [] else Badges(cs[..|cs| - 1]) + cs[|cs| - 1].badges
  }

  /** The tracking links of the comments written by the repository owner. */
  function ReplyLinks(cs: seq<Comment>): seq<Link> {
    if cs == [] then []
    else ReplyLinks(cs[..|cs| - 1]) + if cs[|cs| - 1].byOwner then cs[|cs| - 1].links else []
  }

  function Most(badges: seq<nat>): nat {
    if badges == [] then 4
    else var m := Most(badges[1..]); if badges[0] < m then badges[0] else m
  }

  function ReviewPriority(cs: seq<Comment>): Priority {
    var m := Most(Badges(cs));
    if m == 0 then P0 else if m == 1 then P1 else if m == 2 then P2
    else if m == 3 then P3 else Unclassified
  }

  // ---------- What the server does with a mutation ----------

  function Apply(r: Remote, m: Mutation, url: nat -> string): Remote {
    match m
    case CreateIssue(key, p) =>
      var issue := Issue(url(r.next), true, PayloadLabels(p), [key], false, true);
      r.(issues := r.issues[r.next := issue], next := r.next + 1,
         log := r.log + [Created(key, r.next)])
    case ReplyThread(key, link) =>
      if key !in r.threads then r else
      var t := r.threads[key];
      r.(threads := r.threads[key := t.(comments := t.comments + [Comment([], [link], true)])],
         log := r.log + [Replied(key, link)])
    case ResolveThread(key) =>
      if key !in r.threads then r else
      r.(threads := r.threads[key := r.threads[key].(resolved := true)],
         log := r.log + [Resolved(key)])
    case AddClosed(number) =>
      if number !in r.issues then r else
      var i := r.issues[number];
      r.(issues := r.issues[number := i.(labels := i.labels + {SourceClosed})],
         log := r.log + [Labelled(number)])
    case RemovePending(number) =>
      if number !in r.issues then r else
      var i := r.issues[number];
      r.(issues := r.issues[number := i.(labels := i.labels - {Pending})],
         log := r.log + [Unlabelled(number)])
  }

  // ---------- A run's circumstances ----------

  /**
    Everything about one run that the client does not choose: the call at which
    it is cut (and whether that call's effect landed), the moves of the outside
    world before each call, the order in which the server lists things, the labels
    the issue collection shows (it may lag), the URLs it hands out, and the actor.
  */
  datatype Plan = Plan(cut: Option<nat>, landed: bool,
                       env: (nat, Remote) -> Remote,
                       scan: set<Key> -> seq<Key>,
                       list: set<nat> -> seq<nat>,
                       shown: (nat, set<Label>) -> set<Label>,
                       url: nat -> string,
                       minimum: nat, asOwner: bool)

  /** The remote as a run has left it so far, with the mutations performed and what each was performed on. */
  datatype World = World(remote: Remote, plan: Plan, calls: nat, sent: seq<(Remote, Mutation)>)

  function Start(r: Remote, plan: Plan): World { World(r, plan, 0, []) }

  /** The result of some client calls: a value, or the exception that ends the run. */
  datatype Step<+T> = Ok(w: World, value: T) | Raised(w: World) {
    predicate IsFailure() { Raised? }
    function PropagateFailure<U>(): Step<U> requires Raised? { Raised(w) }
    function Extract(): (World, T) requires Ok? { (w, value) }
  }

  function Tick(w: World): World {
    w.(remote := w.plan.env(w.calls, w.remote), calls := w.calls + 1)
  }

  predicate CutHere(w: World) { w.plan.cut == Some(w.calls) }

  function Observe(w: World): Step<Remote> {
    var v := Tick(w);
    if CutHere(w) then Raised(v) else Ok(v, v.remote)
  }

  function Performed(v: World, m: Mutation): World {
    v.(remote := Apply(v.remote, m, v.plan.url), sent := v.sent + [(v.remote, m)])
  }

  /** Sends a mutation; the value is the remote the server performed it on. */
  function Send(w: World, m: Mutation): Step<Remote> {
    var v := Tick(w);
    if CutHere(w) then Raised(if w.plan.landed then Performed(v, m) else v)
    else Ok(Performed(v, m), v.remote)
  }

  // ---------- Reads ----------

  datatype Tracked = Tracked(number: nat, url: string, open: bool, labels: set<Label>)

  /** The issue belongs to exactly this thread, by the owner's hand and this repository's marker. */
  predicate Owned(i: Issue, key: Key) {
    i.byOwner && !i.foreign && i.markers != [] && forall m | m in i.markers :: m == key
  }

  function ReadIssue(w: World, key: Key, number: nat): Step<Tracked> {
    var (v, r) :- Observe(w);
    if number in r.issues && Owned(r.issues[number], key) then
      var i := r.issues[number];
      Ok(v, Tracked(number, i.url, i.open, i.labels))
    else Raised(v)
  }

  function ReadThread(w: World, key: Key): Step<Thread> {
    var (v, r) :- Observe(w);
    if key in r.threads then Ok(v, r.threads[key]) else Raised(v)
  }

  datatype Listing = Listing(found: map<Key, Tracked>, keys: seq<Key>)

  /** The issue collection, in the server's order, as the index of tracking issues; None raises. */
  function TrackedIssues(issues: map<nat, Issue>, order: seq<nat>,
                         shown: (nat, set<Label>) -> set<Label>, acc: Listing): Option<Listing>
  {
    if order == [] then Some(acc)
    else
      var n := order[0];
      if n !in issues || !issues[n].byOwner || (issues[n].markers == [] && !issues[n].foreign) then
        TrackedIssues(issues, order[1..], shown, acc)
      else
        var i := issues[n];
        if i.foreign || exists m | m in i.markers :: m != i.markers[0] then None
        else
          var key, t := i.markers[0], Tracked(n, i.url, i.open, shown(n, i.labels));
          if key in acc.found then
            if acc.found[key] != t then None else TrackedIssues(issues, order[1..], shown, acc)
          else
            TrackedIssues(issues, order[1..], shown,
                          Listing(acc.found[key := t], acc.keys + [key]))
  }

  // ---------- Checks ----------

  predicate ValidIssue(t: Tracked, lifecycle: Label, priority: Option<Priority>) {
    var expected := {lifecycle} + if SourceClosed in t.labels then {SourceClosed} else {};
    var required := {Bug, SourceReview, lifecycle}
                    + if priority.Some? then {PriorityLabel(priority.value)} else {};
    && t.open
    && required <= t.labels
    && OnAxis(t.labels, LifecycleAxis) == expected
    && Classified(t.labels - {SourceClosed} + {lifecycle})
    && (UnclassifiedBug in t.labels ==> NeedsTriage in t.labels)
  }

  predicate ValidLink(t: Thread, issue: Tracked) {
    ReplyLinks(t.comments) == [Link(issue.number, issue.url)]
  }

  /** A thread that is not outdated, or that carries a reply, must carry the canonical one. */
  predicate LinkOk(t: Thread, issue: Tracked) {
    !t.outdated || ReplyLinks(t.comments) != [] ==> ValidLink(t, issue)
  }

  function ReadPending(w: World, key: Key, expected: Tracked, p: Priority): Step<Tracked> {
    var (v, t) :- ReadIssue(w, key, expected.number);
    if t.url != expected.url || !ValidIssue(t, Pending, Some(p)) then Raised(v) else Ok(v, t)
  }
}
