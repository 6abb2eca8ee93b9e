/**
  The desired-state planner of the audit tracker (tools/audit_github.py and
  tools/github_labels.py): what the registry wants, what the repository has, and the
  mutations that would bring one to the other.
*/
module AuditPlan {
  import opened Common
  import opened Ordering

  // ---------- Names ----------

  function FoldChar(c: char): char {
    if 'A' <= c <= 'Z' then (c as int + 32) as char else c
  }

  /** Case folding; label names are unique up to it. */
  function Fold(s: string): string { seq(|s|, i requires 0 <= i < |s| => FoldChar(s[i])) }

  function Codes(s: string): seq<int> { seq(|s|, i requires 0 <= i < |s| => s[i] as int) }

  // ---------- The registry and the repository ----------

  datatype LabelSpec = LabelSpec(name: string, color: string, description: string)

  function Normal(l: LabelSpec): LabelSpec { l.(color := Fold(l.color)) }

  /** Absent fields are None; a PATCH always names due_on, and leaves an absent description alone. */
  datatype Milestone = Milestone(title: string, description: Option<string>, dueOn: Option<string>)

  datatype IssueSpec = IssueSpec(key: string, title: string, body: string, labels: set<string>, milestone: Option<string>)

  datatype Registry = Registry(labels: seq<LabelSpec>, milestones: seq<Milestone>, specs: seq<IssueSpec>,
                               auditLabel: string, existingMilestone: string)

  datatype LiveIssue = LiveIssue(title: string, body: string, labels: set<string>, milestone: Option<string>, open: bool)

  /**
    Labels by folded name, milestones by title, audit issues by the marker in their
    body, and the one pre-existing issue.  Issue and milestone numbers are only the
    server's handles, and are left out.
  */
  datatype Live = Live(labels: map<string, LabelSpec>, milestones: map<string, Milestone>,
                       issues: map<string, LiveIssue>, existing: LiveIssue)

  datatype Mutation =
    | PostLabel(spec: LabelSpec)
    | PatchLabel(current: string, spec: LabelSpec)
    | PostMilestone(m: Milestone)
    | PatchMilestone(m: Milestone)
    | PostIssue(key: string, title: string, body: string, labels: set<string>, milestone: Option<string>)
    | PatchIssue(key: string, title: string, body: string, labels: set<string>, milestone: Option<string>)
    | PatchExisting(labels: set<string>, milestone: Option<string>)

  datatype PlanKey = LabelKey(name: string) | MilestoneKey(title: string) | IssueKey(key: string) | ExistingKey

  function KeyOf(m: Mutation): PlanKey {
    match m
    case PostLabel(s) => LabelKey(s.name)
    case PatchLabel(_, s) => LabelKey(s.name)
    case PostMilestone(m) => MilestoneKey(m.title)
    case PatchMilestone(m) => MilestoneKey(m.title)
    case PostIssue(k, _, _, _, _) => IssueKey(k)
    case PatchIssue(k, _, _, _, _) => IssueKey(k)
    case PatchExisting(_, _) => ExistingKey
  }

  /** What the server does with a mutation; issue state is in no payload, so it never changes. */
  function Apply(live: Live, m: Mutation): Live {
    match m
    case PostLabel(s) => live.(labels := live.labels[Fold(s.name) := s])
    case PatchLabel(current, s) =>
      live.(labels := (live.labels - {Fold(current)})[Fold(s.name) := s])
    case PostMilestone(m) => live.(milestones := live.milestones[m.title := m])
    case PatchMilestone(m) =>
      if m.title !in live.milestones then live else
      var kept := live.milestones[m.title].description;
      live.(milestones := live.milestones[m.title := m.(description := if m.description.Some? then m.description else kept)])
    case PostIssue(k, title, body, labels, milestone) =>
      live.(issues := live.issues[k := LiveIssue(title, body, labels, milestone, true)])
    case PatchIssue(k, title, body, labels, milestone) =>
      if k !in live.issues then live else
      live.(issues := live.issues[k := LiveIssue(title, body, labels, milestone, live.issues[k].open)])
    case PatchExisting(labels, milestone) =>
      live.(existing := live.existing.(labels := labels, milestone := milestone))
  }

  // ---------- The plan ----------

  datatype Index = Index(wanted: map<string, LabelSpec>, keys: seq<string>)

  /** The folded index of the desired labels; None raises on a duplicate. */
  function Indexed(specs: seq<LabelSpec>): Option<Index> {
    if specs == [] then Some(Index(map[], []))
    else
      var last := |specs| - 1;
      var before := Indexed(specs[..last]);
      if before.None? || Fold(specs[last].name) in before.value.wanted then None
      else Some(Index(before.value.wanted[Fold(specs[last].name) := Normal(specs[last])],
                      before.value.keys + [Fold(specs[last].name)]))
  }

  function LabelStep(spec: LabelSpec, key: string, live: Live): seq<Mutation> {
    if key !in live.labels then [PostLabel(spec)]
    else if Normal(live.labels[key]) != spec then [PatchLabel(live.labels[key].name, spec)]
    else []
  }

  function LabelPlan(keys: seq<string>, wanted: map<string, LabelSpec>, live: Live): seq<Mutation> {
    if keys == [] then []
    else
      LabelPlan(keys[..|keys| - 1], wanted, live)
      + if keys[|keys| - 1] in wanted then LabelStep(wanted[keys[|keys| - 1]], keys[|keys| - 1], live) else []
  }

  function MilestoneStep(m: Milestone, live: Live): seq<Mutation> {
    if m.title !in live.milestones then [PostMilestone(m)]
    else if live.milestones[m.title] != m then [PatchMilestone(m)]
    else []
  }

  function MilestonePlan(ms: seq<Milestone>, live: Live): seq<Mutation> {
    if ms == [] then [] else MilestonePlan(ms[..|ms| - 1], live) + MilestoneStep(ms[|ms| - 1], live)
  }

  function Managed(specs: seq<IssueSpec>): set<string> {
    set s, l | s in specs && l in s.labels :: l
  }

  function MilestoneHandle(title: Option<string>, live: Live): Option<string> {
    if title.Some? && title.value in live.milestones then title else None
  }

  function IssueStep(spec: IssueSpec, managed: set<string>, live: Live): seq<Mutation> {
    var milestone := MilestoneHandle(spec.milestone, live);
    if spec.key !in live.issues then [PostIssue(spec.key, spec.title, spec.body, spec.labels, milestone)]
    else
      var current := live.issues[spec.key];
      var expected := (current.labels - managed) + spec.labels;
      if current.title != spec.title || current.body != spec.body || current.labels != expected
         || current.milestone != spec.milestone
      then [PatchIssue(spec.key, spec.title, spec.body, expected, milestone)]
      else []
  }

  function IssuePlan(specs: seq<IssueSpec>, managed: set<string>, live: Live): seq<Mutation> {
    if specs == [] then []
    else IssuePlan(specs[..|specs| - 1], managed, live) + IssueStep(specs[|specs| - 1], managed, live)
  }

  function Required(reg: Registry): set<string> {
    {reg.auditLabel, "priority:p1", "bug", "ready-for-agent"}
  }

  /** None is the KeyError of an existing-issue milestone the repository lacks. */
  function ExistingStep(reg: Registry, live: Live): Option<seq<Mutation>> {
    var labels := (live.existing.labels - Managed(reg.specs)) + Required(reg);
    if live.existing.labels == labels && live.existing.milestone == Some(reg.existingMilestone) then Some([])
    else if reg.existingMilestone !in live.milestones then None
    else Some([PatchExisting(labels, Some(reg.existingMilestone))])
  }

  /** Labels and milestones first; issues only once those are settled. */
  function Foundation(reg: Registry, live: Live): Option<seq<Mutation>> {
    var index := Indexed(reg.labels);
    if index.None? then None
    else Some(LabelPlan(Sort(index.value.keys, Codes), index.value.wanted, live) + MilestonePlan(reg.milestones, live))
  }

  function Content(reg: Registry, live: Live): Option<seq<Mutation>> {
    var existing := ExistingStep(reg, live);
    if existing.None? then None
    else Some(IssuePlan(reg.specs, Managed(reg.specs), live) + existing.value)
  }

  function BuildPlan(reg: Registry, live: Live): Option<seq<Mutation>> {
    var foundation := Foundation(reg, live);
    if foundation.None? then None
    else if foundation.value != [] then foundation
    else Content(reg, live)
  }

  // ---------- The planner's loops ----------

  method IndexLabels(specs: seq<LabelSpec>) returns (index: Option<Index>)
    ensures index == Indexed(specs)
  {
    var result: map<string, LabelSpec>, keys: seq<string> := map[], [];
    for i := 0 to |specs|
      invariant Indexed(specs[..i]) == Some(Index(result, keys))
    {
      assert specs[..i + 1][..i] == specs[..i];
      var key := Fold(specs[i].name);
      if key in result {
        DuplicateStays(specs, i + 1);
        return None;
      }
      result, keys := result[key := Normal(specs[i])], keys + [key];
    }
    assert specs[..|specs|] == specs;
    return Some(Index(result, keys));
  }

  lemma DuplicateStays(specs: seq<LabelSpec>, i: nat)
    requires i <= |specs| && Indexed(specs[..i]) == None
    ensures Indexed(specs) == None
    decreases |specs| - i
  {
    if i < |specs| {
      assert specs[..i + 1][..i] == specs[..i];
      DuplicateStays(specs, i + 1);
    } else {
      assert specs[..i] == specs;
    }
  }

  method PlanLabels(desired: seq<LabelSpec>, live: Live) returns (plan: Option<seq<Mutation>>)
    ensures var index := Indexed(desired);
            plan == if index.None? then None
                    else Some(LabelPlan(Sort(index.value.keys, Codes), index.value.wanted, live))
  {
    var index := IndexLabels(desired);
    if index.None? { return None; }
    var keys, wanted := Sort(index.value.keys, Codes), index.value.wanted;
    var result: seq<Mutation> := [];
    for i := 0 to |keys|
      invariant result == LabelPlan(keys[..i], wanted, live)
    {
      assert keys[..i + 1][..i] == keys[..i];
      var key := keys[i];
      if key in wanted {
        var spec := wanted[key];
        if key !in live.labels {
          result := result + [PostLabel(spec)];
        } else if Normal(live.labels[key]) != spec {
          result := result + [PatchLabel(live.labels[key].name, spec)];
        }
      }
    }
    assert keys[..|keys|] == keys;
    return Some(result);
  }

  method PlanFoundation(reg: Registry, live: Live) returns (plan: Option<seq<Mutation>>)
    ensures plan == Foundation(reg, live)
  {
    hide LabelPlan;
    var labels := PlanLabels(reg.labels, live);
    if labels.None? { return None; }
    var foundation := labels.value;
    for i := 0 to |reg.milestones|
      invariant foundation == labels.value + MilestonePlan(reg.milestones[..i], live)
    {
      assert reg.milestones[..i + 1][..i] == reg.milestones[..i];
      foundation := foundation + MilestoneStep(reg.milestones[i], live);
    }
    assert reg.milestones[..|reg.milestones|] == reg.milestones;
    return Some(foundation);
  }

  method PlanContent(reg: Registry, live: Live) returns (plan: Option<seq<Mutation>>)
    ensures plan == Content(reg, live)
  {
    var mutations: seq<Mutation>, managed := [], Managed(reg.specs);
    for i := 0 to |reg.specs|
      invariant mutations == IssuePlan(reg.specs[..i], managed, live)
    {
      assert reg.specs[..i + 1][..i] == reg.specs[..i];
      mutations := mutations + IssueStep(reg.specs[i], managed, live);
    }
    assert reg.specs[..|reg.specs|] == reg.specs;
    var existing := ExistingStep(reg, live);
    if existing.None? { return None; }
    return Some(mutations + existing.value);
  }

  method Build(reg: Registry, live: Live) returns (plan: Option<seq<Mutation>>)
    ensures plan == BuildPlan(reg, live)
  {
    plan := PlanFoundation(reg, live);
    if plan == Some([]) { plan := PlanContent(reg, live); }
  }
}
