/**
  The apply loop of the audit tracker (tools/audit_github.py): three rounds of read,
  plan and mutate, against a server that performs each mutation but may lose the
  response.
*/
module AuditSync {
  import opened Common
  import opened Ordering
  import opened AuditPlan

  // ---------- Well-formed registries and repositories ----------

  ghost predicate WellFormedRegistry(reg: Registry) {
    && DistinctFolds(reg.labels)
    && (forall i, j :: 0 <= i < j < |reg.milestones| ==> reg.milestones[i].title != reg.milestones[j].title)
    && (forall i, j :: 0 <= i < j < |reg.specs| ==> reg.specs[i].key != reg.specs[j].key)
    && (forall m :: m in reg.milestones ==> m.description.Some?)
    && (forall s :: s in reg.specs && s.milestone.Some? ==> exists m :: m in reg.milestones && m.title == s.milestone.value)
    && (exists m :: m in reg.milestones && m.title == reg.existingMilestone)
  }

  ghost predicate WellFormedLive(live: Live) {
    forall k :: k in live.labels ==> Fold(live.labels[k].name) == k
  }

  // ---------- What is settled ----------

  ghost predicate LabelSettled(spec: LabelSpec, live: Live) {
    Fold(spec.name) in live.labels && Normal(live.labels[Fold(spec.name)]) == Normal(spec)
  }

  ghost predicate MilestoneSettled(m: Milestone, live: Live) {
    m.title in live.milestones && live.milestones[m.title] == m
  }

  ghost predicate IssueSettled(spec: IssueSpec, managed: set<string>, live: Live) {
    spec.key in live.issues
    && var i := live.issues[spec.key];
       i.title == spec.title && i.body == spec.body && i.milestone == spec.milestone
       && i.labels == (i.labels - managed) + spec.labels
  }

  ghost predicate ExistingSettled(reg: Registry, live: Live) {
    live.existing.labels == (live.existing.labels - Managed(reg.specs)) + Required(reg)
    && live.existing.milestone == Some(reg.existingMilestone)
  }

  ghost predicate Grounded(reg: Registry, live: Live) {
    && (forall l :: l in reg.labels ==> LabelSettled(l, live))
    && (forall m :: m in reg.milestones ==> MilestoneSettled(m, live))
  }

  ghost predicate Filled(reg: Registry, live: Live) {
    && (forall s :: s in reg.specs ==> IssueSettled(s, Managed(reg.specs), live))
    && ExistingSettled(reg, live)
  }

  // ---------- What the plans contain ----------

  lemma NormalIdempotent(l: LabelSpec)
    ensures Normal(Normal(l)) == Normal(l)
  {
  }

  ghost predicate DistinctFolds(specs: seq<LabelSpec>) {
    forall i, j :: 0 <= i < j < |specs| ==> Fold(specs[i].name) != Fold(specs[j].name)
  }

  /** The index holds each label under its folded name, and nothing else. */
  ghost predicate Holds(specs: seq<LabelSpec>, x: Index) {
    && (forall k :: k in x.keys <==> k in x.wanted)
    && (forall k :: k in x.wanted ==> exists l :: l in specs && Fold(l.name) == k)
    && (forall l :: l in specs ==> Fold(l.name) in x.wanted && x.wanted[Fold(l.name)] == Normal(l))
  }

  lemma HoldsOneMore(specs: seq<LabelSpec>, x: Index, l: LabelSpec)
    requires Holds(specs, x) && Fold(l.name) !in x.wanted
    ensures Holds(specs + [l], Index(x.wanted[Fold(l.name) := Normal(l)], x.keys + [Fold(l.name)]))
  {
  }

  lemma AbsentFold(specs: seq<LabelSpec>, x: Index, l: LabelSpec)
    requires Holds(specs, x) && forall m :: m in specs ==> Fold(m.name) != Fold(l.name)
    ensures Fold(l.name) !in x.wanted
  {
  }

  lemma {:induction false} IndexedHolds(specs: seq<LabelSpec>)
    requires DistinctFolds(specs)
    ensures Indexed(specs).Some? && Holds(specs, Indexed(specs).value)
  {
    hide Fold;
    if specs != [] {
      var last := |specs| - 1;
      IndexedHolds(specs[..last]);
      var x := Indexed(specs[..last]).value;
      assert specs == specs[..last] + [specs[last]];
      AbsentFold(specs[..last], x, specs[last]);
      HoldsOneMore(specs[..last], x, specs[last]);
    }
  }

  lemma {:induction false} LabelPlanHolds(keys: seq<string>, wanted: map<string, LabelSpec>, live: Live)
    ensures forall m :: m in LabelPlan(keys, wanted, live) <==>
              exists k :: k in keys && k in wanted && m in LabelStep(wanted[k], k, live)
  {
    if keys != [] {
      LabelPlanHolds(keys[..|keys| - 1], wanted, live);
      assert keys == keys[..|keys| - 1] + [keys[|keys| - 1]];
    }
  }

  lemma {:induction false} MilestonePlanHolds(ms: seq<Milestone>, live: Live)
    ensures forall m :: m in MilestonePlan(ms, live) <==> exists x :: x in ms && m in MilestoneStep(x, live)
  {
    if ms != [] {
      MilestonePlanHolds(ms[..|ms| - 1], live);
      assert ms == ms[..|ms| - 1] + [ms[|ms| - 1]];
    }
  }

  lemma {:induction false} IssuePlanHolds(specs: seq<IssueSpec>, managed: set<string>, live: Live)
    ensures forall m :: m in IssuePlan(specs, managed, live) <==> exists s :: s in specs && m in IssueStep(s, managed, live)
  {
    if specs != [] {
      IssuePlanHolds(specs[..|specs| - 1], managed, live);
      assert specs == specs[..|specs| - 1] + [specs[|specs| - 1]];
    }
  }

  /** The foundation plan has one step for each unsettled label and milestone, and nothing else. */
  lemma FoundationHolds(reg: Registry, live: Live)
    requires WellFormedRegistry(reg)
    ensures Foundation(reg, live).Some?
    ensures forall m :: m in Foundation(reg, live).value <==>
              || (exists l :: l in reg.labels && m in LabelStep(Normal(l), Fold(l.name), live))
              || (exists x :: x in reg.milestones && m in MilestoneStep(x, live))
  {
    IndexedHolds(reg.labels);
    var x := Indexed(reg.labels).value;
    var keys := Sort(x.keys, Codes);
    SortElements(x.keys, Codes);
    LabelPlanHolds(keys, x.wanted, live);
    MilestonePlanHolds(reg.milestones, live);
    forall m ensures m in LabelPlan(keys, x.wanted, live) <==>
                     exists l :: l in reg.labels && m in LabelStep(Normal(l), Fold(l.name), live) {
      if l :| l in reg.labels && m in LabelStep(Normal(l), Fold(l.name), live) {
        assert Fold(l.name) in keys;
      }
      if k :| k in keys && k in x.wanted && m in LabelStep(x.wanted[k], k, live) {
        var l :| l in reg.labels && Fold(l.name) == k;
      }
    }
  }

  // ---------- The foundation round ----------

  /** A step that writes what the registry wants under its own key. */
  ghost predicate GoodBase(reg: Registry, live: Live, m: Mutation) {
    match m
    case PostLabel(s) => exists l :: l in reg.labels && s == Normal(l)
    case PatchLabel(c, s) => Fold(c) == Fold(s.name) && exists l :: l in reg.labels && s == Normal(l)
    case PostMilestone(x) => x in reg.milestones
    case PatchMilestone(x) => x in reg.milestones && x.title in live.milestones
    case _ => false
  }

  /** Whatever is unsettled has its step still to come. */
  ghost predicate BaseCovered(reg: Registry, live: Live, rest: seq<Mutation>) {
    && (forall m :: m in rest ==> GoodBase(reg, live, m))
    && (forall l :: l in reg.labels ==> LabelSettled(l, live) || exists m :: m in rest && KeyOf(m) == LabelKey(l.name))
    && (forall x :: x in reg.milestones ==> MilestoneSettled(x, live) || exists m :: m in rest && KeyOf(m) == MilestoneKey(x.title))
  }

  /** Nothing outside the registry's reach is touched, and issue state never is. */
  ghost predicate Keeps(reg: Registry, a: Live, b: Live) {
    var managed := Managed(reg.specs);
    && (forall k :: k in a.issues ==> k in b.issues && b.issues[k].open == a.issues[k].open
                                      && b.issues[k].labels - managed == a.issues[k].labels - managed)
    && a.existing.labels - managed <= b.existing.labels
    && b.existing.open == a.existing.open && b.existing.title == a.existing.title && b.existing.body == a.existing.body
    && (forall k :: k in a.labels && (forall l :: l in reg.labels ==> Fold(l.name) != k) ==>
                      k in b.labels && b.labels[k] == a.labels[k])
    && (forall t :: t in a.milestones && (forall x :: x in reg.milestones ==> x.title != t) ==>
                      t in b.milestones && b.milestones[t] == a.milestones[t])
  }

  lemma LabelUnique(reg: Registry, a: LabelSpec, b: LabelSpec)
    requires WellFormedRegistry(reg) && a in reg.labels && b in reg.labels && Fold(a.name) == Fold(b.name)
    ensures a == b
  {
  }

  lemma MilestoneUnique(reg: Registry, a: Milestone, b: Milestone)
    requires WellFormedRegistry(reg) && a in reg.milestones && b in reg.milestones && a.title == b.title
    ensures a == b
  {
  }

  lemma SpecUnique(reg: Registry, a: IssueSpec, b: IssueSpec)
    requires WellFormedRegistry(reg) && a in reg.specs && b in reg.specs && a.key == b.key
    ensures a == b
  {
  }

  lemma LabelWritten(reg: Registry, live: Live, m: Mutation, spec: LabelSpec)
    requires WellFormedRegistry(reg) && WellFormedLive(live) && spec in reg.labels
    requires m == PostLabel(Normal(spec)) || (m.PatchLabel? && m.spec == Normal(spec) && Fold(m.current) == Fold(spec.name))
    ensures var after := Apply(live, m);
            && after == live.(labels := live.labels[Fold(spec.name) := Normal(spec)])
            && LabelSettled(spec, after) && WellFormedLive(after)
            && (forall l :: l in reg.labels && LabelSettled(l, live) ==> LabelSettled(l, after))
  {
    NormalIdempotent(spec);
    var after := Apply(live, m);
    assert after.labels == live.labels[Fold(spec.name) := Normal(spec)];
    forall l | l in reg.labels && LabelSettled(l, live) ensures LabelSettled(l, after) {
      if Fold(l.name) == Fold(spec.name) { LabelUnique(reg, l, spec); }
    }
  }

  lemma MilestoneWritten(reg: Registry, live: Live, m: Mutation, x: Milestone)
    requires WellFormedRegistry(reg) && x in reg.milestones
    requires m == PostMilestone(x) || (m == PatchMilestone(x) && x.title in live.milestones)
    ensures var after := Apply(live, m);
            && after == live.(milestones := live.milestones[x.title := x])
            && MilestoneSettled(x, after)
            && (forall y :: y in reg.milestones && MilestoneSettled(y, live) ==> MilestoneSettled(y, after))
  {
    var after := Apply(live, m);
    forall y | y in reg.milestones && MilestoneSettled(y, live) ensures MilestoneSettled(y, after) {
      if y.title == x.title { MilestoneUnique(reg, x, y); }
    }
  }

  /** The item a foundation step is for is settled once the step is performed. */
  ghost predicate KeySettled(reg: Registry, live: Live, k: PlanKey) {
    match k
    case LabelKey(n) => exists l :: l in reg.labels && l.name == n && LabelSettled(l, live)
    case MilestoneKey(t) => exists x :: x in reg.milestones && x.title == t && MilestoneSettled(x, live)
    case IssueKey(k) => exists s :: s in reg.specs && s.key == k && IssueSettled(s, Managed(reg.specs), live)
    case ExistingKey => ExistingSettled(reg, live)
  }

  lemma BaseStep(reg: Registry, live: Live, m: Mutation)
    requires WellFormedRegistry(reg) && WellFormedLive(live) && GoodBase(reg, live, m)
    ensures var after := Apply(live, m);
            && WellFormedLive(after) && KeySettled(reg, after, KeyOf(m)) && Keeps(reg, live, after)
            && (forall l :: l in reg.labels && LabelSettled(l, live) ==> LabelSettled(l, after))
            && (forall x :: x in reg.milestones && MilestoneSettled(x, live) ==> MilestoneSettled(x, after))
            && (forall t :: t in live.milestones ==> t in after.milestones)
  {
    match m {
      case PostLabel(s) =>
        var l :| l in reg.labels && s == Normal(l);
        LabelWritten(reg, live, m, l);
      case PatchLabel(c, s) =>
        var l :| l in reg.labels && s == Normal(l);
        LabelWritten(reg, live, m, l);
      case PostMilestone(x) => MilestoneWritten(reg, live, m, x);
      case PatchMilestone(x) => MilestoneWritten(reg, live, m, x);
      case _ =>
    }
  }

  lemma GoodBaseKept(reg: Registry, a: Live, b: Live, m: Mutation)
    requires GoodBase(reg, a, m) && forall t :: t in a.milestones ==> t in b.milestones
    ensures GoodBase(reg, b, m)
  {
  }

  lemma BaseCoveredStep(reg: Registry, live: Live, rest: seq<Mutation>)
    requires WellFormedRegistry(reg) && WellFormedLive(live) && rest != [] && BaseCovered(reg, live, rest)
    ensures BaseCovered(reg, Apply(live, rest[0]), rest[1..])
  {
    var m, after := rest[0], Apply(live, rest[0]);
    assert m in rest && forall n :: n in rest ==> n == m || n in rest[1..];
    BaseStep(reg, live, m);
    forall n | n in rest[1..] ensures GoodBase(reg, after, n) { GoodBaseKept(reg, live, after, n); }
    forall l | l in reg.labels
      ensures LabelSettled(l, after) || exists n :: n in rest[1..] && KeyOf(n) == LabelKey(l.name)
    {
      if !LabelSettled(l, live) {
        var n :| n in rest && KeyOf(n) == LabelKey(l.name);
        if n == m {
          var w :| w in reg.labels && w.name == l.name && LabelSettled(w, after);
          LabelUnique(reg, w, l);
        }
      }
    }
    forall x | x in reg.milestones
      ensures MilestoneSettled(x, after) || exists n :: n in rest[1..] && KeyOf(n) == MilestoneKey(x.title)
    {
      if !MilestoneSettled(x, live) {
        var n :| n in rest && KeyOf(n) == MilestoneKey(x.title);
        if n == m {
          var w :| w in reg.milestones && w.title == x.title && MilestoneSettled(w, after);
          MilestoneUnique(reg, w, x);
        }
      }
    }
  }

  lemma FoundationGood(reg: Registry, live: Live, m: Mutation)
    requires WellFormedRegistry(reg) && WellFormedLive(live)
    requires Foundation(reg, live).Some? && m in Foundation(reg, live).value
    ensures GoodBase(reg, live, m) && !KeySettled(reg, live, KeyOf(m))
  {
    hide Indexed;
    FoundationHolds(reg, live);
    if l :| l in reg.labels && m in LabelStep(Normal(l), Fold(l.name), live) {
      assert KeyOf(m) == LabelKey(l.name) && !LabelSettled(l, live);
      forall w | w in reg.labels && w.name == l.name ensures w == l { LabelUnique(reg, w, l); }
    } else {
      var x :| x in reg.milestones && m in MilestoneStep(x, live);
      assert KeyOf(m) == MilestoneKey(x.title) && !MilestoneSettled(x, live);
      forall w | w in reg.milestones && w.title == x.title ensures w == x { MilestoneUnique(reg, w, x); }
    }
  }

  lemma FoundationSteps(reg: Registry, live: Live)
    requires WellFormedRegistry(reg) && Foundation(reg, live).Some?
    ensures forall l :: l in reg.labels && !LabelSettled(l, live) ==>
              exists m :: m in Foundation(reg, live).value && KeyOf(m) == LabelKey(l.name)
    ensures forall x :: x in reg.milestones && !MilestoneSettled(x, live) ==>
              exists m :: m in Foundation(reg, live).value && KeyOf(m) == MilestoneKey(x.title)
  {
    FoundationHolds(reg, live);
    var plan := Foundation(reg, live).value;
    forall l | l in reg.labels && !LabelSettled(l, live)
      ensures exists m :: m in plan && KeyOf(m) == LabelKey(l.name)
    {
      var m := LabelStep(Normal(l), Fold(l.name), live)[0];
      assert m in LabelStep(Normal(l), Fold(l.name), live) && m in plan;
    }
    forall x | x in reg.milestones && !MilestoneSettled(x, live)
      ensures exists m :: m in plan && KeyOf(m) == MilestoneKey(x.title)
    {
      var m := MilestoneStep(x, live)[0];
      assert m in MilestoneStep(x, live) && m in plan;
    }
  }

  lemma FoundationCovered(reg: Registry, live: Live)
    requires WellFormedRegistry(reg) && WellFormedLive(live)
    ensures Foundation(reg, live).Some? && BaseCovered(reg, live, Foundation(reg, live).value)
    ensures Foundation(reg, live).value == [] <==> Grounded(reg, live)
  {
    FoundationHolds(reg, live);
    FoundationSteps(reg, live);
    forall m | m in Foundation(reg, live).value ensures GoodBase(reg, live, m) { FoundationGood(reg, live, m); }
    SettledMeansNoStep(reg, live);
  }

  lemma SettledMeansNoStep(reg: Registry, live: Live)
    requires WellFormedRegistry(reg) && Foundation(reg, live).Some?
    ensures Grounded(reg, live) ==> Foundation(reg, live).value == []
  {
    FoundationHolds(reg, live);
    if Grounded(reg, live) {
      var plan := Foundation(reg, live).value;
      assert forall m :: m !in plan;
      HeadInPlan(plan);
    }
  }

  lemma HeadInPlan(plan: seq<Mutation>)
    ensures plan != [] ==> plan[0] in plan
  {
  }

  // ---------- The content round ----------

  ghost predicate GoodContent(reg: Registry, live: Live, m: Mutation) {
    var managed := Managed(reg.specs);
    match m
    case PostIssue(k, title, body, labels, milestone) =>
      k !in live.issues && IssueSpec(k, title, body, labels, milestone) in reg.specs
    case PatchIssue(k, title, body, labels, milestone) =>
      k in live.issues
      && exists s :: s in reg.specs && s.key == k && s.title == title && s.body == body && s.milestone == milestone
                     && labels == (live.issues[k].labels - managed) + s.labels
    case PatchExisting(labels, milestone) =>
      labels == (live.existing.labels - managed) + Required(reg) && milestone == Some(reg.existingMilestone)
    case _ => false
  }

  ghost predicate DistinctPlan(plan: seq<Mutation>) {
    forall i, j :: 0 <= i < j < |plan| ==> KeyOf(plan[i]) != KeyOf(plan[j])
  }

  ghost predicate ContentCovered(reg: Registry, live: Live, rest: seq<Mutation>) {
    && DistinctPlan(rest)
    && (forall m :: m in rest ==> GoodContent(reg, live, m))
    && (forall s :: s in reg.specs ==> IssueSettled(s, Managed(reg.specs), live) || exists m :: m in rest && KeyOf(m) == IssueKey(s.key))
    && (ExistingSettled(reg, live) || exists m :: m in rest && KeyOf(m) == ExistingKey)
  }

  lemma ManagedHolds(reg: Registry, s: IssueSpec)
    requires s in reg.specs
    ensures s.labels <= Managed(reg.specs)
  {
  }

  lemma IssueWritten(reg: Registry, live: Live, m: Mutation, s: IssueSpec, labels: set<string>, open: bool)
    requires WellFormedRegistry(reg) && s in reg.specs
    requires Apply(live, m) == live.(issues := live.issues[s.key := LiveIssue(s.title, s.body, labels, s.milestone, open)])
    requires labels == (labels - Managed(reg.specs)) + s.labels
    requires s.key in live.issues ==> open == live.issues[s.key].open
                                      && labels - Managed(reg.specs) == live.issues[s.key].labels - Managed(reg.specs)
    ensures var after := Apply(live, m);
            && IssueSettled(s, Managed(reg.specs), after) && Keeps(reg, live, after)
            && (forall t :: t in reg.specs && IssueSettled(t, Managed(reg.specs), live) ==> IssueSettled(t, Managed(reg.specs), after))
  {
    var after := Apply(live, m);
    forall t | t in reg.specs && IssueSettled(t, Managed(reg.specs), live)
      ensures IssueSettled(t, Managed(reg.specs), after)
    {
      if t.key == s.key { SpecUnique(reg, t, s); }
    }
  }

  lemma ContentStep(reg: Registry, live: Live, m: Mutation)
    requires WellFormedRegistry(reg) && GoodContent(reg, live, m)
    ensures var after := Apply(live, m);
            && KeySettled(reg, after, KeyOf(m)) && Keeps(reg, live, after)
            && after.labels == live.labels && after.milestones == live.milestones
            && (forall t :: t in reg.specs && IssueSettled(t, Managed(reg.specs), live) ==> IssueSettled(t, Managed(reg.specs), after))
            && (ExistingSettled(reg, live) ==> ExistingSettled(reg, after))
  {
    var managed := Managed(reg.specs);
    match m {
      case PostIssue(k, title, body, labels, milestone) =>
        var s := IssueSpec(k, title, body, labels, milestone);
        ManagedHolds(reg, s);
        assert labels == (labels - managed) + labels;
        IssueWritten(reg, live, m, s, labels, true);
      case PatchIssue(k, title, body, labels, milestone) =>
        var s :| s in reg.specs && s.key == k && s.title == title && s.body == body && s.milestone == milestone
                 && labels == (live.issues[k].labels - managed) + s.labels;
        ManagedHolds(reg, s);
        assert labels - managed == live.issues[k].labels - managed;
        IssueWritten(reg, live, m, s, labels, live.issues[k].open);
      case PatchExisting(labels, milestone) =>
        assert labels == (labels - managed) + Required(reg);
      case _ =>
    }
  }

  /** Two content steps with different keys do not disturb each other. */
  lemma GoodContentKept(reg: Registry, live: Live, m: Mutation, n: Mutation)
    requires GoodContent(reg, live, m) && GoodContent(reg, live, n) && KeyOf(m) != KeyOf(n)
    ensures GoodContent(reg, Apply(live, m), n)
  {
    var after := Apply(live, m);
    match n {
      case PatchIssue(k, title, body, labels, milestone) =>
        var s :| s in reg.specs && s.key == k && s.title == title && s.body == body && s.milestone == milestone
                 && labels == (live.issues[k].labels - Managed(reg.specs)) + s.labels;
        assert after.issues[k] == live.issues[k];
      case _ =>
    }
  }

  lemma ContentCoveredStep(reg: Registry, live: Live, rest: seq<Mutation>)
    requires WellFormedRegistry(reg) && rest != [] && ContentCovered(reg, live, rest)
    ensures ContentCovered(reg, Apply(live, rest[0]), rest[1..])
  {
    var m, after := rest[0], Apply(live, rest[0]);
    assert m in rest && forall n :: n in rest ==> n == m || n in rest[1..];
    ContentStep(reg, live, m);
    forall n | n in rest[1..] ensures GoodContent(reg, after, n) {
      assert n in rest;
      GoodContentKept(reg, live, m, n);
    }
    forall s | s in reg.specs
      ensures IssueSettled(s, Managed(reg.specs), after) || exists n :: n in rest[1..] && KeyOf(n) == IssueKey(s.key)
    {
      if !IssueSettled(s, Managed(reg.specs), live) {
        var n :| n in rest && KeyOf(n) == IssueKey(s.key);
        if n == m {
          var w :| w in reg.specs && w.key == s.key && IssueSettled(w, Managed(reg.specs), after);
          SpecUnique(reg, w, s);
        }
      }
    }
  }

  lemma IssueStepGood(reg: Registry, live: Live, s: IssueSpec)
    requires WellFormedRegistry(reg) && Grounded(reg, live) && s in reg.specs
    ensures var step := IssueStep(s, Managed(reg.specs), live);
            && (step == [] <==> IssueSettled(s, Managed(reg.specs), live))
            && |step| <= 1
            && (step != [] ==> GoodContent(reg, live, step[0]) && KeyOf(step[0]) == IssueKey(s.key))
  {
    if s.milestone.Some? {
      var x :| x in reg.milestones && x.title == s.milestone.value;
      assert MilestoneSettled(x, live);
    }
    assert MilestoneHandle(s.milestone, live) == s.milestone;
    assert s == IssueSpec(s.key, s.title, s.body, s.labels, s.milestone);
  }

  /** Each step of the plan is for an unsettled one of these issues. */
  ghost predicate StepsFor(reg: Registry, live: Live, specs: seq<IssueSpec>, plan: seq<Mutation>) {
    forall m :: m in plan ==>
      GoodContent(reg, live, m) && !KeySettled(reg, live, KeyOf(m)) && KeyOf(m).IssueKey?
      && exists s :: s in specs && KeyOf(m) == IssueKey(s.key)
  }

  ghost predicate StepsCover(reg: Registry, live: Live, specs: seq<IssueSpec>, plan: seq<Mutation>) {
    forall s :: s in specs ==>
      IssueSettled(s, Managed(reg.specs), live) || exists m :: m in plan && KeyOf(m) == IssueKey(s.key)
  }

  lemma UnsettledKey(reg: Registry, live: Live, s: IssueSpec)
    requires WellFormedRegistry(reg) && s in reg.specs && !IssueSettled(s, Managed(reg.specs), live)
    ensures !KeySettled(reg, live, IssueKey(s.key))
  {
  }

  lemma StepsForOneMore(reg: Registry, live: Live, specs: seq<IssueSpec>, s: IssueSpec, plan: seq<Mutation>)
    requires WellFormedRegistry(reg) && Grounded(reg, live) && s in reg.specs
    requires StepsFor(reg, live, specs, plan) && DistinctPlan(plan) && forall t :: t in specs ==> t.key != s.key
    ensures var all := plan + IssueStep(s, Managed(reg.specs), live);
            StepsFor(reg, live, specs + [s], all) && DistinctPlan(all)
  {
    var step := IssueStep(s, Managed(reg.specs), live);
    IssueStepGood(reg, live, s);
    forall m | m in plan + step
      ensures GoodContent(reg, live, m) && !KeySettled(reg, live, KeyOf(m)) && KeyOf(m).IssueKey?
      ensures exists t :: t in specs + [s] && KeyOf(m) == IssueKey(t.key)
    {
      if m in plan {
        var t :| t in specs && KeyOf(m) == IssueKey(t.key);
        assert t in specs + [s];
      } else {
        assert m == step[0];
        UnsettledKey(reg, live, s);
        assert s in specs + [s];
      }
    }
    assert forall i :: 0 <= i < |plan| ==> plan[i] in plan;
  }

  lemma StepsCoverOneMore(reg: Registry, live: Live, specs: seq<IssueSpec>, s: IssueSpec, plan: seq<Mutation>)
    requires WellFormedRegistry(reg) && Grounded(reg, live) && s in reg.specs && StepsCover(reg, live, specs, plan)
    ensures StepsCover(reg, live, specs + [s], plan + IssueStep(s, Managed(reg.specs), live))
  {
    var step := IssueStep(s, Managed(reg.specs), live);
    IssueStepGood(reg, live, s);
    forall t | t in specs + [s] && !IssueSettled(t, Managed(reg.specs), live)
      ensures exists m :: m in plan + step && KeyOf(m) == IssueKey(t.key)
    {
      if t in specs {
        var m :| m in plan && KeyOf(m) == IssueKey(t.key);
        assert m in plan + step;
      } else {
        assert step[0] in plan + step;
      }
    }
  }

  lemma {:induction false} IssuePlanCovers(reg: Registry, live: Live, specs: seq<IssueSpec>)
    requires WellFormedRegistry(reg) && Grounded(reg, live) && specs <= reg.specs
    ensures var plan := IssuePlan(specs, Managed(reg.specs), live);
            DistinctPlan(plan) && StepsFor(reg, live, specs, plan) && StepsCover(reg, live, specs, plan)
  {
    hide IssueStep;
    if specs != [] {
      var before, s := specs[..|specs| - 1], specs[|specs| - 1];
      assert specs == before + [s] && s == reg.specs[|specs| - 1];
      assert forall i :: 0 <= i < |before| ==> before[i] == reg.specs[i];
      IssuePlanCovers(reg, live, before);
      var plan := IssuePlan(before, Managed(reg.specs), live);
      StepsForOneMore(reg, live, before, s, plan);
      StepsCoverOneMore(reg, live, before, s, plan);
    }
  }

  lemma ExistingStepGood(reg: Registry, live: Live)
    requires WellFormedRegistry(reg) && Grounded(reg, live)
    ensures ExistingStep(reg, live).Some?
    ensures var step := ExistingStep(reg, live).value;
            && |step| <= 1 && (step == [] <==> ExistingSettled(reg, live))
            && (step != [] ==> GoodContent(reg, live, step[0]) && KeyOf(step[0]) == ExistingKey)
  {
    var x :| x in reg.milestones && x.title == reg.existingMilestone;
    assert MilestoneSettled(x, live);
  }

  lemma ContentDistinct(issues: seq<Mutation>, existing: seq<Mutation>)
    requires DistinctPlan(issues) && forall m :: m in issues ==> KeyOf(m).IssueKey?
    requires |existing| <= 1 && forall m :: m in existing ==> KeyOf(m) == ExistingKey
    ensures DistinctPlan(issues + existing)
  {
  }

  lemma ContentStepsGood(reg: Registry, live: Live, issues: seq<Mutation>, existing: seq<Mutation>)
    requires StepsFor(reg, live, reg.specs, issues)
    requires |existing| <= 1 && (existing != [] ==> !ExistingSettled(reg, live))
    requires existing != [] ==> GoodContent(reg, live, existing[0]) && KeyOf(existing[0]) == ExistingKey
    ensures forall m :: m in issues + existing ==> GoodContent(reg, live, m) && !KeySettled(reg, live, KeyOf(m))
  {
    forall m | m in issues + existing ensures GoodContent(reg, live, m) && !KeySettled(reg, live, KeyOf(m)) {
      if m !in issues { assert m == existing[0]; }
    }
  }

  lemma ContentStepsCover(reg: Registry, live: Live, issues: seq<Mutation>, existing: seq<Mutation>)
    requires StepsCover(reg, live, reg.specs, issues)
    requires existing == [] ==> ExistingSettled(reg, live)
    requires existing != [] ==> KeyOf(existing[0]) == ExistingKey
    ensures StepsCover(reg, live, reg.specs, issues + existing)
    ensures ExistingSettled(reg, live) || exists m :: m in issues + existing && KeyOf(m) == ExistingKey
  {
  }

  /** With labels and milestones settled, the content plan is right, and empty only when everything is. */
  lemma ContentIsCovered(reg: Registry, live: Live)
    requires WellFormedRegistry(reg) && Grounded(reg, live)
    ensures Content(reg, live).Some?
    ensures var plan := Content(reg, live).value;
            && ContentCovered(reg, live, plan)
            && (forall m :: m in plan ==> !KeySettled(reg, live, KeyOf(m)))
            && (plan == [] <==> Filled(reg, live))
  {
    IssuePlanCovers(reg, live, reg.specs);
    ExistingStepGood(reg, live);
    var issues, existing := IssuePlan(reg.specs, Managed(reg.specs), live), ExistingStep(reg, live).value;
    ContentDistinct(issues, existing);
    ContentStepsGood(reg, live, issues, existing);
    ContentStepsCover(reg, live, issues, existing);
    if Filled(reg, live) { FilledNoIssueStep(reg, live); }
  }

  lemma FilledNoIssueStep(reg: Registry, live: Live)
    requires WellFormedRegistry(reg) && Grounded(reg, live) && Filled(reg, live)
    ensures IssuePlan(reg.specs, Managed(reg.specs), live) == []
  {
    var plan := IssuePlan(reg.specs, Managed(reg.specs), live);
    IssuePlanHolds(reg.specs, Managed(reg.specs), live);
    forall s | s in reg.specs ensures IssueStep(s, Managed(reg.specs), live) == [] { IssueStepGood(reg, live, s); }
    HeadInPlan(plan);
  }

  // ---------- The apply loop ----------

  /** The plan is empty exactly when labels, milestones, issues and the existing issue are all settled. */
  lemma EmptyPlanIsSettled(reg: Registry, live: Live)
    requires WellFormedRegistry(reg) && WellFormedLive(live)
    ensures BuildPlan(reg, live).Some?
    ensures BuildPlan(reg, live).value == [] <==> Grounded(reg, live) && Filled(reg, live)
    ensures forall m :: m in BuildPlan(reg, live).value ==> !KeySettled(reg, live, KeyOf(m))
  {
    FoundationCovered(reg, live);
    if Grounded(reg, live) {
      ContentIsCovered(reg, live);
    } else {
      forall m | m in Foundation(reg, live).value ensures !KeySettled(reg, live, KeyOf(m)) {
        FoundationGood(reg, live, m);
      }
    }
  }

  lemma KeepsTransitive(reg: Registry, a: Live, b: Live, c: Live)
    requires Keeps(reg, a, b) && Keeps(reg, b, c)
    ensures Keeps(reg, a, c)
  {
  }

  datatype SyncState = Planned | Applied | Verified

  datatype Outcome = Reached(state: SyncState) | Drifted | OutcomeUnknown | NotConverged
                   | BadInput | IllegalTransition

  // ---------- The outcome, field by field ----------

  /** The same letter, or one and its capital. */
  predicate SameLetter(a: char, b: char) {
    a == b || ('A' <= a <= 'Z' && b as int == a as int + 32) || ('A' <= b <= 'Z' && a as int == b as int + 32)
  }

  ghost predicate UpToCase(s: string, t: string) {
    |s| == |t| && forall i :: 0 <= i < |s| ==> SameLetter(s[i], t[i])
  }

  lemma FoldMeans(s: string, t: string)
    ensures Fold(s) == Fold(t) <==> UpToCase(s, t)
  {
    if Fold(s) == Fold(t) {
      assert |s| == |Fold(s)| == |Fold(t)| == |t|;
      forall i | 0 <= i < |s| ensures SameLetter(s[i], t[i]) {
        assert Fold(s)[i] == FoldChar(s[i]) && Fold(t)[i] == FoldChar(t[i]);
      }
    }
  }

  /** The repository has this label under its name, with its description, and its color up to case. */
  ghost predicate HasLabel(spec: LabelSpec, live: Live) {
    exists k :: k in live.labels && live.labels[k].name == spec.name
                && live.labels[k].description == spec.description && UpToCase(live.labels[k].color, spec.color)
  }

  /** Some specified issue has this label. */
  ghost predicate Claimed(reg: Registry, l: string) { exists s :: s in reg.specs && l in s.labels }

  /** The issue has the specified title, body and milestone, its own labels, and none that only others should have. */
  ghost predicate HasIssue(reg: Registry, spec: IssueSpec, live: Live) {
    && spec.key in live.issues
    && live.issues[spec.key].title == spec.title && live.issues[spec.key].body == spec.body
    && live.issues[spec.key].milestone == spec.milestone
    && (forall l :: l in spec.labels ==> l in live.issues[spec.key].labels)
    && (forall l :: l in live.issues[spec.key].labels && Claimed(reg, l) ==> l in spec.labels)
  }

  ghost predicate HasExisting(reg: Registry, live: Live) {
    && reg.auditLabel in live.existing.labels && "priority:p1" in live.existing.labels
    && "bug" in live.existing.labels && "ready-for-agent" in live.existing.labels
    && (forall l :: l in live.existing.labels && Claimed(reg, l) ==>
          l == reg.auditLabel || l == "priority:p1" || l == "bug" || l == "ready-for-agent")
    && live.existing.milestone == Some(reg.existingMilestone)
  }

  /** Everything is as the registry says. */
  ghost predicate AsWanted(reg: Registry, live: Live) {
    && (forall l :: l in reg.labels ==> HasLabel(l, live))
    && (forall m :: m in reg.milestones ==> m.title in live.milestones && live.milestones[m.title] == m)
    && (forall s :: s in reg.specs ==> HasIssue(reg, s, live))
    && HasExisting(reg, live)
  }

  /** What synchronization leaves alone. */
  ghost predicate Spared(reg: Registry, a: Live, b: Live) {
    && (forall k :: k in a.issues ==> k in b.issues && b.issues[k].open == a.issues[k].open)
    && (forall k, l :: k in a.issues && k in b.issues && !Claimed(reg, l) ==> (l in b.issues[k].labels <==> l in a.issues[k].labels))
    && (forall l :: l in a.existing.labels && !Claimed(reg, l) ==> l in b.existing.labels)
    && b.existing.open == a.existing.open && b.existing.title == a.existing.title && b.existing.body == a.existing.body
    && (forall k :: k in a.labels && Unnamed(reg, a.labels[k].name) ==> k in b.labels && b.labels[k] == a.labels[k])
    && (forall t :: t in a.milestones && (forall m :: m in reg.milestones ==> m.title != t) ==>
          t in b.milestones && b.milestones[t] == a.milestones[t])
  }

  /** No registry label has this name, up to case. */
  ghost predicate Unnamed(reg: Registry, name: string) { forall l :: l in reg.labels ==> !UpToCase(l.name, name) }

  lemma LabelSettledMeans(spec: LabelSpec, live: Live)
    requires WellFormedLive(live)
    ensures LabelSettled(spec, live) <==> HasLabel(spec, live)
  {
    hide Fold;
    var k := Fold(spec.name);
    if k in live.labels { FoldMeans(live.labels[k].color, spec.color); }
    if HasLabel(spec, live) {
      var j :| j in live.labels && live.labels[j].name == spec.name
               && live.labels[j].description == spec.description && UpToCase(live.labels[j].color, spec.color);
      assert j == k;
    }
  }

  lemma ManagedMeans(reg: Registry, l: string)
    ensures l in Managed(reg.specs) <==> Claimed(reg, l)
  {
  }

  lemma IssueSettledMeans(reg: Registry, spec: IssueSpec, live: Live)
    ensures IssueSettled(spec, Managed(reg.specs), live) <==> HasIssue(reg, spec, live)
  {
    hide Managed, Claimed;
    if spec.key in live.issues {
      var labels, managed := live.issues[spec.key].labels, Managed(reg.specs);
      forall l ensures l in managed <==> Claimed(reg, l) { ManagedMeans(reg, l); }
      LabelsAsWanted(labels, managed, spec.labels);
    }
  }

  lemma LabelsAsWanted(labels: set<string>, managed: set<string>, wanted: set<string>)
    ensures labels == (labels - managed) + wanted <==>
      (forall l :: l in wanted ==> l in labels) && forall l :: l in labels && l in managed ==> l in wanted
  {
  }

  lemma ExistingSettledMeans(reg: Registry, live: Live)
    ensures ExistingSettled(reg, live) <==> HasExisting(reg, live)
  {
    hide Managed, Claimed;
    forall l ensures l in Managed(reg.specs) <==> Claimed(reg, l) { ManagedMeans(reg, l); }
    LabelsAsWanted(live.existing.labels, Managed(reg.specs), Required(reg));
    assert forall l :: l in Required(reg) <==> l == reg.auditLabel || l == "priority:p1" || l == "bug" || l == "ready-for-agent";
  }

  lemma SettledMeans(reg: Registry, live: Live)
    requires WellFormedLive(live)
    ensures Grounded(reg, live) && Filled(reg, live) <==> AsWanted(reg, live)
  {
    hide LabelSettled, HasLabel, IssueSettled, HasIssue, ExistingSettled, HasExisting, WellFormedLive;
    forall l | l in reg.labels ensures LabelSettled(l, live) <==> HasLabel(l, live) { LabelSettledMeans(l, live); }
    forall s | s in reg.specs ensures IssueSettled(s, Managed(reg.specs), live) <==> HasIssue(reg, s, live) {
      IssueSettledMeans(reg, s, live);
    }
    ExistingSettledMeans(reg, live);
  }

  lemma KeepsMeans(reg: Registry, a: Live, b: Live)
    requires Keeps(reg, a, b) && WellFormedLive(a)
    ensures Spared(reg, a, b)
  {
    hide Managed, Claimed, Fold, UpToCase;
    var managed := Managed(reg.specs);
    forall l ensures l in managed <==> Claimed(reg, l) { ManagedMeans(reg, l); }
    forall k, l | k in a.issues && !Claimed(reg, l) ensures l in b.issues[k].labels <==> l in a.issues[k].labels {
      assert l in b.issues[k].labels - managed <==> l in a.issues[k].labels - managed;
    }
    forall k | k in a.labels && Unnamed(reg, a.labels[k].name)
      ensures k in b.labels && b.labels[k] == a.labels[k]
    {
      forall l | l in reg.labels ensures Fold(l.name) != k { FoldMeans(l.name, a.labels[k].name); }
    }
  }

  /** The index refuses exactly two labels whose names differ only in case. */
  lemma {:induction false} IndexedMeans(specs: seq<LabelSpec>)
    ensures Indexed(specs).Some? <==> forall i, j :: 0 <= i < j < |specs| ==> !UpToCase(specs[i].name, specs[j].name)
    ensures Indexed(specs).Some? ==> forall k :: k in Indexed(specs).value.wanted <==> NameAt(specs, k)
  {
    hide UpToCase, Fold, Normal;
    if specs != [] {
      var n := |specs| - 1;
      IndexedMeans(specs[..n]);
      forall i | 0 <= i < n ensures Fold(specs[i].name) == Fold(specs[n].name) <==> UpToCase(specs[i].name, specs[n].name) {
        FoldMeans(specs[i].name, specs[n].name);
      }
      forall k ensures NameAt(specs, k) <==> NameAt(specs[..n], k) || k == Fold(specs[n].name) { NameAtMore(specs, k); }
    }
  }

  ghost predicate NameAt(specs: seq<LabelSpec>, k: string) { exists i :: 0 <= i < |specs| && Fold(specs[i].name) == k }

  lemma NameAtMore(specs: seq<LabelSpec>, k: string)
    requires specs != []
    ensures NameAt(specs, k) <==> NameAt(specs[..|specs| - 1], k) || k == Fold(specs[|specs| - 1].name)
  {
    hide Fold;
    var less := specs[..|specs| - 1];
    if i :| 0 <= i < |less| && Fold(less[i].name) == k { assert Fold(specs[i].name) == k; }
    if i :| 0 <= i < |specs| && Fold(specs[i].name) == k && i < |less| { assert Fold(less[i].name) == k; }
  }

  /** States only advance PLANNED, APPLIED, VERIFIED, one at a time. */
  function TransitionSync(current: SyncState, target: SyncState): Outcome {
    if current == target || (current == Planned && target == Applied) || (current == Applied && target == Verified)
    then Reached(target) else IllegalTransition
  }

  /** The repository behind the client: each mutation is performed, and its response may be lost. */
  class Server {
    var live: Live
    var sent: seq<Mutation>

    constructor (live: Live)
      ensures this.live == live && sent == []
    {
      this.live, sent := live, [];
    }

    method Mutate(m: Mutation) returns (answered: bool)
      modifies this
      ensures live == Apply(old(live), m) && sent == old(sent) + [m]
    {
      live, sent := Apply(live, m), sent + [m];
      answered := *;
    }
  }

  lemma KeepsSelf(reg: Registry, live: Live)
    ensures Keeps(reg, live, live)
  {
  }

  /** When nothing of a plan is left, what it was for is settled. */
  lemma CoveredDone(reg: Registry, live: Live, base: bool)
    requires Covered(reg, live, [], base)
    ensures Grounded(reg, live) && (!base ==> Filled(reg, live))
  {
  }

  /** One mutation of the plan; after a lost response the plan must no longer hold its key. */
  method Perform(server: Server, reg: Registry, m: Mutation) returns (unknown: bool)
    requires WellFormedRegistry(reg) && WellFormedLive(Apply(server.live, m))
    requires KeySettled(reg, Apply(server.live, m), KeyOf(m))
    modifies server
    ensures server.live == Apply(old(server.live), m) && server.sent == old(server.sent) + [m] && !unknown
  {
    var answered := server.Mutate(m);
    unknown := false;
    if !answered {
      EmptyPlanIsSettled(reg, server.live);
      var remaining := Build(reg, server.live);
      unknown := remaining.None? || exists r | r in remaining.value :: KeyOf(r) == KeyOf(m);
    }
  }

  /** What is left of a foundation plan, or of a content plan once the foundation is settled. */
  ghost predicate Covered(reg: Registry, live: Live, rest: seq<Mutation>, base: bool) {
    if base then BaseCovered(reg, live, rest) else Grounded(reg, live) && ContentCovered(reg, live, rest)
  }

  lemma CoveredStep(reg: Registry, live: Live, rest: seq<Mutation>, base: bool)
    requires WellFormedRegistry(reg) && WellFormedLive(live) && rest != [] && Covered(reg, live, rest, base)
    ensures var after := Apply(live, rest[0]);
            && WellFormedLive(after) && Covered(reg, after, rest[1..], base)
            && Keeps(reg, live, after) && KeySettled(reg, after, KeyOf(rest[0]))
  {
    assert rest[0] in rest;
    if base {
      BaseStep(reg, live, rest[0]);
      BaseCoveredStep(reg, live, rest);
    } else {
      ContentStep(reg, live, rest[0]);
      ContentCoveredStep(reg, live, rest);
    }
  }

  lemma CoveredAt(reg: Registry, start: Live, live: Live, plan: seq<Mutation>, i: nat, base: bool)
    requires WellFormedRegistry(reg) && WellFormedLive(live) && i < |plan| && Covered(reg, live, plan[i..], base)
    requires Keeps(reg, start, live)
    ensures var after := Apply(live, plan[i]);
            && WellFormedLive(after) && Covered(reg, after, plan[i + 1..], base)
            && Keeps(reg, start, after) && KeySettled(reg, after, KeyOf(plan[i]))
    ensures plan[..i + 1] == plan[..i] + [plan[i]]
  {
    hide BaseCovered, ContentCovered;
    assert plan[i..][0] == plan[i] && plan[i..][1..] == plan[i + 1..];
    CoveredStep(reg, live, plan[i..], base);
    KeepsTransitive(reg, start, live, Apply(live, plan[i]));
  }

  /** A plan performed whole settles what it was for, whichever responses are lost. */
  method ApplyPlan(server: Server, reg: Registry, plan: seq<Mutation>, ghost base: bool) returns (unknown: bool)
    requires WellFormedRegistry(reg) && WellFormedLive(server.live) && Covered(reg, server.live, plan, base)
    modifies server
    ensures !unknown && WellFormedLive(server.live) && Covered(reg, server.live, [], base)
    ensures Keeps(reg, old(server.live), server.live) && server.sent == old(server.sent) + plan
  {
    hide Covered;
    for i := 0 to |plan|
      invariant WellFormedLive(server.live) && Covered(reg, server.live, plan[i..], base)
      invariant Keeps(reg, old(server.live), server.live) && server.sent == old(server.sent) + plan[..i]
    {
      CoveredAt(reg, old(server.live), server.live, plan, i, base);
      var lost := Perform(server, reg, plan[i]);
      if lost { return true; }
    }
    assert plan[|plan|..] == [] && plan[..|plan|] == plan;
    return false;
  }

  /**
    Convergence: from every well-formed repository, and whatever responses are lost, a
    planned or applied synchronization ends APPLIED within its three rounds with every
    label, milestone and issue as the registry says; a verified one sends nothing, and is
    confirmed exactly when they are, or rejected as drifted.
  */
  method Synchronize(server: Server, reg: Registry, state: SyncState) returns (r: Outcome)
    requires WellFormedRegistry(reg) && WellFormedLive(server.live)
    modifies server
    ensures WellFormedLive(server.live) && Keeps(reg, old(server.live), server.live)
    ensures !state.Verified? ==> r == Reached(Applied) && AsWanted(reg, server.live)
    ensures state.Verified? ==> server.live == old(server.live) && server.sent == old(server.sent)
    ensures state.Verified? ==>
      r == if AsWanted(reg, server.live) then Reached(Verified) else Drifted
    ensures Spared(reg, old(server.live), server.live)
  {
    hide AsWanted, Spared, Keeps, WellFormedRegistry, WellFormedLive, BaseCovered, ContentCovered, Grounded, Filled;
    r := NotConverged;
    KeepsSelf(reg, server.live);
    for round := 0 to 3
      invariant r == NotConverged && WellFormedLive(server.live) && Keeps(reg, old(server.live), server.live)
      invariant state.Verified? ==> round == 0 && server.live == old(server.live) && server.sent == old(server.sent)
      invariant round >= 1 ==> Grounded(reg, server.live)
      invariant round >= 2 ==> round == 2 && Filled(reg, server.live)
    {
      FoundationCovered(reg, server.live);
      EmptyPlanIsSettled(reg, server.live);
      SettledMeans(reg, server.live);
      KeepsMeans(reg, old(server.live), server.live);
      var plan := Build(reg, server.live);
      if plan.None? { return BadInput; }
      if plan.value == [] {
        return if state.Verified? then Reached(Verified) else TransitionSync(state, Applied);
      }
      if state.Verified? { return Drifted; }
      ghost var base := !Grounded(reg, server.live);
      if !base { ContentIsCovered(reg, server.live); }
      ghost var before := server.live;
      var unknown := ApplyPlan(server, reg, plan.value, base);
      CoveredDone(reg, server.live, base);
      KeepsTransitive(reg, old(server.live), before, server.live);
      if unknown { return OutcomeUnknown; }
    }
    assert false;
  }

  // ---------- The order of the labels ----------

  /** Equal up to this place, and earlier in the character set there. */
  ghost predicate EarlierAt(a: string, b: string, k: int) { 0 <= k < |a| && k < |b| && a[..k] == b[..k] && a[k] < b[k] }

  lemma {:induction false} KeysDistinct(specs: seq<LabelSpec>, i: int, j: int)
    requires Indexed(specs).Some? && 0 <= i < j < |Indexed(specs).value.keys|
    ensures Indexed(specs).value.keys[i] != Indexed(specs).value.keys[j]
  {
    hide Fold, Normal;
    var before := Indexed(specs[..|specs| - 1]).value;
    if j < |before.keys| { KeysDistinct(specs[..|specs| - 1], i, j); } else { KeysIndexed(specs[..|specs| - 1]); }
  }

  lemma {:induction false} KeysIndexed(specs: seq<LabelSpec>)
    requires Indexed(specs).Some?
    ensures forall k :: k in Indexed(specs).value.keys ==> k in Indexed(specs).value.wanted
  {
    hide Fold, Normal;
    if specs != [] { KeysIndexed(specs[..|specs| - 1]); }
  }

  lemma CodesApart(a: string, b: string)
    requires a != b
    ensures Codes(a) != Codes(b)
  {
    if |a| == |b| {
      var k :| 0 <= k < |a| && a[k] != b[k];
      assert Codes(a)[k] != Codes(b)[k];
    }
  }

  lemma CodesEarlier(a: string, b: string)
    requires Less(Codes(a), Codes(b))
    ensures (exists k :: EarlierAt(a, b, k)) || (|a| < |b| && a == b[..|a|])
  {
    LessMeans(Codes(a), Codes(b));
    if k :| LessAt(Codes(a), Codes(b), k) {
      forall i | 0 <= i < k ensures a[i] == b[i] { assert Codes(a)[..k][i] == Codes(b)[..k][i]; }
      assert EarlierAt(a, b, k);
    } else {
      forall i | 0 <= i < |a| ensures a[i] == b[i] { assert Codes(a)[i] == Codes(b)[..|a|][i]; }
    }
  }

  /** The labels are planned in the alphabetical order of their folded names. */
  lemma KeysInOrder(specs: seq<LabelSpec>, i: int, j: int)
    requires Indexed(specs).Some? && 0 <= i < j < |Sort(Indexed(specs).value.keys, Codes)|
    ensures var keys := Sort(Indexed(specs).value.keys, Codes);
      (exists k :: EarlierAt(keys[i], keys[j], k)) || (|keys[i]| < |keys[j]| && keys[i] == keys[j][..|keys[i]|])
  {
    hide Indexed, EarlierAt;
    var keys := Indexed(specs).value.keys;
    forall x, y | 0 <= x < y < |keys| ensures Codes(keys[x]) != Codes(keys[y]) {
      KeysDistinct(specs, x, y);
      CodesApart(keys[x], keys[y]);
    }
    SortAscending(keys, Codes);
    CodesEarlier(Sort(keys, Codes)[i], Sort(keys, Codes)[j]);
  }
}
