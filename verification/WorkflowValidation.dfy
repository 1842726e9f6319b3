/** The refinement of WorkflowDefinitionSchema in packages/contracts/src/orchestration.ts: which
    definitions it accepts, and that accepted ones can be scheduled. A value reference is kept
    parsed: it names a step or a workflow argument. */
module WorkflowValidation {
  import opened Sequences
  import opened Wrappers
  import opened CycleSearch

  datatype Source = FromStep(id: string) | FromArguments

  datatype Argument = Literal | Reference(source: Source)

  datatype Resources = Resources(group: string, maxConcurrency: nat)

  datatype Kind =
    | Agent(inputs: seq<Source>, resources: Option<Resources>)
    | ToolCall(inputs: seq<Source>)
    | Recording(inputs: seq<Source>)
    | Foreach(items: Source, inputs: seq<Source>, resources: Option<Resources>)
    | Condition(left: Source, whenTrue: seq<string>, whenFalse: seq<string>)
    | Nested(args: seq<Argument>)

  /** placeholders are the names in {{inputs.name}} of an agent task, empty for other steps. */
  datatype Step = Step(id: string, dependsOn: seq<string>, kind: Kind, placeholders: seq<string>)

  /** An absent or empty outputStepId is "". */
  datatype Definition = Definition(steps: seq<Step>, outputStepId: string, inputs: Option<set<string>>)

  datatype Issue =
    | DuplicateId | SelfDependency | UnknownDependency | UnknownSource | IndirectSource | ForeachNeedsStep
    | RepeatedBranch | SelfBranch | UnknownBranch | IndependentBranch
    | ResourceMismatch | UnknownOutput | UnknownPlaceholder | Cycle

  // ---------- which definitions are well formed ----------

  function Ids(steps: seq<Step>): set<string> {
    set s | s in steps :: s.id
  }

  ghost predicate DistinctIds(steps: seq<Step>) {
    forall i, j | 0 <= i < j < |steps| :: steps[i].id != steps[j].id
  }

  /** The references a step reads, in the order they are checked. */
  function Sources(kind: Kind): seq<Source> {
    match kind
    case Agent(inputs, _) => inputs
    case ToolCall(inputs) => inputs
    case Recording(inputs) => inputs
    case Foreach(items, inputs, _) => inputs + [items]
    case Condition(left, _, _) => [left]
    case Nested(args) => ReferencedSources(args)
  }

  function ReferencedSources(args: seq<Argument>): seq<Source> {
    if args == [] then []
    else (if args[0].Reference? then [args[0].source] else []) + ReferencedSources(args[1..])
  }

  ghost predicate SourceAccepted(source: Source, step: Step, ids: set<string>) {
    source.FromStep? ==> source.id in ids && source.id in step.dependsOn
  }

  function FirstWithId(steps: seq<Step>, id: string): Option<Step> {
    if steps == [] then None
    else if steps[0].id == id then Some(steps[0])
    else FirstWithId(steps[1..], id)
  }

  function Branches(kind: Kind): seq<string> {
    if kind.Condition? then kind.whenTrue + kind.whenFalse else []
  }

  ghost predicate BranchAccepted(branch: string, step: Step, steps: seq<Step>) {
    branch != step.id && branch in Ids(steps)
    && (FirstWithId(steps, branch).Some? ==> step.id in FirstWithId(steps, branch).value.dependsOn)
  }

  ghost predicate StepAccepted(step: Step, steps: seq<Step>) {
    && (forall d | d in step.dependsOn :: d != step.id && d in Ids(steps))
    && (forall s | s in Sources(step.kind) :: SourceAccepted(s, step, Ids(steps)))
    && (step.kind.Foreach? ==> step.kind.items.FromStep?)
    && Distinct(Branches(step.kind))
    && forall b | b in Branches(step.kind) :: BranchAccepted(b, step, steps)
  }

  function StepResources(kind: Kind): Option<Resources> {
    match kind
    case Agent(_, r) => r
    case Foreach(_, _, r) => r
    case _ => None
  }

  ghost predicate ResourcesAgree(steps: seq<Step>) {
    forall i, j | 0 <= i < j < |steps| ::
      var a, b := StepResources(steps[i].kind), StepResources(steps[j].kind);
      a.Some? && b.Some? && a.value.group == b.value.group ==> a.value.maxConcurrency == b.value.maxConcurrency
  }

  ghost predicate PlaceholdersDeclared(steps: seq<Step>, inputs: set<string>) {
    forall s, p | s in steps && p in s.placeholders :: p in inputs
  }

  /** Later steps with the same id replace earlier ones, as in a Map. */
  function DependencyMap(steps: seq<Step>): Dependencies {
    if steps == [] then map[]
    else DependencyMap(steps[..|steps| - 1])[steps[|steps| - 1].id := steps[|steps| - 1].dependsOn]
  }

  ghost predicate Accepted(d: Definition) {
    && DistinctIds(d.steps)
    && (forall s | s in d.steps :: StepAccepted(s, d.steps))
    && ResourcesAgree(d.steps)
    && (d.outputStepId != "" ==> d.outputStepId in Ids(d.steps))
    && (d.inputs.Some? ==> PlaceholdersDeclared(d.steps, d.inputs.value))
    && !HasCycle(DependencyMap(d.steps))
  }

  // ---------- the checks ----------

  method CheckIds(steps: seq<Step>) returns (stepIds: set<string>, issues: seq<Issue>)
    ensures stepIds == Ids(steps)
    ensures issues == [] <==> DistinctIds(steps)
  {
    stepIds, issues := {}, [];
    for index := 0 to |steps|
      invariant stepIds == Ids(steps[..index])
      invariant issues == [] <==> DistinctIds(steps[..index])
    {
      assert steps[..index + 1] == steps[..index] + [steps[index]];
      if steps[index].id in stepIds {
        issues := issues + [DuplicateId];
      }
      stepIds := stepIds + {steps[index].id};
    }
    assert steps[..|steps|] == steps;
  }

  method CheckDependencies(step: Step, stepIds: set<string>) returns (issues: seq<Issue>)
    ensures issues == [] <==> forall d | d in step.dependsOn :: d != step.id && d in stepIds
  {
    issues := [];
    for index := 0 to |step.dependsOn|
      invariant issues == [] <==> forall i | 0 <= i < index :: step.dependsOn[i] != step.id && step.dependsOn[i] in stepIds
    {
      if step.dependsOn[index] == step.id {
        issues := issues + [SelfDependency];
      } else if step.dependsOn[index] !in stepIds {
        issues := issues + [UnknownDependency];
      }
    }
    assert forall i | 0 <= i < |step.dependsOn| :: step.dependsOn[i] in step.dependsOn;
  }

  method CheckSources(step: Step, stepIds: set<string>) returns (issues: seq<Issue>)
    ensures issues == [] <==> forall s | s in Sources(step.kind) :: SourceAccepted(s, step, stepIds)
  {
    issues := [];
    var sources := Sources(step.kind);
    for index := 0 to |sources|
      invariant issues == [] <==> forall i | 0 <= i < index :: SourceAccepted(sources[i], step, stepIds)
    {
      match sources[index] {
        case FromArguments =>
        case FromStep(id) =>
          if id !in stepIds {
            issues := issues + [UnknownSource];
          } else if id !in step.dependsOn {
            issues := issues + [IndirectSource];
          }
      }
    }
  }

  method CheckBranches(step: Step, steps: seq<Step>, stepIds: set<string>) returns (issues: seq<Issue>)
    requires stepIds == Ids(steps)
    ensures issues == [] <==>
              Distinct(Branches(step.kind)) && forall b | b in Branches(step.kind) :: BranchAccepted(b, step, steps)
  {
    issues := [];
    var branchIds := Branches(step.kind);
    var seen := {};
    for index := 0 to |branchIds|
      invariant seen == set i | 0 <= i < index :: branchIds[i]
      invariant issues == [] <==>
                  Distinct(branchIds[..index]) && forall i | 0 <= i < index :: BranchAccepted(branchIds[i], step, steps)
    {
      var branchId := branchIds[index];
      assert branchIds[..index + 1] == branchIds[..index] + [branchId];
      if branchId in seen {
        issues := issues + [RepeatedBranch];
      }
      seen := seen + {branchId};
      if branchId == step.id {
        issues := issues + [SelfBranch];
      } else if branchId !in stepIds {
        issues := issues + [UnknownBranch];
      } else {
        var branch := FirstWithId(steps, branchId);
        if branch.Some? && step.id !in branch.value.dependsOn {
          issues := issues + [IndependentBranch];
        }
      }
    }
    assert branchIds[..|branchIds|] == branchIds;
  }

  method CheckStep(step: Step, steps: seq<Step>, stepIds: set<string>) returns (issues: seq<Issue>)
    requires stepIds == Ids(steps)
    ensures issues == [] <==> StepAccepted(step, steps)
  {
    hide Ids, Distinct, BranchAccepted, SourceAccepted;
    var dependencies := CheckDependencies(step, stepIds);
    var sources := CheckSources(step, stepIds);
    var foreachIssues := if step.kind.Foreach? && !step.kind.items.FromStep? then [ForeachNeedsStep] else [];
    var branches := CheckBranches(step, steps, stepIds);
    issues := dependencies + sources + foreachIssues + branches;
  }

  method CheckResources(steps: seq<Step>) returns (issues: seq<Issue>)
    ensures issues == [] <==> ResourcesAgree(steps)
  {
    issues := [];
    var resourceGroups: map<string, nat> := map[];
    for index := 0 to |steps|
      invariant issues == [] <==> ResourcesAgree(steps[..index])
      invariant forall i | 0 <= i < index && StepResources(steps[i].kind).Some? ::
                  StepResources(steps[i].kind).value.group in resourceGroups
      invariant issues == [] ==>
                  forall i | 0 <= i < index && StepResources(steps[i].kind).Some? ::
                    resourceGroups[StepResources(steps[i].kind).value.group] == StepResources(steps[i].kind).value.maxConcurrency
      invariant forall g | g in resourceGroups ::
                  exists i :: 0 <= i < index && StepResources(steps[i].kind) == Some(Resources(g, resourceGroups[g]))
    {
      assert steps[..index + 1] == steps[..index] + [steps[index]];
      var resources := StepResources(steps[index].kind);
      if resources.Some? {
        var group, limit := resources.value.group, resources.value.maxConcurrency;
        if group in resourceGroups && resourceGroups[group] != limit {
          issues := issues + [ResourceMismatch];
        }
        resourceGroups := resourceGroups[group := limit];
      }
    }
    assert steps[..|steps|] == steps;
  }

  method CheckPlaceholders(steps: seq<Step>, inputs: set<string>) returns (issues: seq<Issue>)
    ensures issues == [] <==> PlaceholdersDeclared(steps, inputs)
  {
    issues := [];
    for index := 0 to |steps|
      invariant issues == [] <==> PlaceholdersDeclared(steps[..index], inputs)
    {
      assert steps[..index + 1] == steps[..index] + [steps[index]];
      ghost var before := issues;
      var names := steps[index].placeholders;
      for n := 0 to |names|
        invariant issues == [] <==> before == [] && forall i | 0 <= i < n :: names[i] in inputs
      {
        if names[n] !in inputs {
          issues := issues + [UnknownPlaceholder];
        }
      }
    }
    assert steps[..|steps|] == steps;
  }

  lemma {:induction false} DependencyMapKeys(steps: seq<Step>)
    ensures DependencyMap(steps).Keys == Ids(steps)
  {
    if steps != [] {
      DependencyMapKeys(steps[..|steps| - 1]);
      assert steps == steps[..|steps| - 1] + [steps[|steps| - 1]];
    }
  }

  /** The whole refinement reports no issue exactly for the accepted definitions, and every
      definition it accepts can be scheduled. */
  method Validate(d: Definition) returns (issues: seq<Issue>)
    ensures issues == [] <==> Accepted(d)
    ensures issues == [] ==> exists order :: Schedulable(d, order)
  {
    hide HasCycle, StepAccepted, DistinctIds, ResourcesAgree, PlaceholdersDeclared, Schedule, SourcesFirst, BranchesAfter;
    var stepIds, found := CheckIds(d.steps);
    issues := found;
    ghost var distinct := issues == [];
    for index := 0 to |d.steps|
      invariant issues == [] <==> distinct && forall i | 0 <= i < index :: StepAccepted(d.steps[i], d.steps)
    {
      var stepIssues := CheckStep(d.steps[index], d.steps, stepIds);
      issues := issues + stepIssues;
    }
    assert issues == [] <==> distinct && forall s | s in d.steps :: StepAccepted(s, d.steps);
    var resourceIssues := CheckResources(d.steps);
    issues := issues + resourceIssues;
    if d.outputStepId != "" && d.outputStepId !in stepIds {
      issues := issues + [UnknownOutput];
    }
    if d.inputs.Some? {
      var placeholderIssues := CheckPlaceholders(d.steps, d.inputs.value);
      issues := issues + placeholderIssues;
    }
    DependencyMapKeys(d.steps);
    var ids := seq(|d.steps|, (i: nat) requires i < |d.steps| => d.steps[i].id);
    assert forall s :: s in ids <==> s in DependencyMap(d.steps) by {
      assert forall i | 0 <= i < |d.steps| :: d.steps[i] in d.steps && ids[i] == d.steps[i].id;
    }
    var cyclic := FindCycle(ids, DependencyMap(d.steps));
    if cyclic {
      issues := issues + [Cycle];
    } else if issues == [] {
      ghost var order :| Schedule(DependencyMap(d.steps), order);
      AcceptedCanBeScheduled(d, order);
      assert Schedulable(d, order);
    }
  }

  // ---------- accepted definitions can be scheduled ----------

  ghost predicate Before(order: seq<string>, first: string, second: string) {
    exists i, j :: 0 <= i < j < |order| && order[i] == first && order[j] == second
  }

  /** The step reads the value: as an input, as the items it iterates over, as the operand of its
      condition, or as an argument of its nested workflow. */
  predicate Reads(kind: Kind, source: Source) {
    match kind
    case Agent(inputs, _) => source in inputs
    case ToolCall(inputs) => source in inputs
    case Recording(inputs) => source in inputs
    case Foreach(items, inputs, _) => source == items || source in inputs
    case Condition(left, _, _) => source == left
    case Nested(args) => Reference(source) in args
  }

  lemma SourcesExact(kind: Kind, source: Source)
    ensures source in Sources(kind) <==> Reads(kind, source)
  {
    if kind.Nested? {
      ReferencesExact(kind.args, source);
    }
  }

  lemma {:induction false} ReferencesExact(args: seq<Argument>, source: Source)
    ensures source in ReferencedSources(args) <==> Reference(source) in args
  {
    if args != [] {
      ReferencesExact(args[1..], source);
      assert args == [args[0]] + args[1..];
    }
  }

  ghost predicate SourcesFirst(d: Definition, order: seq<string>) {
    forall s, id | s in d.steps && Reads(s.kind, FromStep(id)) :: Before(order, id, s.id)
  }

  ghost predicate BranchesAfter(d: Definition, order: seq<string>) {
    forall s, b | s in d.steps && s.kind.Condition? && (b in s.kind.whenTrue || b in s.kind.whenFalse) :: Before(order, s.id, b)
  }

  /** The step runs under these limits: an agent, or a foreach over agents. */
  predicate LimitedBy(kind: Kind, r: Resources) {
    match kind
    case Agent(_, resources) => resources == Some(r)
    case Foreach(_, _, resources) => resources == Some(r)
    case _ => false
  }

  /** Resources agree exactly when every group has one limit, whichever steps name it. */
  lemma GroupsHaveOneLimit(steps: seq<Step>)
    ensures ResourcesAgree(steps)
            <==> forall s, t, a, b | s in steps && t in steps && LimitedBy(s.kind, a) && LimitedBy(t.kind, b) && a.group == b.group ::
                   a.maxConcurrency == b.maxConcurrency
  {
    forall s, t, a, b | ResourcesAgree(steps) && s in steps && t in steps && LimitedBy(s.kind, a) && LimitedBy(t.kind, b) && a.group == b.group
      ensures a.maxConcurrency == b.maxConcurrency
    {
      var i :| 0 <= i < |steps| && steps[i] == s;
      var j :| 0 <= j < |steps| && steps[j] == t;
      LimitsExact(s.kind, a);
      LimitsExact(t.kind, b);
    }
    forall i, j | 0 <= i < j < |steps|
      ensures forall a, b | StepResources(steps[i].kind) == Some(a) && StepResources(steps[j].kind) == Some(b) ::
                LimitedBy(steps[i].kind, a) && LimitedBy(steps[j].kind, b) && steps[i] in steps && steps[j] in steps
    {
    }
  }

  lemma LimitsExact(kind: Kind, r: Resources)
    ensures LimitedBy(kind, r) <==> StepResources(kind) == Some(r)
  {
  }

  /** An order that respects every dependency, places every value a step reads before it, and
      places every branch after the condition that chooses it. */
  ghost predicate Schedulable(d: Definition, order: seq<string>) {
    Schedule(DependencyMap(d.steps), order) && SourcesFirst(d, order) && BranchesAfter(d, order)
  }

  lemma {:induction false} DependencyMapValues(steps: seq<Step>, s: Step)
    requires DistinctIds(steps) && s in steps
    ensures s.id in DependencyMap(steps) && DependencyMap(steps)[s.id] == s.dependsOn
  {
    var front, last := steps[..|steps| - 1], steps[|steps| - 1];
    if s != last {
      assert steps == front + [last];
      DependencyMapValues(front, s);
      var i :| 0 <= i < |front| && steps[i] == s;
      assert steps[i].id != steps[|steps| - 1].id;
    }
  }

  lemma {:induction false} FirstWithIdFound(steps: seq<Step>, id: string)
    requires id in Ids(steps)
    ensures FirstWithId(steps, id).Some? && FirstWithId(steps, id).value in steps
    ensures FirstWithId(steps, id).value.id == id
  {
    if steps[0].id != id {
      assert id in Ids(steps[1..]);
      FirstWithIdFound(steps[1..], id);
    }
  }

  lemma DependencyBefore(deps: Dependencies, order: seq<string>, step: string, needed: string)
    requires Schedule(deps, order) && Edge(deps, step, needed)
    ensures Before(order, needed, step)
  {
    var j :| 0 <= j < |order| && order[j] == step;
    assert needed in order[..j];
    var i :| 0 <= i < j && order[..j][i] == needed;
    assert order[i] == needed;
  }

  lemma BranchesExact(kind: Kind, b: string)
    ensures b in Branches(kind) <==> kind.Condition? && (b in kind.whenTrue || b in kind.whenFalse)
  {
  }

  /** In an accepted definition every dependency-respecting order also respects values and branches. */
  lemma AcceptedCanBeScheduled(d: Definition, order: seq<string>)
    requires Accepted(d) && Schedule(DependencyMap(d.steps), order)
    ensures SourcesFirst(d, order) && BranchesAfter(d, order)
  {
    hide Schedule, HasCycle, DistinctIds, Before, Sources, Reads, Branches, ResourcesAgree, PlaceholdersDeclared, Ids;
    var deps := DependencyMap(d.steps);
    DependencyMapKeys(d.steps);
    forall s, id | s in d.steps && Reads(s.kind, FromStep(id))
      ensures Before(order, id, s.id)
    {
      SourcesExact(s.kind, FromStep(id));
      assert StepAccepted(s, d.steps) && SourceAccepted(FromStep(id), s, Ids(d.steps));
      DependencyMapValues(d.steps, s);
      DependencyBefore(deps, order, s.id, id);
    }
    forall s, b | s in d.steps && s.kind.Condition? && (b in s.kind.whenTrue || b in s.kind.whenFalse)
      ensures Before(order, s.id, b)
    {
      BranchesExact(s.kind, b);
      assert StepAccepted(s, d.steps) && BranchAccepted(b, s, d.steps);
      FirstWithIdFound(d.steps, b);
      var branch := FirstWithId(d.steps, b).value;
      DependencyMapValues(d.steps, branch);
      DependencyMapValues(d.steps, s);
      DependencyBefore(deps, order, b, s.id);
    }
  }
}
