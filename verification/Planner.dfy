/** Workflow checks and the expansion of a workflow over targets into task rows. */
module Planner {
  import opened Prelude
  import opened Graph

  type ScanId = nat
  type StepName = string

  datatype Fanout = PerTarget | Once

  /** Step parameters: the canonical text of everything but the `targets` entry,
      which a `once` step overwrites with the whole target list. */
  datatype Params = Params(text: string, targets: Option<seq<string>>)

  datatype Step = Step(name: StepName, tool: string, fanout: Fanout, params: Params,
                       deps: seq<StepName>, gate: Option<string>)

  datatype Workflow = Workflow(steps: seq<Step>, maxAttempts: int)

  /** The idempotency key, as the tuple that is hashed; the digest is taken to be
      injective. It is unique in the task table, so it also names the row. */
  datatype TaskId = TaskId(scan: ScanId, step: StepName, tool: string, group: string, params: Params)

  datatype Planned = Planned(id: TaskId, deps: seq<StepName>, gate: Option<string>, maxAttempts: int)

  // ------------------------------------------------------ loading checks

  ghost predicate DistinctNames(steps: seq<Step>) {
    forall i, j | 0 <= i < j < |steps| :: steps[i].name != steps[j].name
  }

  function DependencyGraph(steps: seq<Step>): (g: map<StepName, seq<StepName>>)
    ensures forall n :: n in g <==> exists i :: 0 <= i < |steps| && steps[i].name == n
  {
    if steps == [] then map[]
    else
      var last := steps[|steps| - 1];
      var rest := DependencyGraph(steps[..|steps| - 1]);
      assert forall i | 0 <= i < |steps| - 1 :: steps[..|steps| - 1][i] == steps[i];
      assert steps[|steps| - 1].name == last.name;
      rest[last.name := last.deps]
  }

  /** One edge per (step, dependency) pair. */
  ghost function StepEdges(steps: seq<Step>): Edges {
    set i, d | 0 <= i < |steps| && d in steps[i].deps :: (steps[i].name, d)
  }

  lemma {:induction false} GraphLookup(steps: seq<Step>, i: nat)
    requires DistinctNames(steps) && i < |steps|
    ensures steps[i].name in DependencyGraph(steps) && DependencyGraph(steps)[steps[i].name] == steps[i].deps
  {
    if i < |steps| - 1 {
      GraphLookup(steps[..|steps| - 1], i);
    }
  }

  lemma GraphHasStepEdges(steps: seq<Step>)
    requires DistinctNames(steps)
    ensures EdgesOf(DependencyGraph(steps)) == StepEdges(steps)
  {
    var graph := DependencyGraph(steps);
    forall e | e in EdgesOf(graph) ensures e in StepEdges(steps) {
      var i :| 0 <= i < |steps| && steps[i].name == e.0;
      GraphLookup(steps, i);
      assert e.1 in steps[i].deps;
    }
    forall e | e in StepEdges(steps) ensures e in EdgesOf(graph) {
      var i, d :| 0 <= i < |steps| && d in steps[i].deps && e == (steps[i].name, d);
      GraphLookup(steps, i);
    }
  }

  /** What the loader promises about an accepted workflow. */
  ghost predicate Loadable(wf: Workflow, allowedTools: set<string>) {
    && wf.steps != []
    && 1 <= wf.maxAttempts <= 10
    && DistinctNames(wf.steps)
    && (forall s | s in wf.steps :: s.tool in allowedTools)
    && (forall s, d | s in wf.steps && d in s.deps :: exists i :: 0 <= i < |wf.steps| && wf.steps[i].name == d)
    && Acyclic(StepEdges(wf.steps))
  }

  datatype LoadError =
    NoSteps | AttemptsOutOfRange | DuplicateName(name: StepName) | ToolNotAllowed(name: StepName)
  | UnknownDependency(name: StepName) | Cycle

  /** The checks before those of the single steps. */
  ghost predicate WellNamed(wf: Workflow) {
    wf.steps != [] && 1 <= wf.maxAttempts <= 10 && DistinctNames(wf.steps)
  }

  ghost predicate KnownStep(wf: Workflow, d: StepName) {
    exists i :: 0 <= i < |wf.steps| && wf.steps[i].name == d
  }

  ghost predicate StepFits(wf: Workflow, allowedTools: set<string>, s: Step) {
    s.tool in allowedTools && forall d | d in s.deps :: KnownStep(wf, d)
  }

  /** The first step, in listing order, that does not pass. */
  ghost predicate FirstUnfit(wf: Workflow, allowedTools: set<string>, i: nat) {
    && i < |wf.steps| && !StepFits(wf, allowedTools, wf.steps[i])
    && forall k | 0 <= k < i :: StepFits(wf, allowedTools, wf.steps[k])
  }

  /** The checks of the loader in its order; None means the workflow is accepted. */
  method LoadWorkflow(wf: Workflow, allowedTools: set<string>) returns (error: Option<LoadError>)
    ensures error.None? <==> Loadable(wf, allowedTools)
    ensures error == Some(NoSteps) <==> wf.steps == []
    ensures error == Some(AttemptsOutOfRange) <==> wf.steps != [] && !(1 <= wf.maxAttempts <= 10)
    ensures error.Some? && error.value.DuplicateName? <==>
            wf.steps != [] && 1 <= wf.maxAttempts <= 10 && !DistinctNames(wf.steps)
    ensures error.Some? && error.value.DuplicateName? ==>
              exists i, j :: 0 <= i < j < |wf.steps| && wf.steps[i].name == wf.steps[j].name == error.value.name
    ensures error.Some? && (error.value.ToolNotAllowed? || error.value.UnknownDependency?) <==>
            WellNamed(wf) && exists i :: FirstUnfit(wf, allowedTools, i)
    ensures error.Some? && (error.value.ToolNotAllowed? || error.value.UnknownDependency?) ==>
              exists i: nat :: FirstUnfit(wf, allowedTools, i) && wf.steps[i].name == error.value.name &&
                (error.value.ToolNotAllowed? <==> wf.steps[i].tool !in allowedTools)
    ensures error == Some(Cycle) <==>
            WellNamed(wf) && (forall s | s in wf.steps :: StepFits(wf, allowedTools, s)) && !Acyclic(StepEdges(wf.steps))
  {
    var steps := wf.steps;
    if steps == [] { return Some(NoSteps); }
    if !(1 <= wf.maxAttempts <= 10) { return Some(AttemptsOutOfRange); }
    var seen: set<StepName> := {};
    for i := 0 to |steps|
      invariant forall n :: n in seen <==> exists k :: 0 <= k < i && steps[k].name == n
      invariant DistinctNames(steps[..i])
    {
      if steps[i].name in seen {
        var k :| 0 <= k < i && steps[k].name == steps[i].name;
        return Some(DuplicateName(steps[i].name));
      }
      seen := seen + {steps[i].name};
    }
    assert steps[..|steps|] == steps;
    assert forall d :: d in seen <==> KnownStep(wf, d);
    for i := 0 to |steps|
      invariant forall k | 0 <= k < i :: StepFits(wf, allowedTools, steps[k])
    {
      if steps[i].tool !in allowedTools {
        assert FirstUnfit(wf, allowedTools, i);
        return Some(ToolNotAllowed(steps[i].name));
      }
      for j := 0 to |steps[i].deps|
        invariant forall d | d in steps[i].deps[..j] :: d in seen
      {
        if steps[i].deps[j] !in seen {
          assert steps[i].deps[j] in steps[i].deps && FirstUnfit(wf, allowedTools, i);
          return Some(UnknownDependency(steps[i].name));
        }
      }
      assert steps[i].deps[..|steps[i].deps|] == steps[i].deps;
    }
    GraphHasStepEdges(steps);
    assert seen == DependencyGraph(steps).Keys;
    forall n, d | n in DependencyGraph(steps) && d in DependencyGraph(steps)[n] ensures d in seen {
      var i :| 0 <= i < |steps| && steps[i].name == n;
      GraphLookup(steps, i);
    }
    forall s | s in steps ensures StepFits(wf, allowedTools, s) {
      var k :| 0 <= k < |steps| && steps[k] == s;
    }
    var ok, _, _ := AssertAcyclic(DependencyGraph(steps));
    return if ok then None else Some(Cycle);
  }

  // ------------------------------------------------------------- planning

  predicate Before(a: string, b: string) {
    b != [] && (a == [] || a[0] < b[0] || (a[0] == b[0] && Before(a[1..], b[1..])))
  }

  function InsertSorted(x: string, sorted: seq<string>): seq<string> {
    if sorted == [] || Before(x, sorted[0]) then [x] + sorted
    else [sorted[0]] + InsertSorted(x, sorted[1..])
  }

  function Sorted(s: seq<string>): seq<string> {
    if s == [] then [] else InsertSorted(s[|s| - 1], Sorted(s[..|s| - 1]))
  }

  function Join(parts: seq<string>): string {
    if parts == [] then "" else if |parts| == 1 then parts[0] else parts[0] + "," + Join(parts[1..])
  }

  /** `once` steps get all targets in one task, the others one task per target. */
  function Groups(step: Step, targets: seq<string>): seq<seq<string>> {
    if step.fanout.Once? then [targets] else seq(|targets|, i requires 0 <= i < |targets| => [targets[i]])
  }

  function PlanGroup(scan: ScanId, maxAttempts: int, step: Step, group: seq<string>): Planned
    requires step.fanout.Once? || |group| == 1
  {
    var params := if step.fanout.Once? then step.params.(targets := Some(group)) else step.params;
    var repr := if step.fanout.Once? then Join(Sorted(group)) else group[0];
    Planned(TaskId(scan, step.name, step.tool, repr, params), step.deps, step.gate, maxAttempts)
  }

  ghost function PlanStep(scan: ScanId, maxAttempts: int, step: Step, targets: seq<string>): seq<Planned> {
    var groups := Groups(step, targets);
    seq(|groups|, i requires 0 <= i < |groups| => PlanGroup(scan, maxAttempts, step, groups[i]))
  }

  /** The plan of the first n steps; the whole plan for n = |wf.steps|. */
  ghost function PlanPrefix(scan: ScanId, wf: Workflow, targets: seq<string>, n: nat): seq<Planned>
    requires n <= |wf.steps|
  {
    if n == 0 then []
    else PlanPrefix(scan, wf, targets, n - 1) + PlanStep(scan, wf.maxAttempts, wf.steps[n - 1], targets)
  }

  ghost function Plan(scan: ScanId, wf: Workflow, targets: seq<string>): seq<Planned> {
    PlanPrefix(scan, wf, targets, |wf.steps|)
  }

  method PlanTasks(scan: ScanId, wf: Workflow, targets: seq<string>) returns (planned: seq<Planned>)
    ensures planned == Plan(scan, wf, targets)
  {
    planned := [];
    for i := 0 to |wf.steps|
      invariant planned == PlanPrefix(scan, wf, targets, i)
    {
      var step := wf.steps[i];
      var groups := Groups(step, targets);
      ghost var before, here := planned, PlanStep(scan, wf.maxAttempts, step, targets);
      for j := 0 to |groups|
        invariant planned == before + here[..j]
      {
        planned := planned + [PlanGroup(scan, wf.maxAttempts, step, groups[j])];
        assert here[..j + 1] == here[..j] + [here[j]];
      }
      assert here[..|groups|] == here;
    }
  }

  /** A plan entry is one step applied to one of its groups. */
  ghost predicate FromStep(p: Planned, scan: ScanId, wf: Workflow, targets: seq<string>, i: nat) {
    && i < |wf.steps|
    && exists g | g in Groups(wf.steps[i], targets) :: p == PlanGroup(scan, wf.maxAttempts, wf.steps[i], g)
  }

  lemma {:induction false} PlanMembers(scan: ScanId, wf: Workflow, targets: seq<string>, n: nat)
    requires n <= |wf.steps|
    ensures forall p :: p in PlanPrefix(scan, wf, targets, n) <==>
                        exists i | 0 <= i < n :: FromStep(p, scan, wf, targets, i)
  {
    if n > 0 {
      PlanMembers(scan, wf, targets, n - 1);
      var step := wf.steps[n - 1];
      var groups := Groups(step, targets);
      var here := PlanStep(scan, wf.maxAttempts, step, targets);
      forall p ensures p in here <==> FromStep(p, scan, wf, targets, n - 1) {
        if p in here {
          var k :| 0 <= k < |here| && here[k] == p;
          assert groups[k] in groups;
        }
        if FromStep(p, scan, wf, targets, n - 1) {
          var g :| g in groups && p == PlanGroup(scan, wf.maxAttempts, step, g);
          var k :| 0 <= k < |groups| && groups[k] == g;
          assert here[k] == p;
        }
      }
    }
  }

  // ------------------------------------------- what a plan looks like

  ghost function PlanEdges(plan: seq<Planned>): Edges {
    set p, d | p in plan && d in p.deps :: (p.id.step, d)
  }

  /** Facts about a plan that the task lifecycle rests on. */
  ghost predicate PlanShape(scan: ScanId, plan: seq<Planned>) {
    && (forall p | p in plan :: p.id.scan == scan && 1 <= p.maxAttempts <= 10)
    && (forall p, q | p in plan && q in plan && p.id.step == q.id.step ::
          p.deps == q.deps && p.gate == q.gate && p.maxAttempts == q.maxAttempts)
    && Acyclic(PlanEdges(plan))
  }

  lemma SubgraphAcyclic(small: Edges, large: Edges)
    requires small <= large && Acyclic(large)
    ensures Acyclic(small)
  {
    forall n ensures Reaches(small, n, n) ==> Reaches(large, n, n) {
      forall p | IsPath(small, p) ensures IsPath(large, p) {
      }
    }
  }

  lemma EntryOfStep(p: Planned, scan: ScanId, wf: Workflow, targets: seq<string>) returns (i: nat)
    requires p in Plan(scan, wf, targets)
    ensures i < |wf.steps| && p.id.scan == scan && p.id.step == wf.steps[i].name
    ensures p.deps == wf.steps[i].deps && p.gate == wf.steps[i].gate && p.maxAttempts == wf.maxAttempts
  {
    PlanMembers(scan, wf, targets, |wf.steps|);
    i :| 0 <= i < |wf.steps| && FromStep(p, scan, wf, targets, i);
  }

  lemma PlanHasShape(scan: ScanId, wf: Workflow, targets: seq<string>, tools: set<string>)
    requires Loadable(wf, tools)
    ensures PlanShape(scan, Plan(scan, wf, targets))
  {
    var plan := Plan(scan, wf, targets);
    forall p | p in plan ensures p.id.scan == scan && p.maxAttempts == wf.maxAttempts {
      var _ := EntryOfStep(p, scan, wf, targets);
    }
    forall p, q | p in plan && q in plan && p.id.step == q.id.step ensures p.deps == q.deps && p.gate == q.gate {
      var i := EntryOfStep(p, scan, wf, targets);
      var j := EntryOfStep(q, scan, wf, targets);
      assert i == j;
    }
    forall e | e in PlanEdges(plan) ensures e in StepEdges(wf.steps) {
      var p, d :| p in plan && d in p.deps && e == (p.id.step, d);
      var i := EntryOfStep(p, scan, wf, targets);
      assert d in wf.steps[i].deps;
    }
    SubgraphAcyclic(PlanEdges(plan), StepEdges(wf.steps));
  }

  /** Each step is listed after all its dependencies. */
  ghost predicate ListedInOrder(steps: seq<Step>) {
    forall i, d | 0 <= i < |steps| && d in steps[i].deps :: exists j :: 0 <= j < i && steps[j].name == d
  }

  /** Entries of a dependency step come earlier in the plan. */
  ghost predicate PlannedInOrder(plan: seq<Planned>) {
    forall k, m | 0 <= k < |plan| && 0 <= m < |plan| && plan[m].id.step in plan[k].deps :: m < k
  }

  lemma {:induction false} ListedInOrderPlans(scan: ScanId, wf: Workflow, targets: seq<string>, n: nat)
    requires n <= |wf.steps| && DistinctNames(wf.steps) && ListedInOrder(wf.steps)
    ensures PlannedInOrder(PlanPrefix(scan, wf, targets, n))
  {
    if n > 0 {
      ListedInOrderPlans(scan, wf, targets, n - 1);
      PlanMembers(scan, wf, targets, n - 1);
      var before := PlanPrefix(scan, wf, targets, n - 1);
      var here := PlanStep(scan, wf.maxAttempts, wf.steps[n - 1], targets);
      var plan := before + here;
      forall k, m | 0 <= k < |plan| && 0 <= m < |plan| && plan[m].id.step in plan[k].deps ensures m < k {
        if k < |before| {
          assert plan[k] in before;
          var i :| 0 <= i < n - 1 && FromStep(plan[k], scan, wf, targets, i);
          assert plan[m].id.step in wf.steps[i].deps;
        } else {
          assert plan[m].id.step in wf.steps[n - 1].deps;
        }
      }
    }
  }

  // -------------------------------------------- keys and rows of a plan

  /** Keys collide exactly on a repeated (step, group) pair. */
  lemma KeysCollideOnRepeatedPairs(scan: ScanId, wf: Workflow, targets: seq<string>,
                                   i: nat, g: seq<string>, j: nat, h: seq<string>)
    requires i < |wf.steps| && j < |wf.steps| && DistinctNames(wf.steps)
    requires g in Groups(wf.steps[i], targets) && h in Groups(wf.steps[j], targets)
    ensures PlanGroup(scan, wf.maxAttempts, wf.steps[i], g).id == PlanGroup(scan, wf.maxAttempts, wf.steps[j], h).id
            <==> i == j && g == h
  {
    if wf.steps[i].name == wf.steps[j].name {
      assert i == j;
      if wf.steps[i].fanout.PerTarget? {
        assert g == [g[0]] && h == [h[0]];
      }
    }
  }

  /** What a planned row stands for: a `once` step, or a step and one target. */
  datatype WorkUnit = Whole(step: nat) | Single(step: nat, target: string)

  ghost function WorkUnits(wf: Workflow, targets: seq<string>): set<WorkUnit> {
    (set i | 0 <= i < |wf.steps| && wf.steps[i].fanout.Once? :: Whole(i)) +
    (set i, t | 0 <= i < |wf.steps| && wf.steps[i].fanout.PerTarget? && t in targets :: Single(i, t))
  }

  ghost function UnitKey(scan: ScanId, wf: Workflow, targets: seq<string>, u: WorkUnit): TaskId
    requires u in WorkUnits(wf, targets)
  {
    PlanGroup(scan, wf.maxAttempts, wf.steps[u.step], if u.Whole? then targets else [u.target]).id
  }

  ghost function KeysOf(plan: seq<Planned>): set<TaskId> {
    set p | p in plan :: p.id
  }

  /** The keys of a plan are in bijection with its work units, whatever targets
      are repeated: one per `once` step, one per other step and distinct target. */
  lemma PlanKeysBijective(scan: ScanId, wf: Workflow, targets: seq<string>)
    requires DistinctNames(wf.steps)
    ensures KeysOf(Plan(scan, wf, targets)) ==
            set u | u in WorkUnits(wf, targets) :: UnitKey(scan, wf, targets, u)
    ensures forall u, v | u in WorkUnits(wf, targets) && v in WorkUnits(wf, targets) &&
              UnitKey(scan, wf, targets, u) == UnitKey(scan, wf, targets, v) :: u == v
  {
    var plan, units := Plan(scan, wf, targets), WorkUnits(wf, targets);
    forall p | p in plan ensures exists u | u in units :: UnitKey(scan, wf, targets, u) == p.id {
      var u := UnitOf(scan, wf, targets, p);
    }
    forall u | u in units ensures UnitKey(scan, wf, targets, u) in KeysOf(plan) {
      UnitPlanned(scan, wf, targets, u);
    }
    forall u, v | u in units && v in units && UnitKey(scan, wf, targets, u) == UnitKey(scan, wf, targets, v)
      ensures u == v
    {
      UnitKeysDiffer(scan, wf, targets, u, v);
    }
  }

  lemma UnitOf(scan: ScanId, wf: Workflow, targets: seq<string>, p: Planned) returns (u: WorkUnit)
    requires p in Plan(scan, wf, targets)
    ensures u in WorkUnits(wf, targets) && UnitKey(scan, wf, targets, u) == p.id
  {
    PlanMembers(scan, wf, targets, |wf.steps|);
    var i :| 0 <= i < |wf.steps| && FromStep(p, scan, wf, targets, i);
    var g :| g in Groups(wf.steps[i], targets) && p == PlanGroup(scan, wf.maxAttempts, wf.steps[i], g);
    u := if wf.steps[i].fanout.Once? then Whole(i) else Single(i, g[0]);
    assert g == if u.Whole? then targets else [u.target];
  }

  lemma UnitPlanned(scan: ScanId, wf: Workflow, targets: seq<string>, u: WorkUnit)
    requires u in WorkUnits(wf, targets)
    ensures UnitKey(scan, wf, targets, u) in KeysOf(Plan(scan, wf, targets))
  {
    PlanMembers(scan, wf, targets, |wf.steps|);
    var g := if u.Whole? then targets else [u.target];
    if u.Single? {
      var k :| 0 <= k < |targets| && targets[k] == u.target;
      assert Groups(wf.steps[u.step], targets)[k] == g;
    }
    var p := PlanGroup(scan, wf.maxAttempts, wf.steps[u.step], g);
    assert FromStep(p, scan, wf, targets, u.step);
    assert p in Plan(scan, wf, targets);
  }

  lemma UnitKeysDiffer(scan: ScanId, wf: Workflow, targets: seq<string>, u: WorkUnit, v: WorkUnit)
    requires DistinctNames(wf.steps) && u in WorkUnits(wf, targets) && v in WorkUnits(wf, targets)
    requires UnitKey(scan, wf, targets, u) == UnitKey(scan, wf, targets, v)
    ensures u == v
  {
    assert wf.steps[u.step].name == wf.steps[v.step].name;
  }

  ghost predicate DistinctKeys(plan: seq<Planned>) {
    forall i, j | 0 <= i < j < |plan| :: plan[i].id != plan[j].id
  }

  lemma StepKeysDistinct(scan: ScanId, maxAttempts: int, step: Step, targets: seq<string>)
    requires Distinct(targets)
    ensures DistinctKeys(PlanStep(scan, maxAttempts, step, targets))
    ensures forall p | p in PlanStep(scan, maxAttempts, step, targets) :: p.id.step == step.name
  {
    var groups, here := Groups(step, targets), PlanStep(scan, maxAttempts, step, targets);
    forall i, j | 0 <= i < j < |here| ensures here[i].id != here[j].id {
      assert groups[i] == [targets[i]] && groups[j] == [targets[j]];
    }
  }

  /** Without repeated targets no key of the plan repeats. */
  lemma {:induction false} DistinctTargetsDistinctKeys(scan: ScanId, wf: Workflow, targets: seq<string>, n: nat)
    requires n <= |wf.steps| && DistinctNames(wf.steps) && Distinct(targets)
    ensures DistinctKeys(PlanPrefix(scan, wf, targets, n))
  {
    if n > 0 {
      DistinctTargetsDistinctKeys(scan, wf, targets, n - 1);
      PlanMembers(scan, wf, targets, n - 1);
      StepKeysDistinct(scan, wf.maxAttempts, wf.steps[n - 1], targets);
      var before := PlanPrefix(scan, wf, targets, n - 1);
      forall p | p in before ensures p.id.step != wf.steps[n - 1].name {
        var i :| 0 <= i < n - 1 && FromStep(p, scan, wf, targets, i);
      }
    }
  }
}
