/** Which tasks hang, in terms of causes: gates that no finding has opened, tools that
    were refused, and failures that were passed on. */
module Hanging {
  import opened Prelude
  import opened Graph
  import opened Planner
  import opened Lifecycle
  import opened CleanRuns
  import opened CleanFlow
  import opened CleanCascade
  import opened CleanTheorems

  // ------------------------------------------------------------ the causes

  /** A dependent task's gate names a finding that its scan has not produced. */
  ghost predicate GateUnmet(s: State, x: TaskId) {
    && x in s.tasks && s.tasks[x].deps != []
    && s.tasks[x].gate.Some? && (x.scan, s.tasks[x].gate.value) !in s.findings
  }

  /** Upstream of t something is held or refused. */
  ghost predicate ObstructedBy(s: State, b: TaskId, t: TaskId) {
    && b in s.tasks && b.scan == t.scan && (GateUnmet(s, b) || Refused(s, b))
    && Reaches(RowEdges(s.tasks, t.scan), t.step, b.step)
  }

  ghost predicate Obstructed(s: State, t: TaskId) {
    GateUnmet(s, t) || exists b :: ObstructedBy(s, b, t)
  }

  /** Failed for good with a verdict whose handler aborts the dependents. */
  ghost predicate FailedHard(row: Row) {
    (row.state.Failed? || row.state.Dead?) && row.result.Some? && row.result.value.Cascades()
  }

  ghost predicate FailsAbove(tasks: Tasks, x: TaskId, t: TaskId) {
    && x in tasks && x.scan == t.scan && FailedHard(tasks[x])
    && Hit(RowEdges(tasks, t.scan), x.step, t.step)
  }

  /** A task of t's own step, or of one it depends on, has failed for good. */
  ghost predicate FailureAbove(tasks: Tasks, t: TaskId) {
    exists x :: FailsAbove(tasks, x, t)
  }

  // ------------------------------------------------------------ invariants

  ghost predicate RootsSent(tasks: Tasks) {
    forall t | t in tasks && tasks[t].deps == [] :: tasks[t].dispatched
  }

  ghost predicate GatesMet(tasks: Tasks, findings: set<(ScanId, string)>) {
    forall t | t in tasks && tasks[t].dispatched && tasks[t].deps != [] && tasks[t].gate.Some? ::
      (t.scan, tasks[t].gate.value) in findings
  }

  /** Every aborted task has a failure above it. */
  ghost predicate AbortsExplained(tasks: Tasks) {
    forall t | t in tasks && tasks[t].state.Aborted? :: FailureAbove(tasks, t)
  }

  /** Handlers that are about to abort dependents have a cascading verdict. */
  ghost predicate HardCascades(tasks: Tasks, stream: seq<Message>, workers: map<nat, Phase>) {
    forall e | e in workers && workers[e].Cascading? && e < |stream| ::
      stream[e].task in tasks && FailedHard(tasks[stream[e].task])
  }

  /** A failure that has been passed on leaves no unsent task of its own step. */
  ghost predicate OwnStepSettled(tasks: Tasks, stream: seq<Message>, workers: map<nat, Phase>) {
    forall x, y | x in tasks && y in tasks && x.scan == y.scan && x.step == y.step &&
      FailedHard(tasks[x]) && !CascadeDue(stream, workers, x) && !tasks[y].dispatched :: tasks[y].state.Terminal()
  }

  ghost predicate Causes(s: State) {
    && RootsSent(s.tasks) && GatesMet(s.tasks, s.findings) && AbortsExplained(s.tasks)
    && HardCascades(s.tasks, s.stream, s.workers) && OwnStepSettled(s.tasks, s.stream, s.workers)
  }

  // --------------------------------------------------------------- tables

  /** Failures and edges stay, so what they explain stays explained. */
  lemma FailureStays(tasks: Tasks, after: Tasks, t: TaskId)
    requires FailureAbove(tasks, t)
    requires forall u: TaskId | u.scan == t.scan :: u in tasks <==> u in after
    requires forall u | u in tasks && u.scan == t.scan ::
               after[u].deps == tasks[u].deps && (FailedHard(tasks[u]) ==> FailedHard(after[u]))
    ensures FailureAbove(after, t)
  {
    EdgesKept(tasks, after, t.scan);
    var x :| FailsAbove(tasks, x, t);
    assert FailsAbove(after, x, t);
  }

  /** Rows may run on: terminal ones stay as they are, and none is aborted. */
  ghost predicate RunsOn(before: Tasks, after: Tasks) {
    && after.Keys == before.Keys
    && forall t | t in before ::
         && after[t].deps == before[t].deps && after[t].gate == before[t].gate
         && (before[t].dispatched ==> after[t].dispatched)
         && (before[t].state.Terminal() ==> after[t].state == before[t].state && after[t].result == before[t].result)
         && (after[t].state.Aborted? ==> before[t].state.Aborted?)
  }

  lemma RunsOnExplained(before: Tasks, after: Tasks)
    requires RunsOn(before, after) && AbortsExplained(before)
    ensures AbortsExplained(after)
  {
    forall t | t in after && after[t].state.Aborted? ensures FailureAbove(after, t) {
      FailureStays(before, after, t);
    }
  }

  // --------------------------------------------------------- worker steps

  lemma StepRunsOn(s: State, a: Action)
    requires FlowOf(s) && Possible(s, Work(a)) && !a.Cascade? && CascadingFit(s.tasks, s.stream, s.workers)
    ensures RunsOn(s.tasks, ApplyWorker(s, a).tasks) && s.findings <= ApplyWorker(s, a).findings
    ensures forall t | t in s.tasks :: ApplyWorker(s, a).tasks[t].dispatched == s.tasks[t].dispatched
  {
    GrowsWorker(s, a);
    if a.Deliver? {
      DeliverIsRowStep(s);
    } else {
      StepIsRowStep(s, a);
    }
  }

  lemma ConcludeKeepsHard(s: State, e: nat, v: Verdict)
    requires HardCascades(s.tasks, s.stream, s.workers) && Enabled(s, Conclude(e, v)) && s.tasks[s.stream[e].task].state.Running?
    ensures var s' := ApplyWorker(s, Conclude(e, v)); HardCascades(s'.tasks, s'.stream, s'.workers)
  {
    var x, s' := s.stream[e].task, ApplyWorker(s, Conclude(e, v));
    assert v.Cascades() ==> FailedHard(s'.tasks[x]);
    assert !FailedHard(s.tasks[x]);
  }

  /** Other steps bring no handler to its cascade. */
  lemma StepKeepsHard(s: State, a: Action)
    requires FlowOf(s) && Possible(s, Work(a)) && CascadingFit(s.tasks, s.stream, s.workers)
    requires HardCascades(s.tasks, s.stream, s.workers)
    ensures var s' := ApplyWorker(s, a); HardCascades(s'.tasks, s'.stream, s'.workers)
  {
    if a.Conclude? {
      OwnedRow(s, a.e);
      ConcludeKeepsHard(s, a.e, a.verdict);
    } else {
      NoNewCascade(s, a);
      forall t | t in s.tasks && s.tasks[t].state.Terminal()
        ensures ApplyWorker(s, a).tasks[t].state == s.tasks[t].state && ApplyWorker(s, a).tasks[t].result == s.tasks[t].result
      {
        WorkKeepsTerminal(s, a, t);
      }
      HardKept(s, ApplyWorker(s, a));
    }
  }

  lemma NoNewCascade(s: State, a: Action)
    requires Enabled(s, a) && WorkerAction(a) && !a.Conclude?
    ensures var s' := ApplyWorker(s, a);
            s.stream <= s'.stream && s'.tasks.Keys == s.tasks.Keys &&
            forall e | e in s'.workers && s'.workers[e].Cascading? :: e in s.workers && s.workers[e].Cascading?
  {
  }

  lemma HardKept(s: State, s': State)
    requires HardCascades(s.tasks, s.stream, s.workers) && s.stream <= s'.stream && s'.tasks.Keys == s.tasks.Keys
    requires forall f | f in s.workers :: f < |s.stream|
    requires forall e | e in s'.workers && s'.workers[e].Cascading? :: e in s.workers && s.workers[e].Cascading?
    requires forall t | t in s.tasks && s.tasks[t].state.Terminal() ::
               s'.tasks[t].state == s.tasks[t].state && s'.tasks[t].result == s.tasks[t].result
    ensures HardCascades(s'.tasks, s'.stream, s'.workers)
  {
  }

  /** A step other than the cascade leaves settled steps settled: a new failure is due,
      and what was due before still is. */
  lemma RowStepSettled(s: State, s': State, e: nat)
    requires RowStep(s, s', e) && OwnStepSettled(s.tasks, s.stream, s.workers) && s.tasks[s.stream[e].task].dispatched
    ensures OwnStepSettled(s'.tasks, s'.stream, s'.workers)
  {
    forall x, y | x in s'.tasks && y in s'.tasks && x.scan == y.scan && x.step == y.step &&
      FailedHard(s'.tasks[x]) && !CascadeDue(s'.stream, s'.workers, x) && !s'.tasks[y].dispatched
      ensures s'.tasks[y].state.Terminal()
    {
      RowStepHard(s, s', e, x);
    }
  }

  lemma DueStays(s: State, s': State, e: nat, x: TaskId)
    requires RowStep(s, s', e) && CascadeDue(s.stream, s.workers, x)
    ensures CascadeDue(s'.stream, s'.workers, x)
  {
    var f :| f in s.workers && s.workers[f].Cascading? && f < |s.stream| && s.stream[f].task == x;
    assert f in s'.workers && s'.workers[f].Cascading? && s'.stream[f].task == x;
  }

  lemma RowStepHard(s: State, s': State, e: nat, x: TaskId)
    requires RowStep(s, s', e) && x in s'.tasks && FailedHard(s'.tasks[x]) && !CascadeDue(s'.stream, s'.workers, x)
    ensures x in s.tasks && FailedHard(s.tasks[x]) && !CascadeDue(s.stream, s.workers, x)
  {
    if CascadeDue(s.stream, s.workers, x) {
      DueStays(s, s', e, x);
    }
  }

  // ---------------------------------------------------------- the cascade

  lemma CascadeExplained(tasks: Tasks, x: TaskId)
    requires AbortsExplained(tasks) && x in tasks && FailedHard(tasks[x])
    ensures AbortsExplained(AbortRows(tasks, x.scan, x.step))
  {
    var after := AbortRows(tasks, x.scan, x.step);
    forall t | t in after && after[t].state.Aborted? ensures FailureAbove(after, t) {
      if !tasks[t].state.Aborted? {
        assert FailsAbove(tasks, x, t);
      }
      FailureStays(tasks, after, t);
    }
  }

  /** The cascade aborts what is unsent of the failed step itself. */
  lemma CascadeSettles(s: State, e: nat)
    requires FlowOf(s) && Enabled(s, Cascade(e)) && OwnStepSettled(s.tasks, s.stream, s.workers)
    ensures var s' := ApplyWorker(s, Cascade(e)); OwnStepSettled(s'.tasks, s'.stream, s'.workers)
  {
    var s', z := ApplyWorker(s, Cascade(e)), s.stream[e].task;
    forall x, y | x in s'.tasks && y in s'.tasks && x.scan == y.scan && x.step == y.step &&
      FailedHard(s'.tasks[x]) && !CascadeDue(s'.stream, s'.workers, x) && !s'.tasks[y].dispatched
      ensures s'.tasks[y].state.Terminal()
    {
      UnsentWaits(s, y);
      if x.scan == z.scan && x.step == z.step {
        assert Hit(RowEdges(s.tasks, z.scan), z.step, y.step);
      } else {
        StillDue(s, s', e, x);
      }
    }
  }

  lemma UnsentWaits(s: State, y: TaskId)
    requires FlowOf(s) && y in s.tasks && !s.tasks[y].dispatched
    ensures Waiting(s.tasks[y].state)
  {
  }

  lemma CascadeTables(tasks: Tasks, findings: set<(ScanId, string)>, scan: ScanId, step: StepName)
    requires RootsSent(tasks) && GatesMet(tasks, findings)
    ensures RootsSent(AbortRows(tasks, scan, step)) && GatesMet(AbortRows(tasks, scan, step), findings)
  {
  }

  lemma CascadeCauses(s: State, e: nat)
    requires CleanInv(s) && Causes(s) && Possible(s, Work(Cascade(e)))
    ensures Causes(ApplyWorker(s, Cascade(e)))
  {
    var x := s.stream[e].task;
    CascadeTables(s.tasks, s.findings, x.scan, x.step);
    HardAt(s.tasks, s.stream, s.workers, e);
    CascadeExplained(s.tasks, x);
    CascadeSettles(s, e);
    StepKeepsHard(s, Cascade(e));
    assert ApplyWorker(s, Cascade(e)).tasks == AbortRows(s.tasks, x.scan, x.step);
  }

  lemma HardAt(tasks: Tasks, stream: seq<Message>, workers: map<nat, Phase>, e: nat)
    requires HardCascades(tasks, stream, workers) && e in workers && workers[e].Cascading? && e < |stream|
    ensures stream[e].task in tasks && FailedHard(tasks[stream[e].task])
  {
  }

  lemma RunsOnTables(before: Tasks, after: Tasks, f: set<(ScanId, string)>, f': set<(ScanId, string)>)
    requires RunsOn(before, after) && RootsSent(before) && GatesMet(before, f) && f <= f'
    requires forall t | t in before :: after[t].dispatched == before[t].dispatched
    ensures RootsSent(after) && GatesMet(after, f')
  {
  }

  lemma StepSettled(s: State, a: Action)
    requires FlowOf(s) && CascadingFit(s.tasks, s.stream, s.workers) && OwnStepSettled(s.tasks, s.stream, s.workers)
    requires Possible(s, Work(a)) && !a.Cascade?
    ensures var s' := ApplyWorker(s, a); OwnStepSettled(s'.tasks, s'.stream, s'.workers)
  {
    if a.Deliver? {
      DeliverIsRowStep(s);
      RowStepSettled(s, ApplyWorker(s, a), s.cursor);
    } else {
      StepIsRowStep(s, a);
      RowStepSettled(s, ApplyWorker(s, a), a.e);
    }
  }

  lemma WorkCauses(s: State, a: Action)
    requires CleanInv(s) && Causes(s) && Possible(s, Work(a))
    ensures Causes(ApplyWorker(s, a))
  {
    if a.Cascade? {
      CascadeCauses(s, a.e);
    } else {
      StepRunsOn(s, a);
      RunsOnTables(s.tasks, ApplyWorker(s, a).tasks, s.findings, ApplyWorker(s, a).findings);
      RunsOnExplained(s.tasks, ApplyWorker(s, a).tasks);
      StepKeepsHard(s, a);
      StepSettled(s, a);
    }
  }

  // --------------------------------------------------------- master moves

  lemma MarkCauses(s: State, batch: seq<TaskId>)
    requires RootsSent(s.tasks) && GatesMet(s.tasks, s.findings) && AbortsExplained(s.tasks) && ReadyBatch(s, batch)
    ensures RootsSent(MarkRows(s.tasks, batch)) && GatesMet(MarkRows(s.tasks, batch), s.findings)
    ensures AbortsExplained(MarkRows(s.tasks, batch))
  {
    forall t | t in batch ensures Ready(s, t) {
    }
    RunsOnExplained(s.tasks, MarkRows(s.tasks, batch));
  }

  /** Later entries are undelivered: nobody is at its cascade there. */
  lemma SentCauses(s: State, after: Tasks, sent: seq<Message>)
    requires HardCascades(s.tasks, s.stream, s.workers) && OwnStepSettled(s.tasks, s.stream, s.workers)
    requires forall f | f in s.workers :: f < |s.stream|
    requires forall t | t in s.tasks :: t in after && after[t].state == s.tasks[t].state && after[t].result == s.tasks[t].result
    requires forall t | t in s.tasks && !after[t].dispatched :: !s.tasks[t].dispatched
    requires forall t | t in after && t !in s.tasks :: !FailedHard(after[t]) && forall x | x in s.tasks :: x.scan != t.scan
    ensures HardCascades(after, s.stream + sent, s.workers) && OwnStepSettled(after, s.stream + sent, s.workers)
  {
    var stream := s.stream + sent;
    forall e | e in s.workers ensures stream[e] == s.stream[e] {
    }
    forall x, y | x in after && y in after && x.scan == y.scan && x.step == y.step &&
      FailedHard(after[x]) && !CascadeDue(stream, s.workers, x) && !after[y].dispatched
      ensures after[y].state.Terminal()
    {
      SameDue(s, sent, x);
    }
  }

  lemma DispatchCauses(s: State, batch: seq<TaskId>)
    requires FlowOf(s) && Causes(s) && Possible(s, Dispatch(batch))
    ensures Causes(Moved(s, Dispatch(batch)))
  {
    MarkCauses(s, batch);
    SentCauses(s, MarkRows(s.tasks, batch), FirstMessages(batch));
  }

  lemma SubmitTables(s: State, scan: ScanId, plan: seq<Planned>)
    requires RootsSent(s.tasks) && GatesMet(s.tasks, s.findings) && AbortsExplained(s.tasks)
    requires DistinctKeys(plan) && PlanShape(scan, plan) && forall t | t in s.tasks :: t.scan != scan
    ensures RootsSent(AddRows(s.tasks, plan)) && GatesMet(AddRows(s.tasks, plan), s.findings)
    ensures AbortsExplained(AddRows(s.tasks, plan))
  {
    var after := AddRows(s.tasks, plan);
    NewRows(s.tasks, scan, plan);
    forall t | t in after && after[t].state.Aborted? ensures FailureAbove(after, t) {
      FailureStays(s.tasks, after, t);
    }
  }

  lemma SubmitCauses(s: State, scan: ScanId, plan: seq<Planned>)
    requires FlowOf(s) && Causes(s) && Possible(s, Submit(scan, plan)) && forall t | t in s.tasks :: t.scan != scan
    ensures Causes(Moved(s, Submit(scan, plan)))
  {
    SubmitTables(s, scan, plan);
    NewRows(s.tasks, scan, plan);
    SentCauses(s, AddRows(s.tasks, plan), RootMessages(plan));
  }

  lemma MoveCauses(s: State, m: Move)
    requires CleanInv(s) && Causes(s) && Possible(s, m)
    ensures Causes(Moved(s, m))
  {
    match m {
      case Submit(scan, plan) =>
        ScanOfTask(s);
        SubmitCauses(s, scan, plan);
      case Dispatch(batch) => DispatchCauses(s, batch);
      case CloseScan(scan) =>
      case Work(a) => WorkCauses(s, a);
    }
  }

  lemma CausesAt(states: seq<State>, moves: seq<Move>, k: nat)
    requires IsCleanRun(states, moves) && k < |moves| && Causes(states[k])
    ensures Causes(states[k + 1])
  {
    CleanRunStep(states, moves, k);
    MoveCauses(states[k], moves[k]);
  }

  lemma {:induction false} CausesRun(states: seq<State>, moves: seq<Move>, n: nat)
    requires IsCleanRun(states, moves) && n <= |moves|
    ensures Causes(states[n])
  {
    if n > 0 {
      CausesRun(states, moves, n - 1);
      CausesAt(states, moves, n - 1);
    }
  }

  // ------------------------------------------------------------ the theorem

  lemma GatedUnsent(s: State, t: TaskId)
    requires GatesMet(s.tasks, s.findings) && GateUnmet(s, t)
    ensures !s.tasks[t].dispatched
  {
  }

  /** What is held or refused has not succeeded. */
  lemma ObstructionUnfinished(s: State, b: TaskId)
    requires FlowOf(s) && GatesMet(s.tasks, s.findings) && ResultsFit(s.tasks) && b in s.tasks
    requires GateUnmet(s, b) || Refused(s, b)
    ensures !s.tasks[b].state.Succeeded?
  {
    if GateUnmet(s, b) {
      GatedUnsent(s, b);
    }
  }

  lemma UpstreamFacts(s: State)
    requires CleanInv(s)
    ensures Upstream(s.tasks) && SameStepSameDeps(s.tasks)
    ensures forall t | t in s.tasks && s.tasks[t].state.Succeeded? :: s.tasks[t].dispatched
  {
    SucceededWereSent(s);
    DepsFromPlans(s);
  }

  /** An obstructed task was never sent. */
  lemma ObstructedUnsent(s: State, t: TaskId)
    requires CleanInv(s) && Causes(s) && t in s.tasks && Obstructed(s, t)
    ensures !s.tasks[t].dispatched
  {
    if GateUnmet(s, t) {
      GatedUnsent(s, t);
    } else {
      var b :| ObstructedBy(s, b, t);
      ObstructionUnfinished(s, b);
      UpstreamFacts(s);
      DownstreamUndispatched(s.tasks, t, b);
    }
  }

  /** A failure that has been passed on leaves no unsent task at or below it. */
  lemma FailureEndsIt(tasks: Tasks, stream: seq<Message>, x: TaskId, t: TaskId)
    requires FailuresPassedOn(tasks, stream, map[]) && OwnStepSettled(tasks, stream, map[])
    requires FailsAbove(tasks, x, t) && t in tasks && !tasks[t].dispatched
    ensures tasks[t].state.Terminal()
  {
    assert !CascadeDue(stream, map[], x);
    if t.step != x.step {
      assert Doomed(tasks, x.scan, x.step);
    }
  }

  lemma HangingObstructed(s: State, t: TaskId, b: TaskId)
    requires RootsSent(s.tasks) && t in s.tasks && Blocks(s, b, t)
    ensures Obstructed(s, t)
  {
    if b != t {
      assert ObstructedBy(s, b, t);
    }
  }

  lemma QuietCauses(s: State, t: TaskId)
    requires CleanInv(s) && Causes(s) && Quiescent(s) && t in s.tasks && Obstructed(s, t)
    ensures !s.tasks[t].state.Terminal() <==> !FailureAbove(s.tasks, t)
  {
    ObstructedUnsent(s, t);
    UnsentWaits(s, t);
    if x :| FailsAbove(s.tasks, x, t) {
      assert s.workers == map[];
      FailureEndsIt(s.tasks, s.stream, x, t);
    }
  }

  /** Exactly which tasks hang: at rest a task is unfinished iff its gate, or a gate or
      a refusal upstream, obstructs it, and no failure at its step or upstream of it
      has taken it along. */
  lemma HangsIff(states: seq<State>, moves: seq<Move>, n: nat, t: TaskId)
    requires IsCleanRun(states, moves) && n <= |moves| && Quiescent(states[n]) && t in states[n].tasks
    ensures !states[n].tasks[t].state.Terminal() <==>
            Obstructed(states[n], t) && !FailureAbove(states[n].tasks, t)
  {
    CleanRunInv(states, moves, n);
    CausesRun(states, moves, n);
    if !states[n].tasks[t].state.Terminal() {
      var b := NoHanging(states, moves, n, t);
      HangingObstructed(states[n], t, b);
    }
    if Obstructed(states[n], t) {
      QuietCauses(states[n], t);
    }
  }

  /** So a running scan can be closed iff a failure has taken along every obstructed task. */
  lemma ClosesIff(states: seq<State>, moves: seq<Move>, n: nat, scan: ScanId)
    requires IsCleanRun(states, moves) && n <= |moves| && Quiescent(states[n])
    requires scan in states[n].scans && states[n].scans[scan].Active?
    ensures Possible(states[n], CloseScan(scan)) <==>
            forall t | t in states[n].tasks && t.scan == scan && Obstructed(states[n], t) :: FailureAbove(states[n].tasks, t)
  {
    forall t | t in states[n].tasks && t.scan == scan
      ensures !states[n].tasks[t].state.Terminal() <==>
              Obstructed(states[n], t) && !FailureAbove(states[n].tasks, t)
    {
      HangsIff(states, moves, n, t);
    }
  }
}
