/** What clean runs keep about dependencies and failures: a dispatched task's
    upstream has succeeded, and once a failure has cascaded nothing downstream of it
    is ever queued or running again. */
module CleanCascade {
  import opened Prelude
  import opened Graph
  import opened Planner
  import opened Lifecycle
  import opened CleanRuns
  import opened CleanFlow

  // ---------------------------------------------------------- predicates

  /** Every task of a dispatched task's dependency steps has succeeded. */
  ghost predicate Upstream(tasks: Tasks) {
    forall t, x | t in tasks && x in tasks && x.scan == t.scan && tasks[t].dispatched && x.step in tasks[t].deps ::
      tasks[x].state.Succeeded?
  }

  ghost predicate SameStepSameDeps(tasks: Tasks) {
    forall t, u | t in tasks && u in tasks && t.scan == u.scan && t.step == u.step :: tasks[t].deps == tasks[u].deps
  }

  /** The stored verdict goes with the terminal state it led to. */
  ghost predicate ResultsFit(tasks: Tasks) {
    forall t | t in tasks ::
      if tasks[t].state.Succeeded? || tasks[t].state.Failed? || tasks[t].state.Dead?
      then tasks[t].result.Some? && tasks[t].result.value.State() == tasks[t].state
      else tasks[t].result.None?
  }

  /** Everything strictly downstream of the step is terminal. */
  ghost predicate Doomed(tasks: Tasks, scan: ScanId, step: StepName) {
    forall y | y in tasks && y.scan == scan && Reaches(RowEdges(tasks, scan), y.step, step) :: tasks[y].state.Terminal()
  }

  ghost predicate CascadeDue(stream: seq<Message>, workers: map<nat, Phase>, x: TaskId) {
    exists e :: e in workers && workers[e].Cascading? && e < |stream| && stream[e].task == x
  }

  /** The failure of x has been passed on, or x was itself aborted by one. */
  ghost predicate Cascaded(row: Row, due: bool) {
    row.state.Aborted? || ((row.state.Failed? || row.state.Dead?) && row.result != Some(NotPermitted) && !due)
  }

  ghost predicate FailuresPassedOn(tasks: Tasks, stream: seq<Message>, workers: map<nat, Phase>) {
    forall x | x in tasks && Cascaded(tasks[x], CascadeDue(stream, workers, x)) :: Doomed(tasks, x.scan, x.step)
  }

  // ------------------------------------------------------- table lemmas

  lemma EdgesKept(tasks: Tasks, after: Tasks, scan: ScanId)
    requires forall t: TaskId | t.scan == scan :: t in tasks <==> t in after
    requires forall t | t in tasks && t.scan == scan :: after[t].deps == tasks[t].deps
    ensures RowEdges(after, scan) == RowEdges(tasks, scan)
  {
  }

  /** Terminal rows staying terminal keeps the doomed steps doomed. */
  lemma DoomKept(tasks: Tasks, after: Tasks, scan: ScanId, step: StepName)
    requires Doomed(tasks, scan, step)
    requires forall t: TaskId | t.scan == scan :: t in tasks <==> t in after
    requires forall t | t in tasks && t.scan == scan ::
               after[t].deps == tasks[t].deps && (tasks[t].state.Terminal() ==> after[t].state.Terminal())
    ensures Doomed(after, scan, step)
  {
    EdgesKept(tasks, after, scan);
  }

  lemma DepsFromPlans(s: State)
    requires RowsPlanned(s.tasks, s.plans) && PlansOk(s.plans)
    ensures SameStepSameDeps(s.tasks)
  {
    forall t, u | t in s.tasks && u in s.tasks && t.scan == u.scan && t.step == u.step
      ensures s.tasks[t].deps == s.tasks[u].deps
    {
      assert PlanShape(t.scan, s.plans[t.scan]);
      var p :| p in s.plans[t.scan] && p.id == t && Agrees(s.tasks[t], p);
      var q :| q in s.plans[t.scan] && q.id == u && Agrees(s.tasks[u], q);
    }
  }

  /** Along any dependency path from a dispatched task, all tasks have succeeded. */
  lemma {:induction false} UpstreamPath(tasks: Tasks, z: TaskId, p: seq<StepName>, x: TaskId)
    requires Upstream(tasks) && SameStepSameDeps(tasks)
    requires forall t | t in tasks && tasks[t].state.Succeeded? :: tasks[t].dispatched
    requires z in tasks && tasks[z].dispatched && x in tasks && x.scan == z.scan
    requires IsPath(RowEdges(tasks, z.scan), p) && |p| >= 2 && p[0] == z.step && p[|p| - 1] == x.step
    ensures tasks[x].state.Succeeded?
    decreases |p|
  {
    var edges := RowEdges(tasks, z.scan);
    var mid := FirstEdge(edges, p);
    var w, d :| w in tasks && w.scan == z.scan && d in tasks[w].deps && (z.step, mid) == (w.step, d);
    assert mid in tasks[z].deps;
    if |p| > 2 {
      assert (p[1..][0], p[1..][1]) in edges;
      var v, c :| v in tasks && v.scan == z.scan && c in tasks[v].deps && (mid, p[2]) == (v.step, c);
      UpstreamPath(tasks, v, p[1..], x);
    }
  }

  /** A task downstream of a failed one was never dispatched. */
  lemma DownstreamUndispatched(tasks: Tasks, y: TaskId, x: TaskId)
    requires Upstream(tasks) && SameStepSameDeps(tasks)
    requires forall t | t in tasks && tasks[t].state.Succeeded? :: tasks[t].dispatched
    requires y in tasks && x in tasks && x.scan == y.scan && !tasks[x].state.Succeeded?
    requires Reaches(RowEdges(tasks, y.scan), y.step, x.step)
    ensures !tasks[y].dispatched
  {
    if tasks[y].dispatched {
      var p :| IsPath(RowEdges(tasks, y.scan), p) && |p| >= 2 && p[0] == y.step && p[|p| - 1] == x.step;
      UpstreamPath(tasks, y, p, x);
    }
  }

  // --------------------------------------------------------- the cascade

  /** Aborting the queued tasks of the hit steps dooms all that is downstream. */
  lemma CascadeDooms(tasks: Tasks, x: TaskId, step: StepName)
    requires Upstream(tasks) && SameStepSameDeps(tasks)
    requires forall t | t in tasks && tasks[t].state.Succeeded? :: tasks[t].dispatched
    requires forall t | t in tasks && !tasks[t].dispatched :: Waiting(tasks[t].state)
    requires x in tasks && !tasks[x].state.Succeeded? && Hit(RowEdges(tasks, x.scan), x.step, step)
    ensures Doomed(AbortRows(tasks, x.scan, x.step), x.scan, step)
  {
    var after, edges := AbortRows(tasks, x.scan, x.step), RowEdges(tasks, x.scan);
    EdgesKept(tasks, after, x.scan);
    forall y | y in after && y.scan == x.scan && Reaches(edges, y.step, step)
      ensures after[y].state.Terminal()
    {
      if step != x.step {
        ReachesTransitive(edges, y.step, step, x.step);
      }
      DownstreamUndispatched(tasks, y, x);
    }
  }

  lemma CascadePassesOn(s: State, e: nat)
    requires FlowOf(s) && Upstream(s.tasks) && SameStepSameDeps(s.tasks) && ResultsFit(s.tasks)
    requires FailuresPassedOn(s.tasks, s.stream, s.workers) && Enabled(s, Cascade(e))
    requires s.tasks[s.stream[e].task].state.Failed? || s.tasks[s.stream[e].task].state.Dead?
    ensures var s' := ApplyWorker(s, Cascade(e)); FailuresPassedOn(s'.tasks, s'.stream, s'.workers)
  {
    var s', x := ApplyWorker(s, Cascade(e)), s.stream[e].task;
    forall y | y in s'.tasks && Cascaded(s'.tasks[y], CascadeDue(s'.stream, s'.workers, y))
      ensures Doomed(s'.tasks, y.scan, y.step)
    {
      if y == x || s'.tasks[y] != s.tasks[y] {
        HitIsDoomed(s, x, y);
      } else {
        StillDue(s, s', e, y);
        assert Doomed(s.tasks, y.scan, y.step);
        CascadeAborts(s.tasks, x.scan, x.step);
        AbortsKeepDoom(s.tasks, s'.tasks, y.scan, y.step);
      }
    }
  }

  lemma HitIsDoomed(s: State, x: TaskId, y: TaskId)
    requires TasksFit(s.tasks, s.stream, s.cursor, s.workers)
    requires Upstream(s.tasks) && SameStepSameDeps(s.tasks) && x in s.tasks && !s.tasks[x].state.Succeeded?
    requires y in s.tasks && (y == x || AbortRows(s.tasks, x.scan, x.step)[y] != s.tasks[y])
    ensures Doomed(AbortRows(s.tasks, x.scan, x.step), y.scan, y.step)
  {
    CascadeDooms(s.tasks, x, y.step);
  }

  lemma AbortsKeepDoom(tasks: Tasks, after: Tasks, scan: ScanId, step: StepName)
    requires OnlyAborts(tasks, after) && Doomed(tasks, scan, step)
    ensures Doomed(after, scan, step)
  {
    DoomKept(tasks, after, scan, step);
  }

  /** Moving the handler of entry e leaves what is due for other tasks. */
  lemma StillDue(s: State, s': State, e: nat, y: TaskId)
    requires s.stream <= s'.stream && e < |s.stream| && s.stream[e].task != y
    requires forall f | f in s.workers :: f < |s.stream|
    requires forall f | f != e :: f in s'.workers <==> f in s.workers
    requires forall f | f != e && f in s.workers :: s'.workers[f] == s.workers[f]
    ensures CascadeDue(s'.stream, s'.workers, y) == CascadeDue(s.stream, s.workers, y)
  {
  }

  // ----------------------------------------------------- the invariant

  ghost predicate CascadingFit(tasks: Tasks, stream: seq<Message>, workers: map<nat, Phase>) {
    forall e | e in workers && workers[e].Cascading? && e < |stream| ::
      stream[e].task in tasks && (tasks[stream[e].task].state.Failed? || tasks[stream[e].task].state.Dead?)
  }

  /** A closed scan has only terminal tasks, and its status is their verdict. */
  ghost predicate ScansFit(scans: map<ScanId, ScanStatus>, tasks: Tasks) {
    forall scan | scan in scans ::
      && !scans[scan].Pending?
      && (!scans[scan].Active? ==> forall t | t in tasks && t.scan == scan :: tasks[t].state.Terminal())
      && (scans[scan].ScanCompleted? ==> exists t :: t in tasks && t.scan == scan && tasks[t].state.Succeeded?)
      && (scans[scan].ScanFailed? ==> forall t | t in tasks && t.scan == scan :: !tasks[t].state.Succeeded?)
  }

  ghost predicate DependenciesFit(tasks: Tasks, stream: seq<Message>, workers: map<nat, Phase>) {
    && Upstream(tasks) && ResultsFit(tasks) && CascadingFit(tasks, stream, workers)
    && FailuresPassedOn(tasks, stream, workers)
  }

  ghost predicate CleanInv(s: State) {
    Quiet(s) && Basic(s) && FlowOf(s) && DependenciesFit(s.tasks, s.stream, s.workers) && ScansFit(s.scans, s.tasks)
  }

  // -------------------------------------------------------- worker steps

  /** The row was not terminal; if it is now, its verdict fits and its cascade is due. */
  ghost predicate RowMove(before: Row, after: Row, due: bool) {
    || after == before
    || (&& !before.state.Terminal() && !after.state.Aborted?
        && after.deps == before.deps && after.dispatched == before.dispatched
        && (after.state.Terminal() ==>
              after.result.Some? && after.result.value.State() == after.state && (after.result.value.Cascades() ==> due))
        && (!after.state.Terminal() ==> after.result == before.result))
  }

  /** What a worker step other than the cascade does to the tables: at most one row
      changes, it was not terminal, and if it fails its cascade becomes due. */
  ghost predicate RowStep(s: State, s': State, e: nat) {
    && e < |s.stream| && s.stream[e].task in s.tasks
    && s'.tasks.Keys == s.tasks.Keys
    && (forall t | t in s.tasks && t != s.stream[e].task :: s'.tasks[t] == s.tasks[t])
    && RowMove(s.tasks[s.stream[e].task], s'.tasks[s.stream[e].task], e in s'.workers && s'.workers[e].Cascading?)
    && s.stream <= s'.stream
    && (forall f | f in s.workers :: f < |s.stream|)
    && (forall f | f != e :: f in s'.workers <==> f in s.workers)
    && (forall f | f != e && f in s.workers :: s'.workers[f] == s.workers[f])
    && (e in s.workers && s.workers[e].Cascading? ==> e in s'.workers && s'.workers[e].Cascading?)
    && (e in s'.workers && s'.workers[e].Cascading? ==>
          s'.tasks[s.stream[e].task].state.Failed? || s'.tasks[s.stream[e].task].state.Dead?)
  }

  lemma RowStepFits(s: State, s': State, e: nat)
    requires RowStep(s, s', e) && DependenciesFit(s.tasks, s.stream, s.workers)
    ensures DependenciesFit(s'.tasks, s'.stream, s'.workers)
  {
    RowStepPassesOn(s, s', e);
    RowStepRows(s, s', e);
  }

  lemma RowStepPassesOn(s: State, s': State, e: nat)
    requires RowStep(s, s', e) && ResultsFit(s.tasks) && FailuresPassedOn(s.tasks, s.stream, s.workers)
    ensures FailuresPassedOn(s'.tasks, s'.stream, s'.workers)
  {
    forall x | x in s'.tasks && Cascaded(s'.tasks[x], CascadeDue(s'.stream, s'.workers, x))
      ensures Doomed(s'.tasks, x.scan, x.step)
    {
      RowStepCascaded(s, s', e, x);
      DoomKeptByRowStep(s, s', e, x);
    }
  }

  lemma RowStepRows(s: State, s': State, e: nat)
    requires RowStep(s, s', e) && Upstream(s.tasks) && ResultsFit(s.tasks) && CascadingFit(s.tasks, s.stream, s.workers)
    ensures Upstream(s'.tasks) && ResultsFit(s'.tasks) && CascadingFit(s'.tasks, s'.stream, s'.workers)
  {
  }

  lemma RowStepCascaded(s: State, s': State, e: nat, x: TaskId)
    requires RowStep(s, s', e) && ResultsFit(s.tasks)
    requires x in s'.tasks && Cascaded(s'.tasks[x], CascadeDue(s'.stream, s'.workers, x))
    ensures Cascaded(s.tasks[x], CascadeDue(s.stream, s.workers, x))
  {
    if x != s.stream[e].task {
      StillDue(s, s', e, x);
    } else if CascadeDue(s.stream, s.workers, x) {
      var f :| f in s.workers && s.workers[f].Cascading? && f < |s.stream| && s.stream[f].task == x;
      assert f in s'.workers && s'.workers[f].Cascading? && s'.stream[f].task == x;
    }
  }

  lemma DoomKeptByRowStep(s: State, s': State, e: nat, x: TaskId)
    requires RowStep(s, s', e) && Doomed(s.tasks, x.scan, x.step)
    ensures Doomed(s'.tasks, x.scan, x.step)
  {
    var t := s.stream[e].task;
    EdgesKept(s.tasks, s'.tasks, x.scan);
  }

  lemma StepIsRowStep(s: State, a: Action)
    requires FlowOf(s) && Possible(s, Work(a)) && !a.Cascade? && !a.Deliver?
    requires CascadingFit(s.tasks, s.stream, s.workers)
    ensures RowStep(s, ApplyWorker(s, a), a.e)
  {
    match a
    case TryClaim(e) => ClaimIsRowStep(s, e);
    case Record(e, types) =>
    case Conclude(e, v) => OwnedRow(s, e); ConcludeIsRowStep(s, e, v);
    case Retry(e) => OwnedRow(s, e); RetryIsRowStep(s, e);
    case Resend(e) => ResendIsRowStep(s, e);
    case Ack(e) =>
  }

  lemma ClaimIsRowStep(s: State, e: nat)
    requires HandlersFit(s) && Enabled(s, TryClaim(e)) && s.stream[e].task in s.tasks
    ensures RowStep(s, ApplyWorker(s, TryClaim(e)), e)
  {
    if Claimable(s, e) {
      Claims(s, e);
    }
  }

  lemma Claims(s: State, e: nat)
    requires HandlersFit(s) && Enabled(s, TryClaim(e)) && Claimable(s, e)
    ensures RowStep(s, ApplyWorker(s, TryClaim(e)), e)
  {
    var row := s.tasks[s.stream[e].task];
    assert RowMove(row, row.(state := Running), false);
  }

  ghost predicate HandlersFit(s: State) {
    forall f | f in s.workers :: f < |s.stream|
  }

  lemma ConcludeIsRowStep(s: State, e: nat, v: Verdict)
    requires HandlersFit(s) && Enabled(s, Conclude(e, v)) && s.tasks[s.stream[e].task].state.Running?
    ensures RowStep(s, ApplyWorker(s, Conclude(e, v)), e)
  {
  }

  /** The row of a handler at work is running. */
  lemma OwnedRow(s: State, e: nat)
    requires FlowOf(s) && e in s.workers && Owning(s.workers[e])
    ensures HandlersFit(s) && s.stream[e].task in s.tasks && s.tasks[s.stream[e].task].state.Running?
  {
    assert Live(s.cursor, s.workers, e);
  }

  lemma RetryIsRowStep(s: State, e: nat)
    requires HandlersFit(s) && Enabled(s, Retry(e)) && s.tasks[s.stream[e].task].state.Running?
    ensures RowStep(s, ApplyWorker(s, Retry(e)), e)
  {
  }

  lemma ResendIsRowStep(s: State, e: nat)
    requires FlowOf(s) && Enabled(s, Resend(e))
    ensures RowStep(s, ApplyWorker(s, Resend(e)), e)
  {
  }

  lemma DeliverIsRowStep(s: State)
    requires FlowOf(s) && Enabled(s, Deliver)
    ensures RowStep(s, ApplyWorker(s, Deliver), s.cursor)
  {
  }

  lemma CascadeFits(s: State, e: nat)
    requires FlowOf(s) && SameStepSameDeps(s.tasks) && DependenciesFit(s.tasks, s.stream, s.workers)
    requires Enabled(s, Cascade(e))
    ensures var s' := ApplyWorker(s, Cascade(e)); DependenciesFit(s'.tasks, s'.stream, s'.workers)
  {
    CascadePassesOn(s, e);
    CascadeRows(s, e);
  }

  lemma CascadeRows(s: State, e: nat)
    requires Upstream(s.tasks) && ResultsFit(s.tasks) && CascadingFit(s.tasks, s.stream, s.workers)
    requires Enabled(s, Cascade(e))
    ensures var s' := ApplyWorker(s, Cascade(e));
            Upstream(s'.tasks) && ResultsFit(s'.tasks) && CascadingFit(s'.tasks, s'.stream, s'.workers)
  {
    var x, s' := s.stream[e].task, ApplyWorker(s, Cascade(e));
    CascadeAborts(s.tasks, x.scan, x.step);
    AbortFits(s, s'.tasks, s'.workers);
  }

  lemma AbortFits(s: State, after: Tasks, workers: map<nat, Phase>)
    requires OnlyAborts(s.tasks, after)
    requires forall f | f in workers && workers[f].Cascading? :: f in s.workers && s.workers[f].Cascading?
    requires Upstream(s.tasks) && ResultsFit(s.tasks) && CascadingFit(s.tasks, s.stream, s.workers)
    ensures Upstream(after) && ResultsFit(after) && CascadingFit(after, s.stream, workers)
  {
  }

  lemma WorkFits(s: State, a: Action)
    requires FlowOf(s) && SameStepSameDeps(s.tasks) && DependenciesFit(s.tasks, s.stream, s.workers)
    requires Possible(s, Work(a))
    ensures var s' := ApplyWorker(s, a); DependenciesFit(s'.tasks, s'.stream, s'.workers)
  {
    var s' := ApplyWorker(s, a);
    if a.Cascade? {
      CascadeFits(s, a.e);
    } else if a.Deliver? {
      DeliverIsRowStep(s);
      RowStepFits(s, s', s.cursor);
    } else {
      StepIsRowStep(s, a);
      RowStepFits(s, s', a.e);
    }
  }

  // -------------------------------------------------------- master moves

  /** More stream entries, all undelivered, change nothing that is due. */
  lemma SameDue(s: State, sent: seq<Message>, x: TaskId)
    requires forall f | f in s.workers :: f < |s.stream|
    ensures CascadeDue(s.stream + sent, s.workers, x) == CascadeDue(s.stream, s.workers, x)
  {
    var more := s.stream + sent;
    assert forall f: nat | f < |s.stream| :: more[f] == s.stream[f];
    if CascadeDue(more, s.workers, x) {
      var f :| f in s.workers && s.workers[f].Cascading? && f < |more| && more[f].task == x;
      assert s.stream[f].task == x;
    }
    if CascadeDue(s.stream, s.workers, x) {
      var f :| f in s.workers && s.workers[f].Cascading? && f < |s.stream| && s.stream[f].task == x;
      assert more[f].task == x;
    }
  }

  lemma DispatchFits(s: State, batch: seq<TaskId>)
    requires FlowOf(s) && DependenciesFit(s.tasks, s.stream, s.workers) && Possible(s, Dispatch(batch))
    ensures var s' := Moved(s, Dispatch(batch)); DependenciesFit(s'.tasks, s'.stream, s'.workers)
  {
    DispatchUpstream(s, batch);
    MarkKeepsResults(s.tasks, batch);
    DispatchCascading(s, batch);
    DispatchPassesOn(s, batch);
  }

  lemma MarkKeepsResults(tasks: Tasks, batch: seq<TaskId>)
    requires ResultsFit(tasks)
    ensures ResultsFit(MarkRows(tasks, batch))
  {
  }

  lemma DispatchCascading(s: State, batch: seq<TaskId>)
    requires CascadingFit(s.tasks, s.stream, s.workers) && forall f | f in s.workers :: f < |s.stream|
    ensures CascadingFit(MarkRows(s.tasks, batch), s.stream + FirstMessages(batch), s.workers)
  {
    var stream := s.stream + FirstMessages(batch);
    forall e | e in s.workers ensures stream[e] == s.stream[e] {
    }
  }

  lemma DispatchPassesOn(s: State, batch: seq<TaskId>)
    requires FailuresPassedOn(s.tasks, s.stream, s.workers) && forall f | f in s.workers :: f < |s.stream|
    ensures FailuresPassedOn(MarkRows(s.tasks, batch), s.stream + FirstMessages(batch), s.workers)
  {
    var after, stream := MarkRows(s.tasks, batch), s.stream + FirstMessages(batch);
    forall x | x in after && Cascaded(after[x], CascadeDue(stream, s.workers, x))
      ensures Doomed(after, x.scan, x.step)
    {
      SameDue(s, FirstMessages(batch), x);
      DoomKept(s.tasks, after, x.scan, x.step);
    }
  }

  lemma DispatchUpstream(s: State, batch: seq<TaskId>)
    requires Upstream(s.tasks) && Possible(s, Dispatch(batch))
    ensures Upstream(MarkRows(s.tasks, batch))
  {
    forall t | t in batch ensures Ready(s, t) {
    }
  }

  lemma SubmitFits(s: State, scan: ScanId, plan: seq<Planned>)
    requires FlowOf(s) && DependenciesFit(s.tasks, s.stream, s.workers) && Possible(s, Submit(scan, plan))
    requires forall t | t in s.tasks :: t.scan != scan
    ensures var s' := Moved(s, Submit(scan, plan)); DependenciesFit(s'.tasks, s'.stream, s'.workers)
  {
    var after, stream := AddRows(s.tasks, plan), s.stream + RootMessages(plan);
    NewRows(s.tasks, scan, plan);
    forall x | x in after && Cascaded(after[x], CascadeDue(stream, s.workers, x))
      ensures Doomed(after, x.scan, x.step)
    {
      SameDue(s, RootMessages(plan), x);
      DoomKept(s.tasks, after, x.scan, x.step);
    }
  }

  /** A submission adds queued rows of its own scan, dispatched iff they are roots. */
  lemma NewRows(tasks: Tasks, scan: ScanId, plan: seq<Planned>)
    requires DistinctKeys(plan) && PlanShape(scan, plan) && forall t | t in tasks :: t.scan != scan
    ensures forall t | t in tasks :: t in AddRows(tasks, plan) && AddRows(tasks, plan)[t] == tasks[t]
    ensures forall t | t in AddRows(tasks, plan) && t !in tasks ::
              var row := AddRows(tasks, plan)[t];
              t.scan == scan && row.state.Queued? && row.result.None? && (row.dispatched <==> row.deps == [])
  {
    var after := AddRows(tasks, plan);
    AddRowsAt(tasks, plan);
    forall t | t in tasks ensures t !in KeysOf(plan) {
      forall p | p in plan ensures p.id != t {
      }
    }
    forall t | t in after && t !in tasks
      ensures t.scan == scan && after[t].state.Queued? && after[t].result.None?
      ensures after[t].dispatched <==> after[t].deps == []
    {
      var p :| p in plan && p.id == t;
      assert after[p.id] == PlannedRow(p);
    }
  }

  // ---------------------------------------------------------------- scans

  /** A terminal row keeps its state and result under every clean move. */
  lemma CleanTerminalKept(s: State, m: Move, t: TaskId)
    requires FlowOf(s) && CascadingFit(s.tasks, s.stream, s.workers)
    requires Possible(s, m) && t in s.tasks && s.tasks[t].state.Terminal()
    requires m.Submit? ==> forall u | u in s.tasks :: u.scan != m.scan
    ensures t in Moved(s, m).tasks
    ensures Moved(s, m).tasks[t].state == s.tasks[t].state && Moved(s, m).tasks[t].result == s.tasks[t].result
  {
    match m {
      case Submit(scan, plan) =>
        NewRows(s.tasks, scan, plan);
      case Dispatch(batch) =>
      case CloseScan(scan) =>
      case Work(a) =>
        WorkKeepsTerminal(s, a, t);
    }
  }

  lemma WorkKeepsTerminal(s: State, a: Action, t: TaskId)
    requires FlowOf(s) && CascadingFit(s.tasks, s.stream, s.workers)
    requires Possible(s, Work(a)) && t in s.tasks && s.tasks[t].state.Terminal()
    ensures t in ApplyWorker(s, a).tasks
    ensures ApplyWorker(s, a).tasks[t].state == s.tasks[t].state
    ensures ApplyWorker(s, a).tasks[t].result == s.tasks[t].result
  {
    if a.Cascade? {
      CascadeAborts(s.tasks, s.stream[a.e].task.scan, s.stream[a.e].task.step);
      assert OnlyAborts(s.tasks, ApplyWorker(s, a).tasks);
    } else if a.Deliver? {
      DeliverIsRowStep(s);
    } else {
      StepIsRowStep(s, a);
    }
  }

  lemma ScansMove(s: State, m: Move)
    requires FlowOf(s) && CascadingFit(s.tasks, s.stream, s.workers) && ScansFit(s.scans, s.tasks) && Possible(s, m)
    requires forall t | t in s.tasks :: t.scan in s.scans
    requires m.CloseScan? ==> exists t :: t in s.tasks && t.scan == m.scan
    ensures ScansFit(Moved(s, m).scans, Moved(s, m).tasks)
  {
    var s' := Moved(s, m);
    forall t | t in s.tasks && s.tasks[t].state.Terminal()
      ensures t in s'.tasks && s'.tasks[t].state == s.tasks[t].state
    {
      CleanTerminalKept(s, m, t);
    }
    if m.Submit? {
      NewRows(s.tasks, m.scan, m.plan);
    } else {
      assert s'.tasks.Keys == s.tasks.Keys;
    }
    forall scan | scan in s.scans && s'.scans[scan] == s.scans[scan] && s.scans[scan].ScanCompleted?
      ensures exists t :: t in s'.tasks && t.scan == scan && s'.tasks[t].state.Succeeded?
    {
      var t :| t in s.tasks && t.scan == scan && s.tasks[t].state.Succeeded?;
      assert s'.tasks[t].state.Succeeded?;
    }
  }

  // ----------------------------------------------------- steps and runs

  lemma ScanOfTask(s: State)
    requires Basic(s)
    ensures forall t | t in s.tasks :: t.scan in s.scans
  {
  }

  lemma CleanStep(s: State, m: Move)
    requires CleanInv(s) && Possible(s, m)
    ensures CleanInv(Moved(s, m))
  {
    ScanOfTask(s);
    DepsFromPlans(s);
    var acts := MoveIsRun(s, m);
    BasicExec(s, acts, Moved(s, m));
    if m.CloseScan? {
      ClosableHasTask(s, m.scan);
    } else if m.Submit? {
      NotYetPlanned(s, m.scan, m.plan);
    }
    ScansMove(s, m);
    match m {
      case Submit(scan, plan) =>
        SubmitFlow(s, scan, plan);
        SubmitFits(s, scan, plan);
      case Dispatch(batch) =>
        DispatchFlow(s, batch);
        DispatchFits(s, batch);
      case CloseScan(scan) =>
      case Work(a) =>
        WorkFlow(s, a);
        WorkFits(s, a);
    }
  }

  lemma NotYetPlanned(s: State, scan: ScanId, plan: seq<Planned>)
    requires forall t | t in s.tasks :: t.scan in s.scans
    requires scan !in s.scans && PlanShape(scan, plan)
    ensures forall p | p in plan :: p.id !in s.tasks
  {
  }

  lemma CleanInit(s: State)
    requires Init(s)
    ensures CleanInv(s)
  {
  }

  lemma {:induction false} CleanRunInv(states: seq<State>, moves: seq<Move>, n: nat)
    requires IsCleanRun(states, moves) && n <= |moves|
    ensures CleanInv(states[n])
  {
    if n == 0 {
      CleanInit(states[0]);
    } else {
      CleanRunInv(states, moves, n - 1);
      assert MoveAt(states, moves, n - 1);
      CleanStep(states[n - 1], moves[n - 1]);
    }
  }
}
