/** The theorems about clean runs. */
module CleanTheorems {
  import opened Prelude
  import opened Graph
  import opened Planner
  import opened Lifecycle
  import opened CleanRuns
  import opened CleanFlow
  import opened CleanCascade

  // ----------------------------------------------- one delivery, one runner

  /** At most one delivery of a task can still change its row; so at most one handler
      runs the task, and then the row is running. */
  lemma OneLiveDelivery(states: seq<State>, moves: seq<Move>, n: nat, e: nat, f: nat)
    requires IsCleanRun(states, moves) && n <= |moves|
    requires e < |states[n].stream| && f < |states[n].stream| && states[n].stream[e].task == states[n].stream[f].task
    requires Live(states[n].cursor, states[n].workers, e) && Live(states[n].cursor, states[n].workers, f)
    ensures e == f
    ensures var s := states[n];
            s.stream[e].task in s.tasks &&
            (e in s.workers && Owning(s.workers[e]) <==> s.tasks[s.stream[e].task].state.Running?)
  {
    CleanRunInv(states, moves, n);
  }

  /** One move of a clean run, with the run itself out of sight. */
  ghost predicate CleanNext(s: State, m: Move, s': State) {
    CleanInv(s) && Possible(s, m) && s' == Moved(s, m)
  }

  lemma CleanRunStep(states: seq<State>, moves: seq<Move>, k: nat)
    requires IsCleanRun(states, moves) && k < |moves|
    ensures CleanNext(states[k], moves[k], states[k + 1])
  {
    CleanRunInv(states, moves, k);
    assert MoveAt(states, moves, k);
  }

  lemma TerminalRowKept(s: State, m: Move, s': State, t: TaskId)
    requires CleanNext(s, m, s') && t in s.tasks && s.tasks[t].state.Terminal()
    ensures t in s'.tasks && s'.tasks[t].state == s.tasks[t].state && s'.tasks[t].result == s.tasks[t].result
  {
    ScanOfTask(s);
    CleanTerminalKept(s, m, t);
  }

  lemma TerminalRowKeptAt(states: seq<State>, moves: seq<Move>, k: nat, t: TaskId)
    requires IsCleanRun(states, moves) && k < |moves| && t in states[k].tasks && states[k].tasks[t].state.Terminal()
    ensures t in states[k + 1].tasks && states[k + 1].tasks[t].state == states[k].tasks[t].state
    ensures states[k + 1].tasks[t].result == states[k].tasks[t].result
  {
    CleanRunStep(states, moves, k);
    TerminalRowKept(states[k], moves[k], states[k + 1], t);
  }

  lemma {:induction false} TerminalRowsFinal(states: seq<State>, moves: seq<Move>, i: nat, n: nat, t: TaskId)
    requires IsCleanRun(states, moves) && i <= n <= |moves|
    requires t in states[i].tasks && states[i].tasks[t].state.Terminal()
    ensures t in states[n].tasks && states[n].tasks[t].state == states[i].tasks[t].state
    ensures states[n].tasks[t].result == states[i].tasks[t].result
    decreases n
  {
    if i < n {
      TerminalRowsFinal(states, moves, i, n - 1, t);
      TerminalRowKeptAt(states, moves, n - 1, t);
    }
  }

  // --------------------------------------------------- the cascade is final

  /** The cascade of a failed task x leaves everything strictly downstream of its
      step terminal. */
  lemma CascadeDoomsAt(s: State, x: TaskId)
    requires CleanInv(s) && x in s.tasks && !s.tasks[x].state.Succeeded?
    ensures Doomed(AbortRows(s.tasks, x.scan, x.step), x.scan, x.step)
  {
    DepsFromPlans(s);
    SucceededWereSent(s);
    CascadeDooms(s.tasks, x, x.step);
  }

  lemma SucceededWereSent(s: State)
    requires FlowOf(s)
    ensures forall t | t in s.tasks && s.tasks[t].state.Succeeded? :: s.tasks[t].dispatched
    ensures forall t | t in s.tasks && !s.tasks[t].dispatched :: Waiting(s.tasks[t].state)
  {
  }

  lemma CascadeLeaves(s: State, e: nat, s': State, y: TaskId)
    requires CleanNext(s, Work(Cascade(e)), s')
    requires e < |s.stream| && y in s.tasks && y.scan == s.stream[e].task.scan
    requires Reaches(RowEdges(s.tasks, y.scan), y.step, s.stream[e].task.step)
    ensures y in s'.tasks && s'.tasks[y].state.Terminal()
  {
    var x := s.stream[e].task;
    CascadeStep(s, e, s');
    CascadeDoomsAt(s, x);
    DoomedRow(s.tasks, x, y);
  }

  lemma CascadeStep(s: State, e: nat, s': State)
    requires CascadingFit(s.tasks, s.stream, s.workers) && e < |s.stream|
    requires Possible(s, Work(Cascade(e))) && s' == Moved(s, Work(Cascade(e)))
    ensures s.stream[e].task in s.tasks && !s.tasks[s.stream[e].task].state.Succeeded?
    ensures s'.tasks == AbortRows(s.tasks, s.stream[e].task.scan, s.stream[e].task.step)
  {
    CascadingFailed(s, e);
  }

  lemma CascadingFailed(s: State, e: nat)
    requires CascadingFit(s.tasks, s.stream, s.workers) && Enabled(s, Cascade(e))
    ensures s.stream[e].task in s.tasks && !s.tasks[s.stream[e].task].state.Succeeded?
    ensures ApplyWorker(s, Cascade(e)).tasks == AbortRows(s.tasks, s.stream[e].task.scan, s.stream[e].task.step)
  {
  }

  lemma DoomedRow(tasks: Tasks, x: TaskId, y: TaskId)
    requires Doomed(AbortRows(tasks, x.scan, x.step), x.scan, x.step)
    requires y in tasks && y.scan == x.scan && Reaches(RowEdges(tasks, y.scan), y.step, x.step)
    ensures AbortRows(tasks, x.scan, x.step)[y].state.Terminal()
  {
    EdgesKept(tasks, AbortRows(tasks, x.scan, x.step), y.scan);
  }

  lemma CascadeLeavesAt(states: seq<State>, moves: seq<Move>, k: nat, e: nat, y: TaskId)
    requires IsCleanRun(states, moves) && k < |moves| && moves[k] == Work(Cascade(e))
    requires e < |states[k].stream| && y in states[k].tasks && y.scan == states[k].stream[e].task.scan
    requires Reaches(RowEdges(states[k].tasks, y.scan), y.step, states[k].stream[e].task.step)
    ensures y in states[k + 1].tasks && states[k + 1].tasks[y].state.Terminal()
  {
    CleanRunStep(states, moves, k);
    CascadeLeaves(states[k], e, states[k + 1], y);
  }

  /** Over every clean run, once a failure has cascaded, no task of a strictly
      downstream step is ever queued or running again. */
  lemma CascadeIsFinal(states: seq<State>, moves: seq<Move>, i: nat, n: nat, e: nat, y: TaskId)
    requires IsCleanRun(states, moves) && i < n <= |moves| && moves[i] == Work(Cascade(e))
    requires e < |states[i].stream| && y in states[i].tasks && y.scan == states[i].stream[e].task.scan
    requires Reaches(RowEdges(states[i].tasks, y.scan), y.step, states[i].stream[e].task.step)
    ensures y in states[n].tasks && states[n].tasks[y].state.Terminal()
  {
    CascadeLeavesAt(states, moves, i, e, y);
    TerminalRowsFinal(states, moves, i + 1, n, y);
  }

  /** The rows of a scan are all there from its submission on. */
  lemma {:induction false} ScanRowsFixed(states: seq<State>, moves: seq<Move>, i: nat, n: nat, t: TaskId)
    requires IsCleanRun(states, moves) && i <= n <= |moves|
    requires t in states[n].tasks && t.scan in states[i].scans
    ensures t in states[i].tasks
    decreases n
  {
    if i < n {
      ScansPersist(states, moves, i, n - 1, t.scan);
      RowWasThereAt(states, moves, n - 1, t);
      ScanRowsFixed(states, moves, i, n - 1, t);
    }
  }

  lemma RowWasThere(s: State, m: Move, s': State, t: TaskId)
    requires CleanNext(s, m, s') && t in s'.tasks && t.scan in s.scans
    ensures t in s.tasks
  {
    if m.Submit? {
      ScanOfTask(s);
      NewRows(s.tasks, m.scan, m.plan);
    }
  }

  lemma RowWasThereAt(states: seq<State>, moves: seq<Move>, k: nat, t: TaskId)
    requires IsCleanRun(states, moves) && k < |moves| && t in states[k + 1].tasks && t.scan in states[k].scans
    ensures t in states[k].tasks
  {
    CleanRunStep(states, moves, k);
    RowWasThere(states[k], moves[k], states[k + 1], t);
  }

  lemma ScanKept(s: State, m: Move, s': State, scan: ScanId)
    requires CleanNext(s, m, s') && scan in s.scans
    ensures scan in s'.scans && (!s.scans[scan].Active? ==> s'.scans[scan] == s.scans[scan])
  {
  }

  lemma ScanKeptAt(states: seq<State>, moves: seq<Move>, k: nat, scan: ScanId)
    requires IsCleanRun(states, moves) && k < |moves| && scan in states[k].scans
    ensures scan in states[k + 1].scans
    ensures !states[k].scans[scan].Active? ==> states[k + 1].scans[scan] == states[k].scans[scan]
  {
    CleanRunStep(states, moves, k);
    ScanKept(states[k], moves[k], states[k + 1], scan);
  }

  lemma ScanThereAt(states: seq<State>, moves: seq<Move>, k: nat, scan: ScanId)
    requires IsCleanRun(states, moves) && k < |moves| && scan in states[k].scans
    ensures scan in states[k + 1].scans
  {
    ScanKeptAt(states, moves, k, scan);
  }

  lemma {:induction false} ScansPersist(states: seq<State>, moves: seq<Move>, i: nat, n: nat, scan: ScanId)
    requires IsCleanRun(states, moves) && i <= n <= |moves| && scan in states[i].scans
    ensures scan in states[n].scans
    decreases n
  {
    if i < n {
      ScansPersist(states, moves, i, n - 1, scan);
      ScanThereAt(states, moves, n - 1, scan);
    }
  }

  // --------------------------------------------------------- closed scans

  /** A closed scan keeps its status and every task's state, and its status is
      `completed` iff one of its tasks succeeded. */
  lemma {:induction false} ClosedScanFinal(states: seq<State>, moves: seq<Move>, i: nat, n: nat, scan: ScanId, t: TaskId)
    requires IsCleanRun(states, moves) && i <= n <= |moves|
    requires scan in states[i].scans && !states[i].scans[scan].Active?
    requires t in states[n].tasks && t.scan == scan
    ensures scan in states[n].scans && states[n].scans[scan] == states[i].scans[scan]
    ensures t in states[i].tasks && states[n].tasks[t].state == states[i].tasks[t].state
    ensures states[i].tasks[t].state.Terminal()
    ensures states[i].scans[scan].ScanCompleted? <==> SomeIn(states[i], scan, Succeeded)
  {
    ScanRowsFixed(states, moves, i, n, t);
    CleanRunInv(states, moves, i);
    TerminalRowsFinal(states, moves, i, n, t);
    StatusFinal(states, moves, i, n, scan);
  }

  lemma {:induction false} StatusFinal(states: seq<State>, moves: seq<Move>, i: nat, n: nat, scan: ScanId)
    requires IsCleanRun(states, moves) && i <= n <= |moves|
    requires scan in states[i].scans && !states[i].scans[scan].Active?
    ensures scan in states[n].scans && states[n].scans[scan] == states[i].scans[scan]
    decreases n
  {
    if i < n {
      StatusFinal(states, moves, i, n - 1, scan);
      ScanKeptAt(states, moves, n - 1, scan);
    }
  }

  // ------------------------------------------------------------ no hanging

  /** Nothing undelivered, nothing un-ACKed, nothing ready. */
  ghost predicate Quiescent(s: State) {
    s.cursor == |s.stream| && s.pel == {} && forall t :: !Ready(s, t)
  }

  /** Undispatched, with a gate whose finding type the scan has not produced. */
  ghost predicate HeldByGate(s: State, t: TaskId) {
    && t in s.tasks && !s.tasks[t].dispatched && s.tasks[t].state.Queued?
    && s.tasks[t].gate.Some? && (t.scan, s.tasks[t].gate.value) !in s.findings
  }

  /** Dead by the capability gate, which does not cascade. */
  ghost predicate Refused(s: State, t: TaskId) {
    t in s.tasks && s.tasks[t].state.Dead? && s.tasks[t].result == Some(NotPermitted)
  }

  /** t itself is held by its gate, or depends on a task that is held or refused. */
  ghost predicate Blocks(s: State, x: TaskId, t: TaskId) {
    && x.scan == t.scan
    && if x == t then HeldByGate(s, t)
       else (HeldByGate(s, x) || Refused(s, x)) && Reaches(RowEdges(s.tasks, t.scan), t.step, x.step)
  }

  ghost function StepsOf(tasks: Tasks): set<StepName> {
    (set t | t in tasks :: t.step) + (set t, d | t in tasks && d in tasks[t].deps :: d)
  }

  /** What a step depends on, transitively; it shrinks along every edge. */
  ghost function Below(tasks: Tasks, scan: ScanId, step: StepName): set<StepName> {
    set n | n in StepsOf(tasks) && Reaches(RowEdges(tasks, scan), step, n)
  }

  lemma BelowShrinks(tasks: Tasks, scan: ScanId, a: StepName, b: StepName)
    requires (a, b) in RowEdges(tasks, scan) && Acyclic(RowEdges(tasks, scan))
    ensures Below(tasks, scan, b) < Below(tasks, scan, a)
  {
    var edges := RowEdges(tasks, scan);
    EdgeReaches(edges, a, b);
    forall n | Reaches(edges, b, n) ensures Reaches(edges, a, n) {
      ReachesTransitive(edges, a, b, n);
    }
    assert b in Below(tasks, scan, a) && b !in Below(tasks, scan, b);
  }

  lemma RowsAcyclic(s: State, scan: ScanId)
    requires Basic(s)
    ensures Acyclic(RowEdges(s.tasks, scan))
  {
    var edges := RowEdges(s.tasks, scan);
    if scan in s.plans {
      assert PlanShape(scan, s.plans[scan]);
      forall e | e in edges ensures e in PlanEdges(s.plans[scan]) {
        var t, d :| t in s.tasks && t.scan == scan && d in s.tasks[t].deps && e == (t.step, d);
        var p :| p in s.plans[scan] && p.id == t && Agrees(s.tasks[t], p);
        assert d in p.deps;
      }
      SubgraphAcyclic(edges, PlanEdges(s.plans[scan]));
    } else {
      assert edges == {};
      OrderImpliesAcyclic(edges, []);
    }
  }

  /** At quiescence a task is neither running nor queued and dispatched. */
  lemma QuietRows(s: State, t: TaskId)
    requires FlowOf(s) && Quiescent(s) && t in s.tasks && !s.tasks[t].state.Terminal()
    ensures s.tasks[t].state.Queued? && !s.tasks[t].dispatched
  {
    assert s.tasks[t].dispatched ==> HasLive(t, s.stream, s.cursor, s.workers);
  }

  /** A failed or aborted dependency would have aborted its dependents. */
  lemma DoneDependency(tasks: Tasks, stream: seq<Message>, t: TaskId, x: TaskId)
    requires FailuresPassedOn(tasks, stream, map[]) && ResultsFit(tasks)
    requires t in tasks && !tasks[t].state.Terminal() && x in tasks && x.scan == t.scan && x.step in tasks[t].deps
    requires tasks[x].state.Terminal() && !tasks[x].state.Succeeded?
    ensures tasks[x].state.Dead? && tasks[x].result == Some(NotPermitted)
  {
    assert (t.step, x.step) in RowEdges(tasks, t.scan);
    EdgeReaches(RowEdges(tasks, t.scan), t.step, x.step);
    assert !CascadeDue(stream, map[], x);
  }

  lemma UnfinishedDependency(s: State, t: TaskId, x: TaskId)
    requires FlowOf(s) && FailuresPassedOn(s.tasks, s.stream, s.workers) && ResultsFit(s.tasks) && Quiescent(s)
    requires t in s.tasks && s.tasks[t].state.Queued? && x in s.tasks && x.scan == t.scan
    requires x.step in s.tasks[t].deps && !s.tasks[x].state.Succeeded?
    ensures Refused(s, x) || s.tasks[x].state.Queued?
  {
    if s.tasks[x].state.Terminal() {
      assert s.workers == map[];
      DoneDependency(s.tasks, s.stream, t, x);
    } else {
      QuietRows(s, x);
    }
  }

  lemma {:induction false} HangingHasBlocker(s: State, t: TaskId) returns (x: TaskId)
    requires CleanInv(s) && Quiescent(s) && t in s.tasks && s.tasks[t].state.Queued?
    ensures !s.tasks[t].dispatched && Blocks(s, x, t)
    decreases Below(s.tasks, t.scan, t.step)
  {
    QuietRows(s, t);
    if HeldByGate(s, t) {
      x := t;
    } else {
      assert !Ready(s, t);
      var dep :| dep in s.tasks && dep.scan == t.scan && dep.step in s.tasks[t].deps && !s.tasks[dep].state.Succeeded?;
      UnfinishedDependency(s, t, dep);
      var edges := RowEdges(s.tasks, t.scan);
      assert (t.step, dep.step) in edges;
      EdgeReaches(edges, t.step, dep.step);
      if Refused(s, dep) {
        x := dep;
      } else {
        RowsAcyclic(s, t.scan);
        BelowShrinks(s.tasks, t.scan, t.step, dep.step);
        x := HangingHasBlocker(s, dep);
        if x != dep {
          ReachesTransitive(edges, t.step, dep.step, x.step);
        }
      }
    }
  }

  /** No hanging. When a clean run has come to rest, every task that is still queued
      is undispatched, and it or a step it transitively depends on has a task held by
      an unmet gate or refused by the capability gate. */
  lemma NoHanging(states: seq<State>, moves: seq<Move>, n: nat, t: TaskId) returns (x: TaskId)
    requires IsCleanRun(states, moves) && n <= |moves| && Quiescent(states[n])
    requires t in states[n].tasks && !states[n].tasks[t].state.Terminal()
    ensures !states[n].tasks[t].dispatched && states[n].tasks[t].state.Queued? && Blocks(states[n], x, t)
  {
    CleanRunInv(states, moves, n);
    QuietRows(states[n], t);
    x := HangingHasBlocker(states[n], t);
  }

  /** So a running scan without unmet gates and refusals can be closed. */
  lemma UnblockedScanCloses(states: seq<State>, moves: seq<Move>, n: nat, scan: ScanId)
    requires IsCleanRun(states, moves) && n <= |moves| && Quiescent(states[n])
    requires scan in states[n].scans && states[n].scans[scan].Active?
    requires forall x | x in states[n].tasks && x.scan == scan :: !HeldByGate(states[n], x) && !Refused(states[n], x)
    ensures Possible(states[n], CloseScan(scan))
  {
    forall t | t in states[n].tasks && t.scan == scan ensures states[n].tasks[t].state.Terminal() {
      if !states[n].tasks[t].state.Terminal() {
        var x := NoHanging(states, moves, n, t);
        assert false;
      }
    }
  }
}
