/** Two facts about every run, crashes included: a dependent task is only ever sent
    after a read that saw its dependencies done, and a scan is only closed after a
    read that saw all its planned tasks terminal. */
module Runs {
  import opened Prelude
  import opened Graph
  import opened Planner
  import opened Lifecycle

  lemma {:induction false} GrowsRun(states: seq<State>, acts: seq<Action>, i: nat, n: nat)
    requires Path(states, acts) && i <= n <= |acts|
    ensures Grows(states[i], states[n])
    decreases n
  {
    if i < n {
      GrowsRun(states, acts, i, n - 1);
      RunStep(states, acts, n - 1);
      GrowsStep(states[n - 1], acts[n - 1]);
      GrowsTransitive(states[i], states[n - 1], states[n]);
    }
  }

  lemma GrowsTransitive(a: State, b: State, c: State)
    requires Grows(a, b) && Grows(b, c)
    ensures Grows(a, c)
  {
  }

  // ------------------------------------------------- dispatch safety

  /** All planned tasks of all dependency steps are inserted and succeeded. */
  ghost predicate DependenciesDone(s: State, t: TaskId) {
    && t in s.tasks && t.scan in s.plans
    && forall p | p in s.plans[t.scan] && p.id.step in s.tasks[t].deps ::
         p.id in s.tasks && s.tasks[p.id].state.Succeeded?
  }

  ghost predicate GateMet(s: State, t: TaskId) {
    t in s.tasks && (s.tasks[t].gate.None? || (t.scan, s.tasks[t].gate.value) in s.findings)
  }

  /** Rows agree with every plan entry of the same key. */
  lemma RowAgrees(s: State, p: Planned)
    requires RowsPlanned(s.tasks, s.plans) && PlansOk(s.plans)
    requires p.id in s.tasks && p.id.scan in s.plans && p in s.plans[p.id.scan]
    ensures Agrees(s.tasks[p.id], p)
  {
    assert PlanShape(p.id.scan, s.plans[p.id.scan]);
    var q :| q in s.plans[p.id.scan] && q.id == p.id && Agrees(s.tasks[p.id], q);
  }

  /** Only tasks without dependencies are sent by the submission itself. */
  ghost predicate SendsRoots(submissions: map<ScanId, Submission>, plans: map<ScanId, seq<Planned>>) {
    forall scan | scan in submissions && !submissions[scan].point.Inserting? ::
      scan in plans && submissions[scan].pos < |plans[scan]| && plans[scan][submissions[scan].pos].deps == []
  }

  lemma SendsRootsStep(s: State, a: Action)
    requires SendsRoots(s.submissions, s.plans) && s.plans.Keys == s.scans.Keys && Enabled(s, a)
    ensures SendsRoots(Apply(s, a).submissions, Apply(s, a).plans)
  {
    if SubmitAction(a) {
      assert Apply(s, a) == ApplySubmit(s, a);
    } else {
      KeepsPlans(s, a);
      KeepsSubmissions(s, a);
    }
  }

  lemma KeepsSubmissions(s: State, a: Action)
    requires Enabled(s, a) && !SubmitAction(a)
    ensures Apply(s, a).submissions == s.submissions
  {
  }

  lemma {:induction false} SendsRootsRun(states: seq<State>, acts: seq<Action>, n: nat)
    requires IsRun(states, acts) && n <= |acts|
    ensures SendsRoots(states[n].submissions, states[n].plans)
  {
    if n > 0 {
      SendsRootsRun(states, acts, n - 1);
      BasicRun(states, acts, n - 1);
      RunStep(states, acts, n - 1);
      SendsRootsStep(states[n - 1], acts[n - 1]);
    }
  }

  /** In a plan that lists dependencies first, a row is inserted after all the rows
      of its dependency steps. */
  ghost predicate InsertedInOrder(tasks: Tasks, plans: map<ScanId, seq<Planned>>) {
    forall t, q | t in tasks && t.scan in plans && PlannedInOrder(plans[t.scan]) &&
      q in plans[t.scan] && q.id.step in tasks[t].deps :: q.id in tasks
  }

  lemma InsertKeepsOrder(s: State, scan: ScanId)
    requires InsertedInOrder(s.tasks, s.plans) && Enabled(s, Insert(scan))
    requires Inserted(s.plans[scan], s.submissions[scan].pos, s.tasks.Keys) && Current(s, scan).id.scan == scan
    ensures InsertedInOrder(ApplySubmit(s, Insert(scan)).tasks, s.plans)
  {
    var tasks, plan, pos := ApplySubmit(s, Insert(scan)).tasks, s.plans[scan], s.submissions[scan].pos;
    forall t, q | t in tasks && t.scan in s.plans && PlannedInOrder(s.plans[t.scan]) &&
      q in s.plans[t.scan] && q.id.step in tasks[t].deps
      ensures q.id in tasks
    {
      if t !in s.tasks {
        var m :| 0 <= m < |plan| && plan[m] == q;
        assert m < pos;
      }
    }
  }

  lemma CurrentOk(s: State, scan: ScanId)
    requires Basic(s) && Enabled(s, Insert(scan))
    ensures Inserted(s.plans[scan], s.submissions[scan].pos, s.tasks.Keys) && Current(s, scan).id.scan == scan
  {
    assert SubmissionOk(s.submissions[scan], s.plans[scan], s.tasks.Keys);
    assert Current(s, scan) in s.plans[scan] && PlanShape(scan, s.plans[scan]);
  }

  lemma OrderStep(s: State, a: Action)
    requires Basic(s) && InsertedInOrder(s.tasks, s.plans) && Enabled(s, a)
    ensures InsertedInOrder(Apply(s, a).tasks, Apply(s, a).plans)
  {
    GrowsStep(s, a);
    if a.Insert? {
      CurrentOk(s, a.scan);
      InsertKeepsOrder(s, a.scan);
    } else if a.Begin? {
      assert forall t | t in s.tasks :: t.scan in s.plans;
    } else {
      KeepsPlans(s, a);
    }
  }

  lemma {:induction false} OrderRun(states: seq<State>, acts: seq<Action>, n: nat)
    requires IsRun(states, acts) && n <= |acts|
    ensures InsertedInOrder(states[n].tasks, states[n].plans)
  {
    if n > 0 {
      OrderRun(states, acts, n - 1);
      BasicRun(states, acts, n - 1);
      RunStep(states, acts, n - 1);
      OrderStep(states[n - 1], acts[n - 1]);
    }
  }

  ghost predicate InFlight(s: State, t: TaskId) {
    || (exists e :: 0 <= e < |s.stream| && s.stream[e].task == t)
    || (s.dispatcher.Dispatching? && t in s.dispatcher.todo)
  }

  lemma SendIsRoot(s: State, scan: ScanId)
    requires Basic(s) && SendsRoots(s.submissions, s.plans) && Enabled(s, Send(scan))
    ensures Current(s, scan).id in s.tasks && s.tasks[Current(s, scan).id].deps == []
  {
    assert SubmissionOk(s.submissions[scan], s.plans[scan], s.tasks.Keys);
    var p := Current(s, scan);
    assert p in s.plans[scan] && PlanShape(scan, s.plans[scan]);
    RowAgrees(s, p);
  }

  /** A dependent task comes into flight only through the dispatcher's read. */
  lemma FlightBegins(s: State, a: Action, t: TaskId)
    requires Enabled(s, a) && InFlight(Apply(s, a), t)
    requires QueueOk(|s.stream|, s.cursor, s.pel, s.workers, s.claims)
    requires a.Send? ==> Current(s, a.scan).id != t
    ensures InFlight(s, t) || (a.ReadReady? && t in a.batch)
  {
    if SubmitAction(a) {
      assert Apply(s, a) == ApplySubmit(s, a);
    } else if DispatchAction(a) {
      assert Apply(s, a) == ApplyDispatch(s, a);
    } else if ClosingAction(a) {
      assert Apply(s, a) == ApplyClosing(s, a);
    } else if ReclaimAction(a) {
      assert Apply(s, a) == ApplyReclaim(s, a);
    } else {
      assert Apply(s, a) == ApplyWorker(s, a);
    }
  }

  lemma {:induction false} TracesBack(states: seq<State>, acts: seq<Action>, n: nat, t: TaskId)
    requires IsRun(states, acts) && n <= |acts|
    requires t in states[n].tasks && states[n].tasks[t].deps != [] && InFlight(states[n], t)
    ensures exists i | 0 <= i < n :: acts[i].ReadReady? && t in acts[i].batch
  {
    if n > 0 {
      FlightAt(states, acts, n - 1, t);
      if InFlight(states[n - 1], t) {
        TracesBack(states, acts, n - 1, t);
      }
    }
  }

  lemma FlightAt(states: seq<State>, acts: seq<Action>, k: nat, t: TaskId)
    requires IsRun(states, acts) && k < |acts|
    requires t in states[k + 1].tasks && states[k + 1].tasks[t].deps != [] && InFlight(states[k + 1], t)
    ensures InFlight(states[k], t) || (acts[k].ReadReady? && t in acts[k].batch)
    ensures InFlight(states[k], t) ==>
              t in states[k].tasks && states[k].tasks[t].deps == states[k + 1].tasks[t].deps
  {
    BasicRun(states, acts, k);
    SendsRootsRun(states, acts, k);
    RunStep(states, acts, k);
    FlightStep(states[k], acts[k], states[k + 1], t);
  }

  lemma FlightStep(s: State, a: Action, s': State, t: TaskId)
    requires Basic(s) && SendsRoots(s.submissions, s.plans) && Next(s, a, s')
    requires t in s'.tasks && s'.tasks[t].deps != [] && InFlight(s', t)
    ensures InFlight(s, t) || (a.ReadReady? && t in a.batch)
    ensures InFlight(s, t) ==> t in s.tasks && s.tasks[t].deps == s'.tasks[t].deps
  {
    GrowsStep(s, a);
    if a.Send? {
      SendIsRoot(s, a.scan);
    }
    FlightBegins(s, a, t);
    if InFlight(s, t) {
      FlightRow(s, t);
    }
  }

  lemma FlightRow(s: State, t: TaskId)
    requires Basic(s) && InFlight(s, t)
    ensures t in s.tasks
  {
  }

  /** Dispatch safety. If the plan lists dependencies first, any message that ever
      exists for a task with dependencies traces back to a read of the dispatcher at
      which all planned tasks of its dependency steps were inserted and succeeded
      and its gate was met; the gate is met ever after. */
  lemma DispatchSafety(states: seq<State>, acts: seq<Action>, n: nat, e: nat) returns (i: nat)
    requires IsRun(states, acts) && n <= |acts| && e < |states[n].stream|
    requires var t := states[n].stream[e].task;
             t in states[n].tasks && states[n].tasks[t].deps != [] &&
             t.scan in states[n].plans && PlannedInOrder(states[n].plans[t.scan])
    ensures var t := states[n].stream[e].task;
            && i < n && acts[i].ReadReady? && t in acts[i].batch
            && DependenciesDone(states[i], t) && GateMet(states[i], t) && GateMet(states[n], t)
  {
    var t := states[n].stream[e].task;
    TracesBack(states, acts, n, t);
    i :| 0 <= i < n && acts[i].ReadReady? && t in acts[i].batch;
    RunStep(states, acts, i);
    assert Ready(states[i], t);
    BasicRun(states, acts, i);
    OrderRun(states, acts, i);
    GrowsRun(states, acts, i, n);
    PlansPersist(states, acts, i, n, t.scan);
  }

  lemma {:induction false} PlansPersist(states: seq<State>, acts: seq<Action>, i: nat, n: nat, scan: ScanId)
    requires IsRun(states, acts) && i <= n <= |acts| && scan in states[i].plans
    ensures scan in states[n].plans && states[n].plans[scan] == states[i].plans[scan]
    decreases n
  {
    if i < n {
      PlansPersist(states, acts, i, n - 1, scan);
      PlanPersistsAt(states, acts, n - 1, scan);
    }
  }

  lemma PlanPersistsAt(states: seq<State>, acts: seq<Action>, k: nat, scan: ScanId)
    requires IsRun(states, acts) && k < |acts| && scan in states[k].plans
    ensures scan in states[k + 1].plans && states[k + 1].plans[scan] == states[k].plans[scan]
  {
    BasicRun(states, acts, k);
    RunStep(states, acts, k);
    PlanPersists(states[k], acts[k], scan);
  }

  lemma PlanPersists(s: State, a: Action, scan: ScanId)
    requires Enabled(s, a) && scan in s.plans && s.plans.Keys == s.scans.Keys
    ensures scan in Apply(s, a).plans && Apply(s, a).plans[scan] == s.plans[scan]
  {
    if a.Begin? {
      assert Apply(s, a) == ApplySubmit(s, a);
    } else {
      KeepsPlans(s, a);
    }
  }

  /** The listing order matters: when the first entry of a plan has a dependency and
      no gate, it can be sent while it is the only row of its scan. */
  ghost function OnlyFirst(scan: ScanId, plan: seq<Planned>, stream: seq<Message>, d: Dispatcher): State
    requires plan != []
  {
    State(map[plan[0].id := FreshRow(plan[0])], map[scan := Pending], map[scan := plan], {}, stream, 0, {}, map[], map[],
          map[scan := Submission(1, Inserting)], d, map[])
  }

  lemma FirstRowInserted(s0: State, scan: ScanId, plan: seq<Planned>) returns (acts: seq<Action>)
    requires Init(s0) && plan != [] && PlanShape(scan, plan) && plan[0].deps != []
    ensures Exec(s0, acts, OnlyFirst(scan, plan, [], Idle))
  {
    var s1 := State(map[], map[scan := Pending], map[scan := plan], {}, [], 0, {}, map[], map[],
                    map[scan := Submission(0, Inserting)], Idle, map[]);
    assert s1 == Apply(s0, Begin(scan, plan));
    assert OnlyFirst(scan, plan, [], Idle) == Apply(s1, Insert(scan));
    ExecOne(s0, Begin(scan, plan), s1);
    ExecStep(s0, [Begin(scan, plan)], s1, Insert(scan), OnlyFirst(scan, plan, [], Idle));
    acts := [Begin(scan, plan)] + [Insert(scan)];
  }

  lemma FirstRowReady(scan: ScanId, plan: seq<Planned>)
    requires plan != [] && PlanShape(scan, plan) && plan[0].gate.None?
    ensures ReadyBatch(OnlyFirst(scan, plan, [], Idle), [plan[0].id])
  {
    var s, t := OnlyFirst(scan, plan, [], Idle), plan[0].id;
    if t.step in plan[0].deps {
      assert plan[0] in plan && (t.step, t.step) in PlanEdges(plan);
      EdgeReaches(PlanEdges(plan), t.step, t.step);
    }
    assert Ready(s, t);
    assert forall x :: Ready(s, x) ==> x in [t];
  }

  lemma PrematureDispatch(s0: State, scan: ScanId, plan: seq<Planned>) returns (acts: seq<Action>, s': State)
    requires Init(s0) && plan != [] && PlanShape(scan, plan) && plan[0].deps != [] && plan[0].gate.None?
    ensures Exec(s0, acts, s') && s'.stream == [Message(plan[0].id, 1)]
    ensures s'.tasks.Keys == {plan[0].id}
  {
    var t := plan[0].id;
    var before := FirstRowInserted(s0, scan, plan);
    var s1 := OnlyFirst(scan, plan, [], Idle);
    FirstRowReady(scan, plan);
    var s2 := OnlyFirst(scan, plan, [], Dispatching([t], []));
    assert s2 == Apply(s1, ReadReady([t]));
    s' := OnlyFirst(scan, plan, [Message(t, 1)], Dispatching([], [t]));
    var none: seq<TaskId> := [];
    assert [t][1..] == none && none + [t] == [t] && s2.stream + [Message(t, 1)] == [Message(t, 1)];
    assert s' == Apply(s2, SendReady);
    ExecStep(s0, before, s1, ReadReady([t]), s2);
    ExecStep(s0, before + [ReadReady([t])], s2, SendReady, s');
    acts := before + [ReadReady([t])] + [SendReady];
  }

  // -------------------------------------------------- scan finalization

  ghost predicate AllPlannedTerminal(s: State, scan: ScanId) {
    && scan in s.plans
    && forall p | p in s.plans[scan] :: p.id in s.tasks && s.tasks[p.id].state.Terminal()
  }

  /** The status that `_finalize_scans` derives from the task counts. */
  ghost predicate VerdictAt(s: State, scan: ScanId, status: ScanStatus) {
    || (status.ScanCompleted? && SomeIn(s, scan, Succeeded))
    || (status.ScanFailed? && !SomeIn(s, scan, Succeeded) &&
        (SomeIn(s, scan, Failed) || SomeIn(s, scan, Aborted) || SomeIn(s, scan, Dead)))
  }

  /** States i and j of the run justify closing the scan: the select and the tally. */
  ghost predicate Selected(states: seq<State>, scan: ScanId, i: nat) {
    i < |states| && scan in states[i].scans && states[i].scans[scan].Active? && AllPlannedTerminal(states[i], scan)
  }

  ghost predicate Justified(states: seq<State>, n: nat, scan: ScanId)
    requires n < |states|
  {
    scan in states[n].closing ==>
      exists i | 0 <= i < n ::
        && Selected(states, scan, i)
        && (states[n].closing[scan].Decided? ==>
              exists j | i <= j < n :: VerdictAt(states[j], scan, states[n].closing[scan].status))
  }

  lemma SelectSees(s: State, scan: ScanId)
    requires Basic(s) && Closable(s, scan)
    ensures AllPlannedTerminal(s, scan)
  {
    assert Inserted(s.plans[scan], |s.plans[scan]|, s.tasks.Keys);
    assert PlanShape(scan, s.plans[scan]);
    forall p | p in s.plans[scan] ensures p.id in s.tasks && s.tasks[p.id].state.Terminal() {
      var k :| 0 <= k < |s.plans[scan]| && s.plans[scan][k] == p;
    }
  }

  lemma ClosingMoves(s: State, a: Action, scan: ScanId)
    requires Enabled(s, a) && scan in Apply(s, a).closing
    ensures || (scan in s.closing && Apply(s, a).closing[scan] == s.closing[scan])
            || (Closable(s, scan) && Apply(s, a).closing[scan] == Closing.Selected)
            || (scan in s.closing && Apply(s, a).closing[scan].Decided? &&
                VerdictAt(s, scan, Apply(s, a).closing[scan].status))
  {
    if ClosingAction(a) {
      assert Apply(s, a) == ApplyClosing(s, a);
      CloserMoves(s, a, scan, ApplyClosing(s, a));
    } else {
      KeepsClosing(s, a);
    }
  }

  lemma CloserMoves(s: State, a: Action, scan: ScanId, s': State)
    requires Enabled(s, a) && ClosingAction(a) && s' == ApplyClosing(s, a) && scan in s'.closing
    ensures || (scan in s.closing && s'.closing[scan] == s.closing[scan])
            || (Closable(s, scan) && s'.closing[scan] == Closing.Selected)
            || (scan in s.closing && s'.closing[scan].Decided? && VerdictAt(s, scan, s'.closing[scan].status))
  {
  }

  lemma KeepsClosing(s: State, a: Action)
    requires Enabled(s, a) && !ClosingAction(a)
    ensures Apply(s, a).closing == s.closing
  {
  }

  lemma {:induction false} JustifiedRun(states: seq<State>, acts: seq<Action>, n: nat, scan: ScanId)
    requires IsRun(states, acts) && n <= |acts|
    ensures Justified(states, n, scan)
  {
    if n > 0 && scan in states[n].closing {
      var s, s' := states[n - 1], states[n];
      JustifiedRun(states, acts, n - 1, scan);
      RunStep(states, acts, n - 1);
      ClosingMoves(s, acts[n - 1], scan);
      if Closable(s, scan) && s'.closing[scan] == Closing.Selected {
        BasicRun(states, acts, n - 1);
        SelectSees(s, scan);
        assert Selected(states, scan, n - 1);
      } else {
        var i :| 0 <= i < n - 1 && Selected(states, scan, i) &&
          (s.closing[scan].Decided? ==> exists j | i <= j < n - 1 :: VerdictAt(states[j], scan, s.closing[scan].status));
        assert Selected(states, scan, i);
        if s'.closing[scan] != s.closing[scan] {
          assert VerdictAt(states[n - 1], scan, s'.closing[scan].status);
        }
      }
    }
  }

  lemma SubmitKeepsActive(s: State, a: Action, scan: ScanId)
    requires Enabled(s, a) && SubmitAction(a) && scan in s.scans && s.scans[scan].Active?
    requires SubmissionsOk(s.submissions, s.plans, s.scans, s.tasks.Keys)
    ensures scan in Apply(s, a).scans && Apply(s, a).scans[scan] == Active
  {
    assert Apply(s, a) == ApplySubmit(s, a);
  }

  lemma StatusMoves(s: State, a: Action, scan: ScanId, s': State)
    requires Next(s, a, s') && scan in s.scans && s.scans[scan].Active?
    requires SubmissionsOk(s.submissions, s.plans, s.scans, s.tasks.Keys)
    ensures scan in s'.scans
    ensures s'.scans[scan] != Active ==>
              scan in s.closing && s.closing[scan].Decided? && s'.scans[scan] == s.closing[scan].status
  {
    if SubmitAction(a) {
      SubmitKeepsActive(s, a, scan);
    } else if ClosingAction(a) {
      assert Apply(s, a) == ApplyClosing(s, a);
    } else {
      KeepsScans(s, a);
    }
  }

  /** A scan leaves `running` only after a state i at which it was running and all
      its planned tasks were terminal; the new status is the verdict over the task
      states of a state j between i and the update. */
  lemma ScanClosesAfterItsTasks(states: seq<State>, acts: seq<Action>, n: nat, scan: ScanId) returns (i: nat, j: nat)
    requires IsRun(states, acts) && n < |acts|
    requires scan in states[n].scans && states[n].scans[scan].Active?
    requires scan in states[n + 1].scans && states[n + 1].scans[scan] != Active
    ensures i <= j < n && Selected(states, scan, i)
    ensures VerdictAt(states[j], scan, states[n + 1].scans[scan])
  {
    BasicRun(states, acts, n);
    RunStep(states, acts, n);
    StatusMoves(states[n], acts[n], scan, states[n + 1]);
    JustifiedRun(states, acts, n, scan);
    i :| 0 <= i < n && Selected(states, scan, i) &&
      exists j | i <= j < n :: VerdictAt(states[j], scan, states[n].closing[scan].status);
    j :| i <= j < n && VerdictAt(states[j], scan, states[n].closing[scan].status);
  }

  // ------------------------------------------------- rows of a submission

  /** Once a scan has been `running`, its rows are one per `once` step and one per
      other step and distinct target, whatever targets were repeated. */
  lemma RowsAreTheWorkUnits(states: seq<State>, acts: seq<Action>, n: nat, scan: ScanId, wf: Workflow, targets: seq<string>)
    requires IsRun(states, acts) && n <= |acts| && DistinctNames(wf.steps)
    requires scan in states[n].scans && !states[n].scans[scan].Pending?
    requires scan in states[n].plans && states[n].plans[scan] == Plan(scan, wf, targets)
    ensures (set t | t in states[n].tasks && t.scan == scan) ==
            set u | u in WorkUnits(wf, targets) :: UnitKey(scan, wf, targets, u)
  {
    BasicRun(states, acts, n);
    RowsAreTheKeys(states[n], scan);
    PlanKeysBijective(scan, wf, targets);
  }

  lemma RowsAreTheKeys(s: State, scan: ScanId)
    requires RowsPlanned(s.tasks, s.plans) && PlansOk(s.plans) && ActivesOk(s.plans, s.scans, s.tasks.Keys)
    requires scan in s.scans && !s.scans[scan].Pending? && scan in s.plans
    ensures (set t | t in s.tasks && t.scan == scan) == KeysOf(s.plans[scan])
  {
    var plan := s.plans[scan];
    forall p | p in plan ensures p.id in s.tasks && p.id.scan == scan {
      PlannedHasRow(s, scan, p);
    }
    forall t | t in s.tasks && t.scan == scan ensures t in KeysOf(plan) {
      RowIsPlanned(s, t);
    }
  }

  lemma PlannedHasRow(s: State, scan: ScanId, p: Planned)
    requires PlansOk(s.plans) && ActivesOk(s.plans, s.scans, s.tasks.Keys)
    requires scan in s.scans && !s.scans[scan].Pending? && scan in s.plans && p in s.plans[scan]
    ensures p.id in s.tasks && p.id.scan == scan
  {
    assert PlanShape(scan, s.plans[scan]) && Inserted(s.plans[scan], |s.plans[scan]|, s.tasks.Keys);
    var k :| 0 <= k < |s.plans[scan]| && s.plans[scan][k] == p;
  }

  lemma RowIsPlanned(s: State, t: TaskId)
    requires RowsPlanned(s.tasks, s.plans) && t in s.tasks
    ensures t.scan in s.plans && t in KeysOf(s.plans[t.scan])
  {
    var p :| p in s.plans[t.scan] && p.id == t && Agrees(s.tasks[t], p);
  }

  ghost function InsertRows(tasks: Tasks, part: seq<Planned>): Tasks {
    if part == [] then tasks else InsertRow(InsertRows(tasks, part[..|part| - 1]), part[|part| - 1])
  }

  lemma {:induction false} KnownRowsInert(tasks: Tasks, part: seq<Planned>)
    requires forall p | p in part :: p.id in tasks
    ensures InsertRows(tasks, part) == tasks
  {
    if part != [] {
      KnownRowsInert(tasks, part[..|part| - 1]);
      assert part[|part| - 1] in part;
    }
  }

  /** Planning again after a crash changes nothing: inserting any part of the plan of a
      finished submission leaves every row as it is, whatever has happened to it. */
  lemma ReplanningInert(states: seq<State>, acts: seq<Action>, n: nat, scan: ScanId, part: seq<Planned>)
    requires IsRun(states, acts) && n <= |acts|
    requires scan in states[n].scans && !states[n].scans[scan].Pending? && scan in states[n].plans
    requires forall p | p in part :: p in states[n].plans[scan]
    ensures InsertRows(states[n].tasks, part) == states[n].tasks
  {
    BasicRun(states, acts, n);
    RowsAreTheKeys(states[n], scan);
    forall p | p in part ensures p.id in states[n].tasks {
      assert p.id in KeysOf(states[n].plans[scan]);
    }
    KnownRowsInert(states[n].tasks, part);
  }
}
