/** Clean runs: a submission, a dispatch and the closing of a scan are one step each,
    worker steps interleave freely, and there is no crash, no error outside the
    handler's own branches and no reclaim; targets are distinct. */
module CleanRuns {
  import opened Prelude
  import opened Graph
  import opened Planner
  import opened Lifecycle

  datatype Move =
    | Submit(scan: ScanId, plan: seq<Planned>)
    | Dispatch(batch: seq<TaskId>)
    | CloseScan(scan: ScanId)
    | Work(act: Action)

  /** Nothing but the tables, the queue and the handlers. */
  ghost predicate Quiet(s: State) {
    s.claims == map[] && s.submissions == map[] && s.dispatcher.Idle? && s.closing == map[]
  }

  function PlannedRow(p: Planned): Row {
    FreshRow(p).(dispatched := p.deps == [])
  }

  ghost function AddRows(tasks: Tasks, plan: seq<Planned>): Tasks {
    if plan == [] then tasks
    else AddRows(tasks, plan[..|plan| - 1])[plan[|plan| - 1].id := PlannedRow(plan[|plan| - 1])]
  }

  ghost function RootMessages(plan: seq<Planned>): seq<Message> {
    if plan == [] then []
    else
      var last := plan[|plan| - 1];
      RootMessages(plan[..|plan| - 1]) + (if last.deps == [] then [Message(last.id, 1)] else [])
  }

  ghost function FirstMessages(batch: seq<TaskId>): seq<Message> {
    seq(|batch|, i requires 0 <= i < |batch| => Message(batch[i], 1))
  }

  ghost function ClosedStatus(s: State, scan: ScanId): ScanStatus {
    if SomeIn(s, scan, Succeeded) then ScanCompleted else ScanFailed
  }

  ghost predicate Possible(s: State, m: Move) {
    match m
    case Submit(scan, plan) => scan !in s.scans && plan != [] && PlanShape(scan, plan) && DistinctKeys(plan)
    case Dispatch(batch) => ReadyBatch(s, batch)
    case CloseScan(scan) => Closable(s, scan)
    case Work(a) => WorkerAction(a) && !a.Stop? && Enabled(s, a)
  }

  ghost function Moved(s: State, m: Move): State
    requires Possible(s, m)
  {
    match m
    case Submit(scan, plan) =>
      s.(tasks := AddRows(s.tasks, plan), scans := s.scans[scan := Active], plans := s.plans[scan := plan],
         stream := s.stream + RootMessages(plan))
    case Dispatch(batch) =>
      s.(tasks := MarkRows(s.tasks, batch), stream := s.stream + FirstMessages(batch))
    case CloseScan(scan) => s.(scans := s.scans[scan := ClosedStatus(s, scan)])
    case Work(a) => ApplyWorker(s, a)
  }

  ghost predicate MoveAt(states: seq<State>, moves: seq<Move>, i: nat) {
    && i < |moves| && i + 1 < |states|
    && Possible(states[i], moves[i]) && states[i + 1] == Moved(states[i], moves[i])
  }

  ghost predicate IsCleanRun(states: seq<State>, moves: seq<Move>) {
    && |states| == |moves| + 1
    && Init(states[0])
    && forall i: nat | i < |moves| :: MoveAt(states, moves, i)
  }

  // ------------------------------------------------- facts about the macros

  lemma {:induction false} AddRowsAt(tasks: Tasks, plan: seq<Planned>)
    requires DistinctKeys(plan)
    ensures forall t :: t in AddRows(tasks, plan) <==> t in tasks || t in KeysOf(plan)
    ensures forall p | p in plan :: p.id in AddRows(tasks, plan) && AddRows(tasks, plan)[p.id] == PlannedRow(p)
    ensures forall t | t in tasks && t !in KeysOf(plan) :: AddRows(tasks, plan)[t] == tasks[t]
  {
    if plan != [] {
      var init, last := plan[..|plan| - 1], plan[|plan| - 1];
      AddRowsAt(tasks, init);
      assert KeysOf(plan) == KeysOf(init) + {last.id} by {
        assert forall p :: p in plan <==> p in init || p == last;
      }
      forall p | p in plan
        ensures p.id in AddRows(tasks, plan) && AddRows(tasks, plan)[p.id] == PlannedRow(p)
      {
        var k :| 0 <= k < |plan| && plan[k] == p;
        if k < |plan| - 1 {
          assert init[k] == p && p.id != last.id;
        }
      }
    }
  }

  lemma {:induction false} RootMessagesAre(plan: seq<Planned>)
    requires DistinctKeys(plan)
    ensures forall m | m in RootMessages(plan) :: m.attempt == 1 && exists p | p in plan :: p.deps == [] && p.id == m.task
    ensures forall p | p in plan && p.deps == [] :: Message(p.id, 1) in RootMessages(plan)
    ensures forall i, j | 0 <= i < j < |RootMessages(plan)| :: RootMessages(plan)[i].task != RootMessages(plan)[j].task
  {
    if plan != [] {
      var init, last := plan[..|plan| - 1], plan[|plan| - 1];
      RootMessagesAre(init);
      forall m | m in RootMessages(init) ensures m.task != last.id {
        var p :| p in init && p.deps == [] && p.id == m.task;
        var k :| 0 <= k < |init| && init[k] == p;
        assert plan[k].id != plan[|plan| - 1].id;
      }
    }
  }

  lemma {:induction false} RootInMessages(plan: seq<Planned>, t: TaskId)
    ensures Message(t, 1) in RootMessages(plan) <==> exists i :: 0 <= i < |plan| && plan[i].deps == [] && plan[i].id == t
  {
    if plan != [] {
      var n := |plan| - 1;
      RootInMessages(plan[..n], t);
      if i :| 0 <= i < n && plan[i].deps == [] && plan[i].id == t {
        assert plan[..n][i] == plan[i];
      }
    }
  }

  // ------------------------------------- every clean move is a run of steps

  /** A submission that has dealt with the first k entries of its plan. */
  ghost function HalfSubmitted(s: State, scan: ScanId, plan: seq<Planned>, k: nat): State
    requires k <= |plan|
  {
    s.(tasks := AddRows(s.tasks, plan[..k]), scans := s.scans[scan := Pending], plans := s.plans[scan := plan],
       stream := s.stream + RootMessages(plan[..k]), submissions := map[scan := Submission(k, Inserting)])
  }

  lemma AddRowsNext(tasks: Tasks, plan: seq<Planned>, k: nat)
    requires k < |plan|
    ensures AddRows(tasks, plan[..k + 1]) == AddRows(tasks, plan[..k])[plan[k].id := PlannedRow(plan[k])]
    ensures RootMessages(plan[..k + 1]) ==
            RootMessages(plan[..k]) + (if plan[k].deps == [] then [Message(plan[k].id, 1)] else [])
  {
    assert plan[..k + 1][..k] == plan[..k];
  }

  /** The row of the entry is not there yet, or as an earlier entry of its key left it. */
  predicate Insertable(tasks: Tasks, p: Planned) {
    p.id in tasks ==> tasks[p.id] == PlannedRow(p)
  }

  lemma {:induction false} AddedRow(tasks: Tasks, plan: seq<Planned>, t: TaskId)
    requires t in AddRows(tasks, plan) && t !in tasks
    ensures exists p | p in plan :: p.id == t && AddRows(tasks, plan)[t] == PlannedRow(p)
  {
    var last := plan[|plan| - 1];
    if t != last.id {
      AddedRow(tasks, plan[..|plan| - 1], t);
    }
  }

  lemma NextInsertable(scan: ScanId, tasks: Tasks, plan: seq<Planned>, k: nat)
    requires PlanShape(scan, plan) && k < |plan| && plan[k].id !in tasks
    ensures Insertable(AddRows(tasks, plan[..k]), plan[k])
  {
    if plan[k].id in AddRows(tasks, plan[..k]) {
      AddedRow(tasks, plan[..k], plan[k].id);
      var p :| p in plan[..k] && p.id == plan[k].id && AddRows(tasks, plan[..k])[plan[k].id] == PlannedRow(p);
      assert p in plan && plan[k] in plan;
    }
  }

  lemma InsertDependent(half: State, scan: ScanId, plan: seq<Planned>, k: nat, next: State)
    requires k < |plan| && plan[k].deps != [] && Insertable(half.tasks, plan[k])
    requires half.submissions == map[scan := Submission(k, Inserting)] && scan in half.plans && half.plans[scan] == plan
    requires next == half.(tasks := half.tasks[plan[k].id := PlannedRow(plan[k])],
                           submissions := map[scan := Submission(k + 1, Inserting)])
    ensures Next(half, Insert(scan), next)
  {
    assert next.tasks == InsertRow(half.tasks, plan[k]);
    assert next == ApplySubmit(half, Insert(scan));
  }

  lemma SubmitDependent(s: State, scan: ScanId, plan: seq<Planned>, k: nat)
    requires k < |plan| && plan[k].deps != [] && Insertable(AddRows(s.tasks, plan[..k]), plan[k])
    ensures Next(HalfSubmitted(s, scan, plan, k), Insert(scan), HalfSubmitted(s, scan, plan, k + 1))
  {
    AddRowsNext(s.tasks, plan, k);
    var half, next := HalfSubmitted(s, scan, plan, k), HalfSubmitted(s, scan, plan, k + 1);
    assert next.stream == half.stream;
    InsertDependent(half, scan, plan, k, next);
  }

  ghost function RootInserted(half: State, scan: ScanId, p: Planned, k: nat): State {
    half.(tasks := InsertRow(half.tasks, p), submissions := map[scan := Submission(k, Sending)])
  }

  ghost function RootSent(half: State, scan: ScanId, p: Planned, k: nat): State {
    half.(tasks := InsertRow(half.tasks, p), stream := half.stream + [Message(p.id, 1)],
          submissions := map[scan := Submission(k, Marking)])
  }

  lemma InsertRoot(half: State, scan: ScanId, plan: seq<Planned>, k: nat)
    requires k < |plan| && plan[k].deps == []
    requires half.submissions == map[scan := Submission(k, Inserting)] && scan in half.plans && half.plans[scan] == plan
    ensures Next(half, Insert(scan), RootInserted(half, scan, plan[k], k))
  {
    assert RootInserted(half, scan, plan[k], k) == Apply(half, Insert(scan));
  }

  lemma SendRoot(half: State, scan: ScanId, plan: seq<Planned>, k: nat)
    requires k < |plan| && scan in half.plans && half.plans[scan] == plan
    ensures Next(RootInserted(half, scan, plan[k], k), Send(scan), RootSent(half, scan, plan[k], k))
  {
    assert RootSent(half, scan, plan[k], k) == Apply(RootInserted(half, scan, plan[k], k), Send(scan));
  }

  lemma MarkedRow(tasks: Tasks, p: Planned)
    requires p.deps == [] && Insertable(tasks, p)
    ensures MarkRows(InsertRow(tasks, p), [p.id]) == tasks[p.id := PlannedRow(p)]
  {
  }

  lemma MarkRoot(half: State, scan: ScanId, plan: seq<Planned>, k: nat, next: State)
    requires k < |plan| && plan[k].deps == [] && scan in half.plans && half.plans[scan] == plan
    requires Insertable(half.tasks, plan[k])
    requires next == half.(tasks := half.tasks[plan[k].id := PlannedRow(plan[k])],
                           stream := half.stream + [Message(plan[k].id, 1)],
                           submissions := map[scan := Submission(k + 1, Inserting)])
    ensures Next(RootSent(half, scan, plan[k], k), Mark(scan), next)
  {
    var sent := RootSent(half, scan, plan[k], k);
    assert Current(sent, scan) == plan[k];
    MarkedRow(half.tasks, plan[k]);
    assert next == ApplySubmit(sent, Mark(scan));
  }

  lemma SubmitRoot(s: State, scan: ScanId, plan: seq<Planned>, k: nat) returns (acts: seq<Action>)
    requires k < |plan| && plan[k].deps == [] && Insertable(AddRows(s.tasks, plan[..k]), plan[k])
    ensures Exec(HalfSubmitted(s, scan, plan, k), acts, HalfSubmitted(s, scan, plan, k + 1))
  {
    AddRowsNext(s.tasks, plan, k);
    var half, next := HalfSubmitted(s, scan, plan, k), HalfSubmitted(s, scan, plan, k + 1);
    assert next.stream == half.stream + [Message(plan[k].id, 1)];
    InsertRoot(half, scan, plan, k);
    SendRoot(half, scan, plan, k);
    MarkRoot(half, scan, plan, k, next);
    acts := ThreeSteps(half, Insert(scan), RootInserted(half, scan, plan[k], k), Send(scan),
                       RootSent(half, scan, plan[k], k), Mark(scan), next);
  }

  lemma ThreeSteps(s0: State, a: Action, s1: State, b: Action, s2: State, c: Action, s3: State)
    returns (acts: seq<Action>)
    requires Next(s0, a, s1) && Next(s1, b, s2) && Next(s2, c, s3)
    ensures Exec(s0, acts, s3)
  {
    ExecOne(s0, a, s1);
    ExecStep(s0, [a], s1, b, s2);
    ExecStep(s0, [a] + [b], s2, c, s3);
    acts := [a] + [b] + [c];
  }

  lemma SubmitNext(s: State, scan: ScanId, plan: seq<Planned>, k: nat) returns (acts: seq<Action>)
    requires k < |plan| && PlanShape(scan, plan) && plan[k].id !in s.tasks
    ensures Exec(HalfSubmitted(s, scan, plan, k), acts, HalfSubmitted(s, scan, plan, k + 1))
  {
    NextInsertable(scan, s.tasks, plan, k);
    if plan[k].deps == [] {
      acts := SubmitRoot(s, scan, plan, k);
    } else {
      SubmitDependent(s, scan, plan, k);
      acts := [Insert(scan)];
      ExecOne(HalfSubmitted(s, scan, plan, k), Insert(scan), HalfSubmitted(s, scan, plan, k + 1));
    }
  }

  lemma {:induction false} SubmitRun(s: State, scan: ScanId, plan: seq<Planned>, k: nat) returns (acts: seq<Action>)
    requires k <= |plan| && PlanShape(scan, plan) && forall p | p in plan :: p.id !in s.tasks
    ensures Exec(HalfSubmitted(s, scan, plan, 0), acts, HalfSubmitted(s, scan, plan, k))
  {
    if k == 0 {
      ExecNone(HalfSubmitted(s, scan, plan, 0));
      acts := [];
    } else {
      var before := SubmitRun(s, scan, plan, k - 1);
      assert plan[k - 1] in plan;
      var step := SubmitNext(s, scan, plan, k - 1);
      ExecAppend(HalfSubmitted(s, scan, plan, 0), before, HalfSubmitted(s, scan, plan, k - 1), step,
                 HalfSubmitted(s, scan, plan, k));
      acts := before + step;
    }
  }

  /** The whole submission, in one closed form. */
  ghost function Submitted(s: State, scan: ScanId, plan: seq<Planned>): State {
    s.(tasks := AddRows(s.tasks, plan), scans := s.scans[scan := Active], plans := s.plans[scan := plan],
       stream := s.stream + RootMessages(plan))
  }

  /** An undisturbed submission ends there, whatever keys repeat. */
  lemma SubmitIsRun(s: State, scan: ScanId, plan: seq<Planned>) returns (acts: seq<Action>)
    requires Quiet(s) && Enabled(s, Begin(scan, plan)) && forall p | p in plan :: p.id !in s.tasks
    ensures Exec(s, acts, Submitted(s, scan, plan))
  {
    var first, last := HalfSubmitted(s, scan, plan, 0), HalfSubmitted(s, scan, plan, |plan|);
    var end := Submitted(s, scan, plan);
    BeginSubmit(s, scan, plan);
    FinishSubmit(s, scan, plan);
    var middle := SubmitRun(s, scan, plan, |plan|);
    ExecStep(first, middle, last, Finish(scan), end);
    ExecCons(s, Begin(scan, plan), first, middle + [Finish(scan)], end);
    acts := [Begin(scan, plan)] + (middle + [Finish(scan)]);
  }

  lemma BeginSubmit(s: State, scan: ScanId, plan: seq<Planned>)
    requires Quiet(s) && Enabled(s, Begin(scan, plan))
    ensures Next(s, Begin(scan, plan), HalfSubmitted(s, scan, plan, 0))
  {
    var first := HalfSubmitted(s, scan, plan, 0);
    assert first.stream == s.stream && first.tasks == s.tasks;
    assert first == ApplySubmit(s, Begin(scan, plan));
  }

  lemma FinishSubmit(s: State, scan: ScanId, plan: seq<Planned>)
    requires Quiet(s)
    ensures Next(HalfSubmitted(s, scan, plan, |plan|), Finish(scan), Submitted(s, scan, plan))
  {
    assert plan[..|plan|] == plan;
    assert Submitted(s, scan, plan) == ApplySubmit(HalfSubmitted(s, scan, plan, |plan|), Finish(scan));
  }

  /** A dispatch that has sent the first k tasks of its batch. */
  ghost function HalfDispatched(s: State, batch: seq<TaskId>, k: nat): State
    requires k <= |batch|
  {
    s.(dispatcher := Dispatching(batch[k..], batch[..k]), stream := s.stream + FirstMessages(batch[..k]))
  }

  lemma {:induction false} DispatchRun(s: State, batch: seq<TaskId>, k: nat) returns (acts: seq<Action>)
    requires k <= |batch|
    ensures Exec(HalfDispatched(s, batch, 0), acts, HalfDispatched(s, batch, k))
    ensures forall a | a in acts :: DispatchAction(a)
  {
    if k == 0 {
      ExecNone(HalfDispatched(s, batch, 0));
      acts := [];
    } else {
      var before := DispatchRun(s, batch, k - 1);
      DispatchOne(s, batch, k - 1);
      ExecStep(HalfDispatched(s, batch, 0), before, HalfDispatched(s, batch, k - 1), SendReady, HalfDispatched(s, batch, k));
      acts := before + [SendReady];
    }
  }

  lemma DispatchOne(s: State, batch: seq<TaskId>, k: nat)
    requires k < |batch|
    ensures Next(HalfDispatched(s, batch, k), SendReady, HalfDispatched(s, batch, k + 1))
  {
    var half, next := HalfDispatched(s, batch, k), HalfDispatched(s, batch, k + 1);
    assert batch[k..][0] == batch[k] && batch[k..][1..] == batch[k + 1..] && batch[..k] + [batch[k]] == batch[..k + 1];
    assert next.stream == half.stream + [Message(batch[k], 1)];
    assert next == Apply(half, SendReady);
  }

  lemma DispatchIsRun(s: State, batch: seq<TaskId>) returns (acts: seq<Action>)
    requires s.dispatcher.Idle? && Possible(s, Dispatch(batch))
    ensures Exec(s, acts, Moved(s, Dispatch(batch))) && forall a | a in acts :: DispatchAction(a)
  {
    var first, last, end := HalfDispatched(s, batch, 0), HalfDispatched(s, batch, |batch|), Moved(s, Dispatch(batch));
    assert batch[0..] == batch && batch[..|batch|] == batch && first.stream == s.stream;
    assert Next(s, ReadReady(batch), first) by {
      assert first == Apply(s, ReadReady(batch));
    }
    assert Next(last, MarkReady, end) by {
      assert end == Apply(last, MarkReady);
    }
    var middle := DispatchRun(s, batch, |batch|);
    ExecStep(first, middle, last, MarkReady, end);
    ExecCons(s, ReadReady(batch), first, middle + [MarkReady], end);
    acts := [ReadReady(batch)] + (middle + [MarkReady]);
  }

  lemma TallyDecides(s: State, scan: ScanId)
    requires scan in s.closing && s.closing[scan].Selected?
    requires SomeIn(s, scan, Succeeded) || SomeIn(s, scan, Failed) || SomeIn(s, scan, Aborted) || SomeIn(s, scan, Dead)
    ensures Next(s, Tally(scan), s.(closing := s.closing[scan := Decided(ClosedStatus(s, scan))]))
  {
    assert ApplyClosing(s, Tally(scan)) == s.(closing := s.closing[scan := Decided(ClosedStatus(s, scan))]);
  }

  lemma SelectedTallies(s: State, scan: ScanId)
    requires Closable(s, scan) && exists t :: t in s.tasks && t.scan == scan
    ensures Next(s.(closing := map[scan := Selected]), Tally(scan),
                 s.(closing := map[scan := Decided(ClosedStatus(s, scan))]))
  {
    var s1 := s.(closing := map[scan := Selected]);
    var t :| t in s.tasks && t.scan == scan;
    assert SomeIn(s1, scan, s.tasks[t].state);
    assert SomeIn(s1, scan, Succeeded) == SomeIn(s, scan, Succeeded);
    TallyDecides(s1, scan);
    assert s1.closing[scan := Decided(ClosedStatus(s, scan))] == map[scan := Decided(ClosedStatus(s, scan))];
  }

  lemma CloseIsRun(s: State, scan: ScanId) returns (acts: seq<Action>)
    requires Quiet(s) && Possible(s, CloseScan(scan))
    requires exists t :: t in s.tasks && t.scan == scan
    ensures Exec(s, acts, Moved(s, CloseScan(scan)))
  {
    var end := Moved(s, CloseScan(scan));
    var s1 := s.(closing := map[scan := Selected]);
    assert s1 == Apply(s, Select(scan));
    SelectedTallies(s, scan);
    var s2 := s.(closing := map[scan := Decided(ClosedStatus(s, scan))]);
    assert end == Apply(s2, Close(scan));
    acts := ThreeSteps(s, Select(scan), s1, Tally(scan), s2, Close(scan), end);
  }

  /** Clean runs are runs: each move is an uninterrupted sequence of ordinary steps. */
  lemma MoveIsRun(s: State, m: Move) returns (acts: seq<Action>)
    requires Quiet(s) && Basic(s) && Possible(s, m)
    ensures Exec(s, acts, Moved(s, m)) && Quiet(Moved(s, m))
    ensures m.Dispatch? || m.Work? ==> forall a | a in acts :: DispatchAction(a) || WorkerAction(a)
  {
    match m {
      case Submit(scan, plan) =>
        forall p | p in plan ensures p.id !in s.tasks {
          assert p.id.scan == scan;
        }
        acts := SubmitIsRun(s, scan, plan);
      case Dispatch(batch) =>
        acts := DispatchIsRun(s, batch);
      case CloseScan(scan) =>
        ClosableHasTask(s, scan);
        acts := CloseIsRun(s, scan);
      case Work(a) =>
        assert Apply(s, a) == ApplyWorker(s, a);
        acts := [a];
        ExecOne(s, a, ApplyWorker(s, a));
    }
  }

  lemma ClosableHasTask(s: State, scan: ScanId)
    requires Basic(s) && Closable(s, scan)
    ensures exists t :: t in s.tasks && t.scan == scan
  {
    var p := s.plans[scan][0];
    assert p in s.plans[scan] && PlanShape(scan, s.plans[scan]);
    assert p.id in s.tasks && p.id.scan == scan;
  }
}
