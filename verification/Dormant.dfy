/** While nothing of a plan can have started, nothing of its scan is sent; so late
    dependencies are harmless that are inserted before anything can start. */
module Dormant {
  import opened Prelude
  import opened Graph
  import opened Planner
  import opened Lifecycle
  import opened Runs

  /** Entry k is listed before entry m of one of its dependency steps, whose key does
      not stand earlier in the plan. */
  ghost predicate Early(plan: seq<Planned>, k: nat, m: nat) {
    && k < |plan| && k <= m < |plan| && plan[m].id.step in plan[k].deps
    && plan[m].id !in KeysOf(plan[..m])
  }

  /** The first entry of a planned key. */
  lemma {:induction false} FirstOfKey(plan: seq<Planned>, i: nat) returns (m: nat)
    requires i < |plan|
    ensures m <= i && plan[m].id == plan[i].id && plan[m].id !in KeysOf(plan[..m])
  {
    if plan[i].id in KeysOf(plan[..i]) {
      var k := KeyIndex(plan, i, plan[i].id);
      m := FirstOfKey(plan, k);
    } else {
      m := i;
    }
  }

  lemma KeyIndex(plan: seq<Planned>, p: nat, t: TaskId) returns (k: nat)
    requires p <= |plan| && t in KeysOf(plan[..p])
    ensures k < p && plan[k].id == t && plan[k] in plan
  {
    k :| k < p && plan[..p][k].id == t;
  }

  /** With the first n entries inserted, entry k can be sent although nothing has run:
      it is a root, or it has no gate and none of its dependencies is inserted. */
  ghost predicate Starts(plan: seq<Planned>, k: nat, n: nat) {
    && k < n <= |plan|
    && (plan[k].deps == [] ||
        (plan[k].gate.None? && forall m: nat | m < n :: plan[m].id.step !in plan[k].deps))
  }

  /** Something can have started by the time the first m entries are inserted. */
  ghost predicate Started(plan: seq<Planned>, m: nat) {
    exists k: nat, n: nat :: n <= m && Starts(plan, k, n)
  }

  // ------------------------------------------------------ a dormant scan

  /** Nothing of the scan has been read, sent, run or found. */
  ghost predicate Asleep(s: State, scan: ScanId) {
    && (forall t | t in s.tasks && t.scan == scan :: s.tasks[t].state.Queued?)
    && (forall f | f in s.findings :: f.0 != scan)
    && (forall e | 0 <= e < |s.stream| :: s.stream[e].task.scan != scan)
    && (s.dispatcher.Dispatching? ==> forall t | t in s.dispatcher.todo :: t.scan != scan)
  }

  /** The first p entries of the plan, and no others, have been inserted. */
  ghost predicate Position(s: State, scan: ScanId, plan: seq<Planned>, p: nat) {
    && p <= |plan| && Inserted(plan, p, s.tasks.Keys)
    && (forall t | t in s.tasks && t.scan == scan :: t in KeysOf(plan[..p]))
    && (scan in s.submissions ==>
          if s.submissions[scan].point.Inserting? then p == s.submissions[scan].pos
          else p == s.submissions[scan].pos + 1 && plan[s.submissions[scan].pos].deps == [])
  }

  ghost predicate DormantAt(s: State, scan: ScanId, plan: seq<Planned>, p: nat) {
    Position(s, scan, plan, p) && (Started(plan, p) || Asleep(s, scan))
  }

  ghost predicate Dormant(s: State, scan: ScanId) {
    if scan in s.plans then exists p: nat :: DormantAt(s, scan, s.plans[scan], p) else Asleep(s, scan)
  }

  // --------------------------------------------------------- the rows

  lemma InsertPosition(s: State, scan: ScanId, p: nat)
    requires Enabled(s, Insert(scan)) && Position(s, scan, s.plans[scan], p)
    ensures Position(ApplySubmit(s, Insert(scan)), scan, s.plans[scan], p + 1)
  {
    var s', plan := ApplySubmit(s, Insert(scan)), s.plans[scan];
    assert Current(s, scan) == plan[p] && plan[..p + 1] == plan[..p] + [plan[p]];
    assert plan[p] in plan[..p + 1];
    forall t | t in s'.tasks && t.scan == scan ensures t in KeysOf(plan[..p + 1]) {
      if t != plan[p].id {
        var q :| q in plan[..p] && q.id == t;
        assert q in plan[..p + 1];
      }
    }
  }

  lemma SubmitPosition(s: State, a: Action, scan: ScanId, p: nat)
    requires Enabled(s, a) && SubmitAction(a) && scan in s.plans && Position(s, scan, s.plans[scan], p)
    requires s.plans.Keys == s.scans.Keys && PlansOk(s.plans) && a != Insert(scan)
    ensures Position(ApplySubmit(s, a), scan, s.plans[scan], p)
  {
    if a.Insert? {
      assert Current(s, a.scan) in s.plans[a.scan] && PlanShape(a.scan, s.plans[a.scan]);
    }
  }

  lemma KeepsPosition(s: State, a: Action, scan: ScanId, plan: seq<Planned>, p: nat)
    requires Enabled(s, a) && !SubmitAction(a) && Position(s, scan, plan, p)
    ensures Position(Apply(s, a), scan, plan, p)
  {
    GrowsStep(s, a);
    KeepsSubmissions(s, a);
  }

  // ------------------------------------------------------ staying asleep

  /** The step sends nothing of the scan and reads nothing of it as ready. */
  ghost predicate Leaves(a: Action, scan: ScanId) {
    (a.Send? ==> a.scan != scan) && (a.ReadReady? ==> forall t | t in a.batch :: t.scan != scan)
  }

  lemma SubmitAsleep(s: State, a: Action, scan: ScanId)
    requires PlansOk(s.plans) && Enabled(s, a) && SubmitAction(a) && Asleep(s, scan) && Leaves(a, scan)
    ensures Asleep(ApplySubmit(s, a), scan)
  {
    if a.Send? {
      assert Current(s, a.scan) in s.plans[a.scan] && PlanShape(a.scan, s.plans[a.scan]);
    }
  }

  lemma DispatchAsleep(s: State, a: Action, scan: ScanId)
    requires Enabled(s, a) && DispatchAction(a) && Asleep(s, scan) && Leaves(a, scan)
    ensures Asleep(ApplyDispatch(s, a), scan)
  {
    var s' := ApplyDispatch(s, a);
    if a.SendReady? {
      assert s.dispatcher.todo[0] in s.dispatcher.todo;
      forall t | t in s.dispatcher.todo[1..] ensures t in s.dispatcher.todo {
      }
    }
  }

  lemma WorkerAsleep(s: State, a: Action, scan: ScanId)
    requires QueueOk(|s.stream|, s.cursor, s.pel, s.workers, s.claims)
    requires Enabled(s, a) && WorkerAction(a) && Asleep(s, scan)
    ensures Asleep(ApplyWorker(s, a), scan)
  {
  }

  lemma ReclaimAsleep(s: State, a: Action, scan: ScanId)
    requires QueueOk(|s.stream|, s.cursor, s.pel, s.workers, s.claims)
    requires Enabled(s, a) && ReclaimAction(a) && Asleep(s, scan)
    ensures Asleep(ApplyReclaim(s, a), scan)
  {
  }

  lemma ClosingAsleep(s: State, a: Action, scan: ScanId)
    requires Enabled(s, a) && ClosingAction(a) && Asleep(s, scan)
    ensures Asleep(ApplyClosing(s, a), scan)
  {
  }

  lemma StepAsleep(s: State, a: Action, scan: ScanId)
    requires PlansOk(s.plans) && QueueOk(|s.stream|, s.cursor, s.pel, s.workers, s.claims)
    requires Enabled(s, a) && Asleep(s, scan) && Leaves(a, scan)
    ensures Asleep(Apply(s, a), scan)
  {
    if SubmitAction(a) {
      SubmitAsleep(s, a, scan);
    } else if DispatchAction(a) {
      DispatchAsleep(s, a, scan);
    } else if ClosingAction(a) {
      ClosingAsleep(s, a, scan);
    } else if ReclaimAction(a) {
      ReclaimAsleep(s, a, scan);
    } else {
      WorkerAsleep(s, a, scan);
    }
  }

  /** What is ready in a sleeping scan is a starter. */
  lemma ReadyStarts(s: State, scan: ScanId, plan: seq<Planned>, p: nat, t: TaskId)
    requires RowsPlanned(s.tasks, s.plans) && PlansOk(s.plans) && scan in s.plans && s.plans[scan] == plan
    requires Position(s, scan, plan, p) && Asleep(s, scan) && Ready(s, t) && t.scan == scan
    ensures Started(plan, p)
  {
    var k := KeyIndex(plan, p, t);
    RowAgrees(s, plan[k]);
    if plan[k].deps != [] {
      forall m: nat | m < p ensures plan[m].id.step !in plan[k].deps {
        assert plan[m] in plan && PlanShape(scan, plan);
        assert plan[m].id in s.tasks;
      }
    }
    assert Starts(plan, k, p);
  }

  lemma StartedLater(plan: seq<Planned>, p: nat, q: nat)
    requires Started(plan, p) && p <= q
    ensures Started(plan, q)
  {
    var k: nat, n: nat :| n <= p && Starts(plan, k, n);
    assert n <= q;
  }

  lemma SendMeansStarted(s: State, scan: ScanId, p: nat)
    requires Enabled(s, Send(scan)) && Position(s, scan, s.plans[scan], p)
    ensures Started(s.plans[scan], p)
  {
    assert Starts(s.plans[scan], s.submissions[scan].pos, p);
  }

  // ------------------------------------------------------- over all runs

  /** The position after the step; nothing starts unless something could. */
  lemma DormantMoves(s: State, a: Action, scan: ScanId, p: nat) returns (q: nat)
    requires Basic(s) && Enabled(s, a) && scan in s.plans && DormantAt(s, scan, s.plans[scan], p)
    ensures scan in Apply(s, a).plans && Apply(s, a).plans[scan] == s.plans[scan]
    ensures DormantAt(Apply(s, a), scan, s.plans[scan], q)
  {
    var plan := s.plans[scan];
    PlanPersists(s, a, scan);
    q := if a == Insert(scan) then p + 1 else p;
    if a == Insert(scan) {
      InsertPosition(s, scan, p);
    } else if SubmitAction(a) {
      SubmitPosition(s, a, scan, p);
    } else {
      KeepsPosition(s, a, scan, plan, p);
    }
    if Started(plan, p) {
      StartedLater(plan, p, q);
    } else {
      NothingStarts(s, a, scan, p);
      StepAsleep(s, a, scan);
    }
  }

  lemma NothingStarts(s: State, a: Action, scan: ScanId, p: nat)
    requires Basic(s) && Enabled(s, a) && scan in s.plans && Position(s, scan, s.plans[scan], p)
    requires Asleep(s, scan) && !Started(s.plans[scan], p)
    ensures Leaves(a, scan)
  {
    if a == Send(scan) {
      SendMeansStarted(s, scan, p);
    } else if a.ReadReady? {
      forall t | t in a.batch ensures t.scan != scan {
        if t.scan == scan {
          ReadyStarts(s, scan, s.plans[scan], p, t);
        }
      }
    }
  }

  lemma NewPosition(s: State, scan: ScanId, plan: seq<Planned>)
    requires RowsPlanned(s.tasks, s.plans) && s.plans.Keys == s.scans.Keys
    requires Enabled(s, Begin(scan, plan)) && Asleep(s, scan)
    ensures DormantAt(ApplySubmit(s, Begin(scan, plan)), scan, plan, 0)
  {
  }

  lemma UnplannedLeaves(s: State, a: Action, scan: ScanId)
    requires Basic(s) && Enabled(s, a) && scan !in s.plans
    ensures Leaves(a, scan)
  {
    if a.ReadReady? {
      forall t | t in a.batch ensures t.scan != scan {
        assert Ready(s, t);
      }
    }
  }

  lemma DormantStep(s: State, a: Action, scan: ScanId)
    requires Basic(s) && Enabled(s, a) && Dormant(s, scan)
    ensures Dormant(Apply(s, a), scan)
  {
    if scan in s.plans {
      var p: nat :| DormantAt(s, scan, s.plans[scan], p);
      var q := DormantMoves(s, a, scan, p);
    } else if a.Begin? && a.scan == scan {
      NewPosition(s, scan, a.plan);
      assert DormantAt(Apply(s, a), scan, a.plan, 0);
    } else {
      UnplannedLeaves(s, a, scan);
      StepAsleep(s, a, scan);
      StaysUnplanned(s, a, scan);
    }
  }

  lemma StaysUnplanned(s: State, a: Action, scan: ScanId)
    requires Enabled(s, a) && scan !in s.plans && !(a.Begin? && a.scan == scan)
    ensures scan !in Apply(s, a).plans
  {
    if !a.Begin? {
      KeepsPlans(s, a);
    }
  }

  lemma {:induction false} DormantRun(states: seq<State>, acts: seq<Action>, n: nat, scan: ScanId)
    requires IsRun(states, acts) && n <= |acts|
    ensures Dormant(states[n], scan)
  {
    if n > 0 {
      DormantRun(states, acts, n - 1, scan);
      BasicRun(states, acts, n - 1);
      RunStep(states, acts, n - 1);
      DormantStep(states[n - 1], acts[n - 1], scan);
    }
  }

  // ---------------------------------------------------- the safe direction

  /** No late dependency is inserted once something can have started. */
  ghost predicate StartsInOrder(plan: seq<Planned>) {
    forall k: nat, m: nat | Early(plan, k, m) :: !Started(plan, m)
  }

  lemma EntryOf(s: State, scan: ScanId, p: nat, t: TaskId) returns (k: nat)
    requires RowsPlanned(s.tasks, s.plans) && PlansOk(s.plans) && scan in s.plans
    requires Position(s, scan, s.plans[scan], p) && t in s.tasks && t.scan == scan
    ensures k < p && s.plans[scan][k].id == t && s.plans[scan][k].deps == s.tasks[t].deps
  {
    k := KeyIndex(s.plans[scan], p, t);
    RowAgrees(s, s.plans[scan][k]);
  }

  /** Then what is read as ready has all its planned dependencies inserted. */
  lemma ReadyIsDone(s: State, scan: ScanId, t: TaskId)
    requires RowsPlanned(s.tasks, s.plans) && PlansOk(s.plans)
    requires Dormant(s, scan) && scan in s.plans && StartsInOrder(s.plans[scan])
    requires Ready(s, t) && t.scan == scan
    ensures DependenciesDone(s, t) && GateMet(s, t)
  {
    var p: nat :| DormantAt(s, scan, s.plans[scan], p);
    var k := EntryOf(s, scan, p, t);
    forall q | q in s.plans[scan] && q.id.step in s.tasks[t].deps
      ensures q.id in s.tasks && s.tasks[q.id].state.Succeeded?
    {
      DependencyDone(s, scan, p, k, q);
    }
  }

  lemma DependencyDone(s: State, scan: ScanId, p: nat, k: nat, q: Planned)
    requires RowsPlanned(s.tasks, s.plans) && PlansOk(s.plans) && scan in s.plans && StartsInOrder(s.plans[scan])
    requires DormantAt(s, scan, s.plans[scan], p) && k < p
    requires Ready(s, s.plans[scan][k].id) && s.plans[scan][k].id.scan == scan
    requires q in s.plans[scan] && q.id.step in s.plans[scan][k].deps
    requires s.tasks[s.plans[scan][k].id].deps == s.plans[scan][k].deps
    ensures q.id in s.tasks && s.tasks[q.id].state.Succeeded?
  {
    var i: nat :| i < |s.plans[scan]| && s.plans[scan][i] == q;
    var m := FirstOfKey(s.plans[scan], i);
    ListedBefore(s, scan, p, k, m);
    assert PlanShape(scan, s.plans[scan]);
  }

  lemma ListedBefore(s: State, scan: ScanId, p: nat, k: nat, m: nat)
    requires RowsPlanned(s.tasks, s.plans) && PlansOk(s.plans) && scan in s.plans && StartsInOrder(s.plans[scan])
    requires DormantAt(s, scan, s.plans[scan], p) && k < p && m < |s.plans[scan]|
    requires s.plans[scan][m].id.step in s.plans[scan][k].deps && s.plans[scan][m].id !in KeysOf(s.plans[scan][..m])
    requires Ready(s, s.plans[scan][k].id) && s.plans[scan][k].id.scan == scan
    ensures m < p && s.plans[scan][m].id in s.tasks
  {
    var plan := s.plans[scan];
    if m >= p {
      assert Early(plan, k, m);
      NotStartedYet(plan, p, m);
      ReadyStarts(s, scan, plan, p, plan[k].id);
    }
  }

  lemma NotStartedYet(plan: seq<Planned>, p: nat, m: nat)
    requires p <= m && !Started(plan, m)
    ensures !Started(plan, p)
  {
    if Started(plan, p) {
      StartedLater(plan, p, m);
    }
  }

  /** So every message of a dependent task traces back to a read that saw its planned
      dependencies done and its gate met, whatever keys repeat. */
  lemma TracesToDone(states: seq<State>, acts: seq<Action>, n: nat, scan: ScanId, t: TaskId) returns (i: nat)
    requires IsRun(states, acts) && n <= |acts| && scan in states[n].plans && StartsInOrder(states[n].plans[scan])
    requires t.scan == scan && t in states[n].tasks && states[n].tasks[t].deps != [] && InFlight(states[n], t)
    ensures i < n && acts[i].ReadReady? && t in acts[i].batch
    ensures DependenciesDone(states[i], t) && GateMet(states[i], t)
  {
    TracesBack(states, acts, n, t);
    i :| 0 <= i < n && acts[i].ReadReady? && t in acts[i].batch;
    RunStep(states, acts, i);
    assert Ready(states[i], t);
    BasicRun(states, acts, i);
    assert scan in states[i].plans;
    PlansPersist(states, acts, i, n, scan);
    DormantRun(states, acts, i, scan);
    ReadyIsDone(states[i], scan, t);
  }
}
